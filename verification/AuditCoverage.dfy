/** What gets an audit entry: every transaction that changes something, under the name of whoever asked for it. */
module AuditCoverage {
  import opened Prelude
  import opened Permissions
  import opened Tables
  import opened Transactions
  import opened SerialMachine

  /** The account that asked, where the command names one. */
  function Caller(c: Command): Option<Id> {
    match c
    case CLogout(_, userId) => Some(userId)
    case CRevokeSession(actor, _) => Some(actor)
    case CChangePassword(userId, _, _, _) => Some(userId)
    case CSetUserActive(actor, _, _, _) => Some(actor)
    case CInvite(actor, _, _, _, _, _) => Some(actor)
    case CRevokeInvitation(actor, _) => Some(actor)
    case CCreateRole(actor, _, _, _, _, _) => Some(actor)
    case CUpdateRole(actor, _, _, _, _, _) => Some(actor)
    case CDeleteRole(actor, _, _) => Some(actor)
    case CSetUserRoles(actor, _, _, _) => Some(actor)
    case CCreateApiKey(actor, _, _, _, _, _) => Some(actor)
    case CRevokeApiKey(actor, _) => Some(actor)
    case _ => None
  }

  /** The account an entry is attributed to, or for the entries that record no actor the one it is about. */
  function Attributed(e: Entry): Option<Id> {
    match e
    case LoginFailed(claimed, _, _) => claimed
    case PasswordResetRejected(claimed, _, _) => claimed
    case SessionRevoked(actor, _) => Some(actor)
    case UserDeactivated(actor, _, _) => Some(actor)
    case UserReactivated(actor, _) => Some(actor)
    case RolesUpdated(actor, _, _, _) => Some(actor)
    case InvitationCreated(actor, _, _, _) => Some(actor)
    case InvitationRevoked(actor, _) => Some(actor)
    case RoleCreated(actor, _, _, _, _) => Some(actor)
    case RoleUpdated(actor, _, _, _, _) => Some(actor)
    case RoleDeleted(actor, _, _) => Some(actor)
    case ApiKeyCreated(actor, _, _, _) => Some(actor)
    case ApiKeyRevoked(actor, _, _) => Some(actor)
    case _ => Some(e.userId)
  }

  /** The row a command is on: the one it names, or the one it made. */
  function Object(c: Command, reply: Reply): Option<Id> {
    match c
    case CRevokeSession(_, id) => Some(id)
    case CSetUserActive(_, _, target, _) => Some(target)
    case CRevokeInvitation(_, id) => Some(id)
    case CUpdateRole(_, _, id, _, _, _) => Some(id)
    case CDeleteRole(_, _, id) => Some(id)
    case CSetUserRoles(_, _, target, _) => Some(target)
    case CRevokeApiKey(_, id) => Some(id)
    case _ => if reply.NewRow? then Some(reply.id) else None
  }

  /** The row an entry is about. */
  function Target(e: Entry): Option<Id> {
    match e
    case LoginFailed(_, _, _) => None
    case PasswordResetRejected(_, _, _) => None
    case SessionRevoked(_, id) => Some(id)
    case InvitationCreated(_, id, _, _) => Some(id)
    case InvitationRevoked(_, id) => Some(id)
    case RoleCreated(_, id, _, _, _) => Some(id)
    case RoleUpdated(_, id, _, _, _) => Some(id)
    case RoleDeleted(_, id, _) => Some(id)
    case ApiKeyCreated(_, id, _, _) => Some(id)
    case ApiKeyRevoked(_, id, _) => Some(id)
    case _ => Some(e.userId)
  }

  /** The commands that are reads, or by design leave no trace in the log. */
  predicate Unrecorded(c: Command) {
    c.CAuthenticate? || c.CAuthenticateKey? || c.CListSessions? || c.CPrune? || c.CSendVerification?
  }

  /** A command either is recorded, under the caller's name and about the row it was on, or was refused without changing
      anything; only a failed login is refused and recorded. */
  ghost predicate Covered(t: Tables, c: Command, o: Outcome) {
    && (o.entry.None? ==> o.reply.Failed? && o.t == t)
    && (o.entry.Some? && Caller(c).Some? ==> Attributed(o.entry.value) == Caller(c))
    && (o.entry.Some? && Object(c, o.reply).Some? ==> Target(o.entry.value) == Object(c, o.reply))
    && (o.entry.Some? && o.reply.Failed? ==> c.CLogin? && o.t == t)
  }

  lemma AccountsCovered(t: Tables, now: Time, c: Command)
    requires c.CRegister? || c.CLogin? || c.CLogout? || c.CRevokeSession? || c.CChangePassword? || c.CSetUserActive?
             || c.CSetSuperuser? || c.CGrantRoleByKey? || c.CRequestPasswordReset? || c.CResetPassword?
             || c.CVerifyEmail?
    ensures Covered(t, c, Step(t, now, c))
  {
    hide UserByEmail, RoleByKey, UserSessionsRevoked, UserResetsSpent, UnrevokedCount, HoldsRole, ActiveHolders,
         TokenRevoked;
  }

  lemma OffersCovered(t: Tables, now: Time, c: Command)
    requires c.CInvite? || c.CRevokeInvitation? || c.CAcceptInvitation? || c.CCreateApiKey? || c.CRevokeApiKey?
    ensures Covered(t, c, Step(t, now, c))
  {
    hide UserByEmail, OpenInvitationsRevoked, Paired, AllCatalogued, PermissionSet, PermissionsOf, OfferedInvitation;
  }

  lemma RolesCovered(t: Tables, now: Time, c: Command)
    requires c.CCreateRole? || c.CUpdateRole? || c.CDeleteRole? || c.CSetUserRoles?
    ensures Covered(t, c, Step(t, now, c))
  {
    hide RoleByKey, InvitationsElsewhere, Without, Paired, UnionPermissions, HasRole, RolesHeld, RolesWithIds, Holders,
         RoleKeys, AllCatalogued, PermissionSet, PermissionsOf;
  }

  /** Whatever changes the tables, sweeps and verification links apart, is in the log under the caller's name and about
      the right row; and what the log does not mention was refused and changed nothing. */
  lemma EveryChangeIsRecorded(t: Tables, now: Time, c: Command)
    requires !Unrecorded(c)
    ensures Covered(t, c, Step(t, now, c))
  {
    hide Step, Covered;
    if c.CRegister? || c.CLogin? || c.CLogout? || c.CRevokeSession? || c.CChangePassword? || c.CSetUserActive?
       || c.CSetSuperuser? || c.CGrantRoleByKey? || c.CRequestPasswordReset? || c.CResetPassword? || c.CVerifyEmail? {
      AccountsCovered(t, now, c);
    } else if c.CCreateRole? || c.CUpdateRole? || c.CDeleteRole? || c.CSetUserRoles? {
      RolesCovered(t, now, c);
    } else {
      OffersCovered(t, now, c);
    }
  }
}
