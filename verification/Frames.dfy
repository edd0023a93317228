/** Which tables each command can touch, and how rows may change. */
module Frames {
  import opened Prelude
  import opened Permissions
  import opened Tables
  import opened Transactions
  import opened SerialMachine

  // ---------------------------------------------------------------- who writes what

  /** The commands that write roles, role_permissions or user_roles. */
  predicate WritesAuthority(c: Command) {
    c.CGrantRoleByKey? || c.CAcceptInvitation? || c.CCreateRole? || c.CUpdateRole? || c.CDeleteRole? || c.CSetUserRoles?
  }

  /** The commands that write user rows. */
  predicate WritesUsers(c: Command) {
    c.CRegister? || c.CLogin? || c.CChangePassword? || c.CSetUserActive? || c.CSetSuperuser? || c.CAcceptInvitation?
    || c.CResetPassword? || c.CVerifyEmail?
  }

  predicate WritesSessions(c: Command) {
    c.CLogin? || c.CLogout? || c.CRevokeSession? || c.CChangePassword? || c.CSetUserActive? || c.CResetPassword?
    || c.CPrune?
  }

  predicate WritesResets(c: Command) {
    c.CRequestPasswordReset? || c.CResetPassword? || c.CPrune?
  }

  predicate WritesVerifications(c: Command) {
    c.CSendVerification? || c.CVerifyEmail? || c.CPrune?
  }

  predicate WritesInvitations(c: Command) {
    c.CInvite? || c.CRevokeInvitation? || c.CAcceptInvitation? || c.CDeleteRole?
  }

  predicate WritesKeys(c: Command) {
    c.CCreateApiKey? || c.CRevokeApiKey?
  }

  ghost predicate SameAuthority(t: Tables, u: Tables) {
    u.roles == t.roles && u.rolePermissions == t.rolePermissions && u.userRoles == t.userRoles
  }

  ghost predicate SameUsers(t: Tables, u: Tables) {
    u.users == t.users
  }

  ghost predicate SameSessions(t: Tables, u: Tables) {
    u.sessions == t.sessions
  }

  /** The tables of single-use links to an account. */
  ghost predicate SameLinks(t: Tables, u: Tables) {
    u.resets == t.resets && u.verifications == t.verifications
  }

  ghost predicate SameInvitations(t: Tables, u: Tables) {
    u.invitations == t.invitations
  }

  ghost predicate SameKeys(t: Tables, u: Tables) {
    u.apiKeys == t.apiKeys && u.keyPermissions == t.keyPermissions
  }

  /** Everything the command does not write is as it was, and ids only grow. */
  ghost predicate Kept(c: Command, t: Tables, u: Tables) {
    && t.nextId <= u.nextId
    && (WritesAuthority(c) || SameAuthority(t, u))
    && (WritesUsers(c) || SameUsers(t, u))
    && (WritesSessions(c) || SameSessions(t, u))
    && (WritesResets(c) || u.resets == t.resets)
    && (WritesVerifications(c) || u.verifications == t.verifications)
    && (WritesInvitations(c) || SameInvitations(t, u))
    && (WritesKeys(c) || SameKeys(t, u))
  }

  lemma NothingChanges(t: Tables)
    ensures SameAuthority(t, t) && SameUsers(t, t) && SameSessions(t, t) && SameLinks(t, t)
    ensures SameInvitations(t, t) && SameKeys(t, t)
  {}

  lemma OnlyAssignmentsChange(t: Tables, userRoles: set<(Id, Id)>)
    ensures var u := t.(userRoles := userRoles);
            SameUsers(t, u) && SameSessions(t, u) && SameLinks(t, u) && SameInvitations(t, u) && SameKeys(t, u)
  {}

  lemma RegisterKeeps(t: Tables, email: string, hash: string, ok: bool)
    ensures var o := Register(t, email, hash, ok).t;
            t.nextId <= o.nextId && SameAuthority(t, o) && SameSessions(t, o) && SameLinks(t, o)
            && SameInvitations(t, o) && SameKeys(t, o)
  {
    hide UserByEmail;
  }

  lemma LoginKeeps(t: Tables, now: Time, email: string, verdict: Verdict, upgrade: Option<string>, ttl: int)
    ensures var o := Login(t, now, email, verdict, upgrade, ttl).t;
            t.nextId <= o.nextId && SameAuthority(t, o) && SameLinks(t, o) && SameInvitations(t, o) && SameKeys(t, o)
  {
    hide UserByEmail, LoginRefusal;
  }

  lemma LogoutKeeps(t: Tables, now: Time, token: Digest, userId: Id)
    ensures var o := Logout(t, now, token, userId).t;
            t.nextId <= o.nextId && SameAuthority(t, o) && SameUsers(t, o) && SameLinks(t, o) && SameInvitations(t, o)
            && SameKeys(t, o)
  {
    hide TokenRevoked;
  }

  lemma RevokeSessionKeeps(t: Tables, now: Time, actor: Id, id: Id)
    ensures var o := RevokeSession(t, now, actor, id).t;
            t.nextId <= o.nextId && SameAuthority(t, o) && SameUsers(t, o) && SameLinks(t, o) && SameInvitations(t, o)
            && SameKeys(t, o)
  {}

  lemma ChangePasswordKeeps(t: Tables, now: Time, id: Id, verdict: Verdict, hash: string, ok: bool)
    ensures var o := ChangePassword(t, now, id, verdict, hash, ok).t;
            t.nextId <= o.nextId && SameAuthority(t, o) && SameLinks(t, o) && SameInvitations(t, o) && SameKeys(t, o)
  {
    hide UserSessionsRevoked, UnrevokedCount;
  }

  lemma SetUserActiveKeeps(t: Tables, now: Time, actor: Id, superuser: bool, target: Id, active: bool)
    ensures var o := SetUserActive(t, now, actor, superuser, target, active).t;
            t.nextId <= o.nextId && SameAuthority(t, o) && SameLinks(t, o) && SameInvitations(t, o) && SameKeys(t, o)
  {
    hide HoldsRole, ActiveHolders, UserSessionsRevoked, UnrevokedCount;
  }

  lemma SetSuperuserKeeps(t: Tables, email: string, flag: bool, ok: bool)
    ensures var o := SetSuperuser(t, email, flag, ok).t;
            t.nextId <= o.nextId && SameAuthority(t, o) && SameSessions(t, o) && SameLinks(t, o)
            && SameInvitations(t, o) && SameKeys(t, o)
  {
    hide UserByEmail;
  }

  lemma GrantRoleByKeyKeeps(t: Tables, email: string, key: string, ok: bool)
    ensures var o := GrantRoleByKey(t, email, key, ok).t;
            t.nextId <= o.nextId && SameUsers(t, o) && SameSessions(t, o) && SameLinks(t, o) && SameInvitations(t, o)
            && SameKeys(t, o)
  {
    hide UserByEmail, RoleByKey, SameUsers, SameSessions, SameLinks, SameInvitations, SameKeys;
    NothingChanges(t);
    var found, role := UserByEmail(t.users, email), RoleByKey(t.roles, key);
    if found.Some? && role.Some? {
      OnlyAssignmentsChange(t, t.userRoles + {(found.value, role.value)});
    }
  }

  lemma InviteKeeps(t: Tables, now: Time, actor: Id, access: Access, email: string, roleId: Id, ttl: int, ok: bool)
    ensures var o := Invite(t, now, actor, access, email, roleId, ttl, ok).t;
            t.nextId <= o.nextId && SameAuthority(t, o) && SameUsers(t, o) && SameSessions(t, o) && SameLinks(t, o)
            && SameKeys(t, o)
  {
    hide OpenInvitationsRevoked, PermissionsOf, UserByEmail;
  }

  lemma RevokeInvitationKeeps(t: Tables, now: Time, actor: Id, id: Id)
    ensures var o := RevokeInvitation(t, now, actor, id).t;
            t.nextId <= o.nextId && SameAuthority(t, o) && SameUsers(t, o) && SameSessions(t, o) && SameLinks(t, o)
            && SameKeys(t, o)
  {}

  lemma AcceptInvitationKeeps(t: Tables, now: Time, token: Digest, hash: string, ok: bool)
    ensures var o := AcceptInvitation(t, now, token, hash, ok).t;
            t.nextId <= o.nextId && SameSessions(t, o) && SameLinks(t, o) && SameKeys(t, o)
  {
    hide OfferedInvitation, UserByEmail;
  }

  lemma CreateRoleKeeps(t: Tables, actor: Id, access: Access, key: string, name: string, perms: seq<Permission>,
                        ok: bool)
    ensures var o := CreateRole(t, actor, access, key, name, perms, ok).t;
            t.nextId <= o.nextId && SameUsers(t, o) && SameSessions(t, o) && SameLinks(t, o) && SameInvitations(t, o)
            && SameKeys(t, o)
  {
    hide AllCatalogued, PermissionSet, Paired, Without, RoleByKey;
  }

  lemma UpdateRoleKeeps(t: Tables, actor: Id, access: Access, id: Id, name: string, perms: seq<Permission>, ok: bool)
    ensures var o := UpdateRole(t, actor, access, id, name, perms, ok).t;
            t.nextId <= o.nextId && SameUsers(t, o) && SameSessions(t, o) && SameLinks(t, o) && SameInvitations(t, o)
            && SameKeys(t, o)
  {
    hide AllCatalogued, PermissionSet, PermissionsOf, Paired, Without;
  }

  lemma DeleteRoleKeeps(t: Tables, actor: Id, access: Access, id: Id)
    ensures var o := DeleteRole(t, actor, access, id).t;
            t.nextId <= o.nextId && SameUsers(t, o) && SameSessions(t, o) && SameLinks(t, o) && SameKeys(t, o)
  {
    hide InvitationsElsewhere, Without, PermissionsOf;
  }

  lemma AssignRolesKeeps(t: Tables, actor: Id, target: Id, ids: set<Id>, before: set<string>, after: set<string>)
    ensures var o := AssignRoles(t, actor, target, ids, before, after).t;
            t.nextId <= o.nextId && SameUsers(t, o) && SameSessions(t, o) && SameLinks(t, o)
            && SameInvitations(t, o) && SameKeys(t, o)
  {
    hide Without, Paired, SameUsers, SameSessions, SameLinks, SameInvitations, SameKeys;
    NothingChanges(t);
    OnlyAssignmentsChange(t, Without(t.userRoles, target) + Paired(target, ids));
  }

  lemma SetUserRolesKeeps(t: Tables, actor: Id, access: Access, target: Id, ids: seq<Id>)
    ensures var o := SetUserRoles(t, actor, access, target, ids).t;
            t.nextId <= o.nextId && SameUsers(t, o) && SameSessions(t, o) && SameLinks(t, o) && SameInvitations(t, o)
            && SameKeys(t, o)
  {
    hide AssignRoles, HasRole, RolesHeld, RolesWithIds, UnionPermissions, Holders, RoleKeys, Distinct, SameUsers,
         SameSessions, SameLinks, SameInvitations, SameKeys;
    NothingChanges(t);
    AssignRolesKeeps(t, actor, target, Distinct(ids), RoleKeys(RolesHeld(t, target)),
                     RoleKeys(RolesWithIds(t, Distinct(ids))));
  }

  lemma CreateApiKeyKeeps(t: Tables, now: Time, actor: Id, access: Access, name: string, perms: seq<Permission>,
                          expiresAt: Option<Time>, ok: bool)
    ensures var o := CreateApiKey(t, now, actor, access, name, perms, expiresAt, ok).t;
            t.nextId <= o.nextId && SameAuthority(t, o) && SameUsers(t, o) && SameSessions(t, o) && SameLinks(t, o)
            && SameInvitations(t, o)
  {
    hide Paired, AllCatalogued, PermissionSet;
  }

  lemma RevokeApiKeyKeeps(t: Tables, now: Time, actor: Id, id: Id)
    ensures var o := RevokeApiKey(t, now, actor, id).t;
            t.nextId <= o.nextId && SameAuthority(t, o) && SameUsers(t, o) && SameSessions(t, o) && SameLinks(t, o)
            && SameInvitations(t, o)
  {}

  lemma RequestPasswordResetKeeps(t: Tables, now: Time, email: string, ttl: int)
    ensures var o := RequestPasswordReset(t, now, email, ttl).t;
            t.nextId <= o.nextId && SameAuthority(t, o) && SameUsers(t, o) && SameSessions(t, o)
            && SameInvitations(t, o) && SameKeys(t, o) && o.verifications == t.verifications
  {
    hide UserByEmail, ResetRefusal, UserResetsSpent;
  }

  lemma ResetPasswordKeeps(t: Tables, now: Time, token: Digest, hash: string, ok: bool)
    ensures var o := ResetPassword(t, now, token, hash, ok).t;
            t.nextId <= o.nextId && SameAuthority(t, o) && SameInvitations(t, o) && SameKeys(t, o)
            && o.verifications == t.verifications
  {
    hide UserSessionsRevoked, UnrevokedCount, UserResetsSpent;
  }

  lemma SendVerificationKeeps(t: Tables, now: Time, userId: Id, ttl: int)
    ensures var o := SendVerification(t, now, userId, ttl).t;
            t.nextId <= o.nextId && SameAuthority(t, o) && SameUsers(t, o) && SameSessions(t, o)
            && SameInvitations(t, o) && SameKeys(t, o) && o.resets == t.resets
  {
    hide UserVerificationsSpent;
  }

  lemma VerifyEmailKeeps(t: Tables, now: Time, token: Digest)
    ensures var o := VerifyEmail(t, now, token).t;
            t.nextId <= o.nextId && SameAuthority(t, o) && SameSessions(t, o) && SameInvitations(t, o)
            && SameKeys(t, o) && o.resets == t.resets
  {}

  lemma ReadsKeep(t: Tables, now: Time, c: Command)
    requires c.CAuthenticate? || c.CAuthenticateKey? || c.CListSessions? || c.CPrune?
    ensures Kept(c, t, Step(t, now, c).t)
  {
    hide AuthenticateSession, AuthenticateApiKey, LiveSessionsOf, SessionsPruned, ResetsPruned, VerificationsPruned;
  }

  lemma OfferStepKeeps(t: Tables, now: Time, c: Command)
    requires c.CInvite? || c.CRevokeInvitation? || c.CAcceptInvitation? || WritesKeys(c)
    ensures Kept(c, t, Step(t, now, c).t)
  {
    hide SameAuthority, SameUsers, SameSessions, SameInvitations, SameKeys, Register, Login, Logout, RevokeSession,
         ChangePassword, SetUserActive, SetSuperuser, GrantRoleByKey, Invite, RevokeInvitation, AcceptInvitation,
         CreateRole, UpdateRole, DeleteRole, SetUserRoles, CreateApiKey, RevokeApiKey, RequestPasswordReset,
         ResetPassword, SendVerification, VerifyEmail, Prune, AuthenticateSession, AuthenticateApiKey, LiveSessionsOf;
    match c
    case CInvite(actor, access, email, roleId, ttl, ok) => InviteKeeps(t, now, actor, access, email, roleId, ttl, ok);
    case CRevokeInvitation(actor, id) => RevokeInvitationKeeps(t, now, actor, id);
    case CAcceptInvitation(token, hash, ok) => AcceptInvitationKeeps(t, now, token, hash, ok);
    case CCreateApiKey(actor, access, name, perms, expiresAt, ok) =>
      CreateApiKeyKeeps(t, now, actor, access, name, perms, expiresAt, ok);
    case CRevokeApiKey(actor, id) => RevokeApiKeyKeeps(t, now, actor, id);
  }

  lemma RoleStepKeeps(t: Tables, now: Time, c: Command)
    requires WritesAuthority(c) && !c.CAcceptInvitation?
    ensures Kept(c, t, Step(t, now, c).t)
  {
    hide SameAuthority, SameUsers, SameSessions, SameInvitations, SameKeys, Register, Login, Logout, RevokeSession,
         ChangePassword, SetUserActive, SetSuperuser, GrantRoleByKey, Invite, RevokeInvitation, AcceptInvitation,
         CreateRole, UpdateRole, DeleteRole, SetUserRoles, CreateApiKey, RevokeApiKey, RequestPasswordReset,
         ResetPassword, SendVerification, VerifyEmail, Prune, AuthenticateSession, AuthenticateApiKey, LiveSessionsOf;
    match c
    case CGrantRoleByKey(email, key, ok) => GrantRoleByKeyKeeps(t, email, key, ok);
    case CCreateRole(actor, access, key, name, perms, ok) => CreateRoleKeeps(t, actor, access, key, name, perms, ok);
    case CUpdateRole(actor, access, id, name, perms, ok) => UpdateRoleKeeps(t, actor, access, id, name, perms, ok);
    case CDeleteRole(actor, access, id) => DeleteRoleKeeps(t, actor, access, id);
    case CSetUserRoles(actor, access, target, ids) => SetUserRolesKeeps(t, actor, access, target, ids);
  }

  lemma StepKeeps(t: Tables, now: Time, c: Command)
    ensures Kept(c, t, Step(t, now, c).t)
  {
    hide SameAuthority, SameUsers, SameSessions, SameInvitations, SameKeys, Register, Login, Logout, RevokeSession,
         ChangePassword, SetUserActive, SetSuperuser, GrantRoleByKey, Invite, RevokeInvitation, AcceptInvitation,
         CreateRole, UpdateRole, DeleteRole, SetUserRoles, CreateApiKey, RevokeApiKey, RequestPasswordReset,
         ResetPassword, SendVerification, VerifyEmail, Prune, AuthenticateSession, AuthenticateApiKey, LiveSessionsOf;
    if c.CInvite? || c.CRevokeInvitation? || c.CAcceptInvitation? || WritesKeys(c) {
      OfferStepKeeps(t, now, c);
      return;
    }
    if WritesAuthority(c) {
      RoleStepKeeps(t, now, c);
      return;
    }
    match c
    case CRegister(email, hash, ok) => RegisterKeeps(t, email, hash, ok);
    case CLogin(email, verdict, upgrade, ttl) => LoginKeeps(t, now, email, verdict, upgrade, ttl);
    case CLogout(token, userId) => LogoutKeeps(t, now, token, userId);
    case CRevokeSession(actor, id) => RevokeSessionKeeps(t, now, actor, id);
    case CChangePassword(id, verdict, hash, ok) => ChangePasswordKeeps(t, now, id, verdict, hash, ok);
    case CSetUserActive(actor, superuser, target, active) =>
      SetUserActiveKeeps(t, now, actor, superuser, target, active);
    case CSetSuperuser(email, flag, ok) => SetSuperuserKeeps(t, email, flag, ok);
    case CRequestPasswordReset(email, ttl) => RequestPasswordResetKeeps(t, now, email, ttl);
    case CResetPassword(token, hash, ok) => ResetPasswordKeeps(t, now, token, hash, ok);
    case CSendVerification(userId, ttl) => SendVerificationKeeps(t, now, userId, ttl);
    case CVerifyEmail(token) => VerifyEmailKeeps(t, now, token);
    case _ => ReadsKeep(t, now, c);
  }

  lemma RolesFrame(t: Tables, now: Time, c: Command)
    requires !WritesAuthority(c)
    ensures Step(t, now, c).t.roles == t.roles
  {
    hide Step;
    StepKeeps(t, now, c);
  }

  lemma GrantsFrame(t: Tables, now: Time, c: Command)
    requires !WritesAuthority(c)
    ensures Step(t, now, c).t.rolePermissions == t.rolePermissions
  {
    hide Step;
    StepKeeps(t, now, c);
  }

  lemma AssignmentsFrame(t: Tables, now: Time, c: Command)
    requires !WritesAuthority(c)
    ensures Step(t, now, c).t.userRoles == t.userRoles
  {
    hide Step;
    StepKeeps(t, now, c);
  }

  lemma UsersFrame(t: Tables, now: Time, c: Command)
    requires !WritesUsers(c)
    ensures Step(t, now, c).t.users == t.users
  {
    hide Step;
    StepKeeps(t, now, c);
  }

  lemma SessionsFrame(t: Tables, now: Time, c: Command)
    requires !WritesSessions(c)
    ensures Step(t, now, c).t.sessions == t.sessions
  {
    hide Step;
    StepKeeps(t, now, c);
  }

  lemma ResetsFrame(t: Tables, now: Time, c: Command)
    requires !WritesResets(c)
    ensures Step(t, now, c).t.resets == t.resets
  {
    hide Step;
    StepKeeps(t, now, c);
  }

  lemma VerificationsFrame(t: Tables, now: Time, c: Command)
    requires !WritesVerifications(c)
    ensures Step(t, now, c).t.verifications == t.verifications
  {
    hide Step;
    StepKeeps(t, now, c);
  }

  lemma InvitationsFrame(t: Tables, now: Time, c: Command)
    requires !WritesInvitations(c)
    ensures Step(t, now, c).t.invitations == t.invitations
  {
    hide Step;
    StepKeeps(t, now, c);
  }

  lemma KeysFrame(t: Tables, now: Time, c: Command)
    requires !WritesKeys(c)
    ensures Step(t, now, c).t.apiKeys == t.apiKeys
  {
    hide Step;
    StepKeeps(t, now, c);
  }

  lemma ScopesFrame(t: Tables, now: Time, c: Command)
    requires !WritesKeys(c)
    ensures Step(t, now, c).t.keyPermissions == t.keyPermissions
  {
    hide Step;
    StepKeeps(t, now, c);
  }

  lemma IdsGrow(t: Tables, now: Time, c: Command)
    ensures t.nextId <= Step(t, now, c).t.nextId
  {
    hide Step;
    StepKeeps(t, now, c);
  }

  ghost predicate SameActivity(t: Tables, after: Tables, u: Id)
    requires u in t.users
  {
    u in after.users && after.users[u].isActive == t.users[u].isActive
  }

  lemma RegisterActivity(t: Tables, email: string, hash: string, ok: bool, u: Id)
    requires u in t.users && u < t.nextId
    ensures SameActivity(t, Register(t, email, hash, ok).t, u)
  {}

  lemma LoginActivity(t: Tables, now: Time, email: string, verdict: Verdict, upgrade: Option<string>, ttl: int, u: Id)
    requires u in t.users && u < t.nextId
    ensures SameActivity(t, Login(t, now, email, verdict, upgrade, ttl).t, u)
  {}

  lemma ChangeActivity(t: Tables, now: Time, id: Id, verdict: Verdict, hash: string, ok: bool, u: Id)
    requires u in t.users && u < t.nextId
    ensures SameActivity(t, ChangePassword(t, now, id, verdict, hash, ok).t, u)
  {}

  lemma SuperuserActivity(t: Tables, email: string, flag: bool, ok: bool, u: Id)
    requires u in t.users && u < t.nextId
    ensures SameActivity(t, SetSuperuser(t, email, flag, ok).t, u)
  {}

  lemma AcceptActivity(t: Tables, now: Time, token: Digest, hash: string, ok: bool, u: Id)
    requires u in t.users && u < t.nextId
    ensures SameActivity(t, AcceptInvitation(t, now, token, hash, ok).t, u)
  {}

  lemma ResetActivity(t: Tables, now: Time, token: Digest, hash: string, ok: bool, u: Id)
    requires u in t.users && u < t.nextId
    ensures SameActivity(t, ResetPassword(t, now, token, hash, ok).t, u)
  {}

  lemma VerifyActivity(t: Tables, now: Time, token: Digest, u: Id)
    requires u in t.users && u < t.nextId
    ensures SameActivity(t, VerifyEmail(t, now, token).t, u)
  {}

  /** Only SetUserActive switches an existing account on or off, and no command removes one. */
  lemma ActivityFrame(t: Tables, now: Time, c: Command, u: Id)
    requires u in t.users && u < t.nextId && !c.CSetUserActive?
    ensures u in Step(t, now, c).t.users && Step(t, now, c).t.users[u].isActive == t.users[u].isActive
  {
    hide Register, Login, ChangePassword, SetSuperuser, AcceptInvitation, ResetPassword, VerifyEmail;
    if !WritesUsers(c) {
      UsersFrame(t, now, c);
    } else {
      match c
      case CRegister(email, hash, ok) => RegisterActivity(t, email, hash, ok, u);
      case CLogin(email, verdict, upgrade, ttl) => LoginActivity(t, now, email, verdict, upgrade, ttl, u);
      case CChangePassword(userId, verdict, hash, ok) => ChangeActivity(t, now, userId, verdict, hash, ok, u);
      case CSetSuperuser(email, flag, ok) => SuperuserActivity(t, email, flag, ok, u);
      case CAcceptInvitation(token, hash, ok) => AcceptActivity(t, now, token, hash, ok, u);
      case CResetPassword(token, hash, ok) => ResetActivity(t, now, token, hash, ok, u);
      case CVerifyEmail(token) => VerifyActivity(t, now, token, u);
    }
  }
}
