/** The serial machine: every transaction is one atomic step, taken at a time that never goes back. */
module SerialMachine {
  import opened Prelude
  import opened Permissions
  import opened Tables
  import opened Transactions

  datatype Command =
    | CRegister(email: string, hash: string, ok: bool)
    | CLogin(email: string, verdict: Verdict, upgrade: Option<string>, ttl: int)
    | CLogout(token: Digest, userId: Id)
    | CRevokeSession(actor: Id, sessionId: Id)
    | CChangePassword(userId: Id, verdict: Verdict, hash: string, ok: bool)
    | CSetUserActive(actor: Id, actorIsSuperuser: bool, target: Id, active: bool)
    | CSetSuperuser(email: string, flag: bool, ok: bool)
    | CGrantRoleByKey(email: string, key: string, ok: bool)
    | CInvite(actor: Id, access: Access, email: string, roleId: Id, ttl: int, ok: bool)
    | CRevokeInvitation(actor: Id, invitationId: Id)
    | CAcceptInvitation(token: Digest, hash: string, ok: bool)
    | CCreateRole(actor: Id, access: Access, key: string, name: string, perms: seq<Permission>, ok: bool)
    | CUpdateRole(actor: Id, access: Access, roleId: Id, name: string, perms: seq<Permission>, ok: bool)
    | CDeleteRole(actor: Id, access: Access, roleId: Id)
    | CSetUserRoles(actor: Id, access: Access, target: Id, ids: seq<Id>)
    | CCreateApiKey(actor: Id, access: Access, name: string, perms: seq<Permission>, expiresAt: Option<Time>, ok: bool)
    | CRevokeApiKey(actor: Id, keyId: Id)
    | CRequestPasswordReset(email: string, ttl: int)
    | CResetPassword(token: Digest, hash: string, ok: bool)
    | CSendVerification(userId: Id, ttl: int)
    | CVerifyEmail(token: Digest)
    | CAuthenticate(token: Digest)
    | CAuthenticateKey(token: Digest)
    | CListSessions(userId: Id)
    | CPrune(retain: int)
  {
    /** The two commands that need a shell on the database host rather than an HTTP request. */
    predicate FromShell() {
      CSetSuperuser? || CGrantRoleByKey?
    }
  }

  /** The three retention sweeps of one tick. */
  ghost function Prune(t: Tables, now: Time, retain: int): Tables {
    t.(sessions := SessionsPruned(t.sessions, now, retain),
       resets := ResetsPruned(t.resets, now, retain),
       verifications := VerificationsPruned(t.verifications, now, retain))
  }

  ghost function Step(t: Tables, now: Time, c: Command): Outcome {
    match c
    case CRegister(email, hash, ok) => Register(t, email, hash, ok)
    case CLogin(email, verdict, upgrade, ttl) => Login(t, now, email, verdict, upgrade, ttl)
    case CLogout(token, userId) => Logout(t, now, token, userId)
    case CRevokeSession(actor, id) => RevokeSession(t, now, actor, id)
    case CChangePassword(userId, verdict, hash, ok) => ChangePassword(t, now, userId, verdict, hash, ok)
    case CSetUserActive(actor, superuser, target, active) => SetUserActive(t, now, actor, superuser, target, active)
    case CSetSuperuser(email, flag, ok) => SetSuperuser(t, email, flag, ok)
    case CGrantRoleByKey(email, key, ok) => GrantRoleByKey(t, email, key, ok)
    case CInvite(actor, access, email, roleId, ttl, ok) => Invite(t, now, actor, access, email, roleId, ttl, ok)
    case CRevokeInvitation(actor, id) => RevokeInvitation(t, now, actor, id)
    case CAcceptInvitation(token, hash, ok) => AcceptInvitation(t, now, token, hash, ok)
    case CCreateRole(actor, access, key, name, perms, ok) => CreateRole(t, actor, access, key, name, perms, ok)
    case CUpdateRole(actor, access, id, name, perms, ok) => UpdateRole(t, actor, access, id, name, perms, ok)
    case CDeleteRole(actor, access, id) => DeleteRole(t, actor, access, id)
    case CSetUserRoles(actor, access, target, ids) => SetUserRoles(t, actor, access, target, ids)
    case CCreateApiKey(actor, access, name, perms, expiresAt, ok) =>
      CreateApiKey(t, now, actor, access, name, perms, expiresAt, ok)
    case CRevokeApiKey(actor, id) => RevokeApiKey(t, now, actor, id)
    case CRequestPasswordReset(email, ttl) => RequestPasswordReset(t, now, email, ttl)
    case CResetPassword(token, hash, ok) => ResetPassword(t, now, token, hash, ok)
    case CSendVerification(userId, ttl) => SendVerification(t, now, userId, ttl)
    case CVerifyEmail(token) => VerifyEmail(t, now, token)
    case CAuthenticate(token) => Outcome(t, AuthenticateSession(t, now, token), None)
    case CAuthenticateKey(token) => Outcome(t, AuthenticateApiKey(t, now, token), None)
    case CListSessions(userId) => Outcome(t, Listing(LiveSessionsOf(t.sessions, userId, now)), None)
    case CPrune(retain) => Outcome(Prune(t, now, retain), Done, None)
  }

  datatype Event = Event(now: Time, command: Command)

  /** Times never go back. */
  ghost predicate Ordered(start: Time, es: seq<Event>)
    decreases |es|
  {
    es == [] || (start <= es[0].now && Ordered(es[0].now, es[1..]))
  }

  ghost function Run(t: Tables, es: seq<Event>): Tables
    decreases |es|
  {
    if es == [] then t else Run(Step(t, es[0].now, es[0].command).t, es[1..])
  }
}
