/** What each service transaction does to the tables and what it answers: the specification the
    imperative `Service` is proved against, and the steps of the state machines.

    Three things enter as arguments because the model does not compute them: `ok`, the outcome of
    purely syntactic validation; `verdict`, what the password hasher
    says about the stored hash; and `upgrade` and `hash`, hashes it produced. */
module Transactions {
  import opened Prelude
  import opened Permissions
  import opened Tables

  datatype Reply =
    | Done
    | Failed(error: Error)
    | NewRow(id: Id)
    | Issued(token: Digest)
    | SignedIn(userId: Id, sessionId: Id)
    | KeyAccepted(keyId: Id, userId: Id, scope: set<Permission>)
    | Listing(rows: map<Id, Session>)

  datatype Verdict = Match | Mismatch | Unreadable

  /** The tables afterwards, the answer, and the audit entry written in the same transaction, if any. */
  datatype Outcome = Outcome(t: Tables, reply: Reply, entry: Option<Entry>)

  function Refused(t: Tables, e: Error): Outcome {
    Outcome(t, Failed(e), None)
  }

  // ---------------------------------------------------------------- accounts and sessions

  ghost function Register(t: Tables, email: string, hash: string, ok: bool): Outcome {
    if !ok then Refused(t, Validation)
    else if UserByEmail(t.users, email).Some? then Refused(t, EmailTaken)
    else
      Outcome(t.(users := t.users[t.nextId := User(email, Some(hash), false, true, None)], nextId := t.nextId + 1),
              NewRow(t.nextId),
              Some(UserRegistered(t.nextId, email)))
  }

  /** Why a login on an existing account is refused; the caller is told the same thing every time. */
  function LoginRefusal(user: User, verdict: Verdict): Option<Reason> {
    if user.passwordHash.None? then Some(NoPasswordSet)
    else if !user.isActive then Some(Deactivated)
    else match verdict
         case Match => None
         case Mismatch => Some(WrongPassword)
         case Unreadable => Some(CorruptHash)
  }

  ghost function Login(t: Tables, now: Time, email: string, verdict: Verdict, upgrade: Option<string>,
                       ttl: int): Outcome {
    var found := UserByEmail(t.users, email);
    if found.None? then Outcome(t, Failed(InvalidCredentials), Some(LoginFailed(None, email, UnknownEmail)))
    else
      var user := t.users[found.value];
      var refusal := LoginRefusal(user, verdict);
      if refusal.Some? then
        Outcome(t, Failed(InvalidCredentials), Some(LoginFailed(found, email, refusal.value)))
      else
        var users := if upgrade.Some? then t.users[found.value := user.(passwordHash := upgrade)] else t.users;
        Outcome(t.(users := users,
                   sessions := t.sessions[t.nextId := Session(found.value, t.nextId + 1, now + ttl, None)],
                   nextId := t.nextId + 2),
                Issued(t.nextId + 1),
                Some(UserLoggedIn(found.value)))
  }

  ghost function Logout(t: Tables, now: Time, token: Digest, userId: Id): Outcome {
    Outcome(t.(sessions := TokenRevoked(t.sessions, token, now)), Done, Some(UserLoggedOut(userId)))
  }

  ghost function RevokeSession(t: Tables, now: Time, actor: Id, id: Id): Outcome {
    if id in t.sessions && t.sessions[id].userId == actor && t.sessions[id].revokedAt.None? then
      Outcome(t.(sessions := t.sessions[id := t.sessions[id].(revokedAt := Some(now))]),
              Done,
              Some(SessionRevoked(actor, id)))
    else Refused(t, NotFound)
  }

  ghost function ChangePassword(t: Tables, now: Time, userId: Id, verdict: Verdict, hash: string,
                                ok: bool): Outcome {
    if !ok then Refused(t, Validation)
    else if userId !in t.users then Refused(t, NotFound)
    else if t.users[userId].passwordHash.None? || !verdict.Match? then
      Refused(t, InvalidCredentials)
    else
      Outcome(t.(users := t.users[userId := t.users[userId].(passwordHash := Some(hash))],
                 sessions := UserSessionsRevoked(t.sessions, userId, now)),
              Done,
              Some(PasswordChanged(userId, UnrevokedCount(t.sessions, userId))))
  }

  ghost function SetUserActive(t: Tables, now: Time, actor: Id, actorIsSuperuser: bool, target: Id,
                               active: bool): Outcome {
    if actor == target && !active then Refused(t, Validation)
    else if !active && !actorIsSuperuser && HoldsRole(t, target, ADMIN_KEY) && |ActiveHolders(t, ADMIN_KEY)| <= 1 then
      Refused(t, LastAdmin)
    else if target !in t.users then Refused(t, NotFound)
    else
      var users := t.users[target := t.users[target].(isActive := active)];
      if active then
        Outcome(t.(users := users), Done, Some(UserReactivated(actor, target)))
      else
        Outcome(t.(users := users, sessions := UserSessionsRevoked(t.sessions, target, now)),
                Done,
                Some(UserDeactivated(actor, target, UnrevokedCount(t.sessions, target))))
  }

  ghost function SetSuperuser(t: Tables, email: string, flag: bool, ok: bool): Outcome {
    var found := UserByEmail(t.users, email);
    if !ok then Refused(t, Validation)
    else if found.None? then Refused(t, NotFound)
    else
      Outcome(t.(users := t.users[found.value := t.users[found.value].(isSuperuser := flag)]),
              Done,
              Some(if flag then SuperuserGranted(found.value) else SuperuserRevoked(found.value)))
  }

  ghost function GrantRoleByKey(t: Tables, email: string, key: string, ok: bool): Outcome {
    var found := UserByEmail(t.users, email);
    var role := RoleByKey(t.roles, key);
    if !ok then Refused(t, Validation)
    else if found.None? || role.None? then Refused(t, NotFound)
    else
      Outcome(t.(userRoles := t.userRoles + {(found.value, role.value)}), Done, Some(RoleGranted(found.value, key)))
  }

  // ---------------------------------------------------------------- invitations

  /** The write half of Invite: withdraw what is open for the address, then insert. */
  ghost function IssueInvitation(t: Tables, now: Time, actor: Id, email: string, roleId: Id, roleKey: string,
                                 ttl: int): Outcome {
    var revoked := OpenInvitationsRevoked(t.invitations, email, now);
    if exists i :: i in revoked && revoked[i].email == email && revoked[i].Open() then Refused(t, EmailTaken)
    else if roleId !in t.roles || actor !in t.users then Refused(t, Internal)
    else
      Outcome(t.(invitations := revoked[t.nextId :=
                   Invitation(email, roleId, actor, t.nextId + 1, now + ttl, None, None)],
                 nextId := t.nextId + 2),
              NewRow(t.nextId),
              Some(InvitationCreated(actor, t.nextId, email, roleKey)))
  }

  ghost function Invite(t: Tables, now: Time, actor: Id, access: Access, email: string, roleId: Id, ttl: int,
                        ok: bool): Outcome {
    if !ok then Refused(t, Validation)
    else if roleId !in t.roles then Refused(t, NotFound)
    else if !(PermissionsOf(t.rolePermissions, roleId) <= access.permissions) then Refused(t, Escalation)
    else if UserByEmail(t.users, email).Some? then Refused(t, EmailTaken)
    else IssueInvitation(t, now, actor, email, roleId, t.roles[roleId].key, ttl)
  }

  ghost function RevokeInvitation(t: Tables, now: Time, actor: Id, id: Id): Outcome {
    if id in t.invitations && t.invitations[id].Open() then
      Outcome(t.(invitations := t.invitations[id := t.invitations[id].(revokedAt := Some(now))]),
              Done,
              Some(InvitationRevoked(actor, id)))
    else Refused(t, NotFound)
  }

  /** The write half of AcceptInvitation, once the row has been claimed. */
  ghost function RedeemInvitation(t: Tables, now: Time, id: Id, hash: string): Outcome
    requires id in t.invitations
  {
    var inv := t.invitations[id];
    if UserByEmail(t.users, inv.email).Some? then Refused(t, EmailTaken)
    else if inv.roleId !in t.roles then Refused(t, Internal)
    else
      Outcome(t.(users := t.users[t.nextId := User(inv.email, Some(hash), false, true, Some(now))],
                 userRoles := t.userRoles + {(t.nextId, inv.roleId)},
                 invitations := t.invitations[id := inv.(acceptedAt := Some(now))],
                 nextId := t.nextId + 1),
              NewRow(t.nextId),
              Some(InvitationAccepted(t.nextId, id, inv.email, t.roles[inv.roleId].key)))
  }

  /** The invitation joined with its role, found by token. */
  ghost function OfferedInvitation(t: Tables, token: Digest): (r: Option<Id>)
    ensures r.Some? ==> r.value in t.invitations && t.invitations[r.value].token == token
                        && t.invitations[r.value].roleId in t.roles
  {
    var found := InvitationByToken(t.invitations, token);
    if found.Some? && t.invitations[found.value].roleId in t.roles then found else None
  }

  ghost function AcceptInvitation(t: Tables, now: Time, token: Digest, hash: string, ok: bool): Outcome {
    var found := OfferedInvitation(t, token);
    if !ok then Refused(t, Validation)
    else if found.None? || !t.invitations[found.value].Pending(now) then Refused(t, InvitationInvalid)
    else RedeemInvitation(t, now, found.value, hash)
  }

  // ---------------------------------------------------------------- roles

  /** The write half of CreateRole. */
  ghost function InsertRole(t: Tables, actor: Id, key: string, name: string, perms: set<Permission>): Outcome {
    if RoleByKey(t.roles, key).Some? then Refused(t, RoleKeyTaken)
    else
      Outcome(t.(roles := t.roles[t.nextId := Role(key, name, false)],
                 rolePermissions := Without(t.rolePermissions, t.nextId) + Paired(t.nextId, perms),
                 nextId := t.nextId + 1),
              NewRow(t.nextId),
              Some(RoleCreated(actor, t.nextId, key, name, perms)))
  }

  ghost function CreateRole(t: Tables, actor: Id, access: Access, key: string, name: string, perms: seq<Permission>,
                            ok: bool): Outcome {
    if !ok || perms == [] || !AllCatalogued(perms) then Refused(t, Validation)
    else if !(PermissionSet(perms) <= access.permissions) then Refused(t, Escalation)
    else InsertRole(t, actor, key, name, PermissionSet(perms))
  }

  /** The write half of UpdateRole; `before` is what the transaction read. */
  ghost function RewriteRole(t: Tables, actor: Id, id: Id, name: string, before: set<Permission>,
                             perms: set<Permission>): Outcome {
    if id !in t.roles || t.roles[id].isSystem then Refused(t, NotFound)
    else
      Outcome(t.(roles := t.roles[id := t.roles[id].(name := name)],
                 rolePermissions := Without(t.rolePermissions, id) + Paired(id, perms)),
              Done,
              Some(RoleUpdated(actor, id, t.roles[id].key, before, perms)))
  }

  ghost function UpdateRole(t: Tables, actor: Id, access: Access, id: Id, name: string, perms: seq<Permission>,
                            ok: bool): Outcome {
    if !ok || perms == [] || !AllCatalogued(perms) then Refused(t, Validation)
    else if !(PermissionSet(perms) <= access.permissions) then Refused(t, Escalation)
    else if id !in t.roles then Refused(t, NotFound)
    else if t.roles[id].isSystem then Refused(t, SystemRole)
    else if !(PermissionsOf(t.rolePermissions, id) <= access.permissions) then Refused(t, Escalation)
    else RewriteRole(t, actor, id, name, PermissionsOf(t.rolePermissions, id), PermissionSet(perms))
  }

  /** The write half of DeleteRole: RESTRICT on user_roles, CASCADE on role_permissions and invitations. */
  ghost function RemoveRole(t: Tables, actor: Id, id: Id, key: string): Outcome {
    if id !in t.roles || t.roles[id].isSystem then Refused(t, NotFound)
    else if exists u :: (u, id) in t.userRoles then Refused(t, RoleInUse)
    else
      Outcome(t.(roles := t.roles - {id},
                 rolePermissions := Without(t.rolePermissions, id),
                 invitations := InvitationsElsewhere(t.invitations, id)),
              Done,
              Some(RoleDeleted(actor, id, key)))
  }

  ghost function DeleteRole(t: Tables, actor: Id, access: Access, id: Id): Outcome {
    if id !in t.roles then Refused(t, NotFound)
    else if t.roles[id].isSystem then Refused(t, SystemRole)
    else if !(PermissionsOf(t.rolePermissions, id) <= access.permissions) then Refused(t, Escalation)
    else RemoveRole(t, actor, id, t.roles[id].key)
  }

  /** The write half of SetUserRoles; `before` is what the transaction read. */
  ghost function AssignRoles(t: Tables, actor: Id, target: Id, ids: set<Id>, before: set<string>,
                             after: set<string>): Outcome {
    if ids != {} && (target !in t.users || !(ids <= t.roles.Keys)) then Refused(t, Internal)
    else
      Outcome(t.(userRoles := Without(t.userRoles, target) + Paired(target, ids)),
              Done,
              Some(RolesUpdated(actor, target, before, after)))
  }

  ghost function SetUserRoles(t: Tables, actor: Id, access: Access, target: Id, ids: seq<Id>): Outcome {
    var wanted := Distinct(ids);
    var roles := RolesWithIds(t, wanted);
    var before := RolesHeld(t, target);
    if !(wanted <= t.roles.Keys) then Refused(t, NotFound)
    else if !(UnionPermissions(roles) <= access.permissions) then Refused(t, Escalation)
    else if HasRole(before, ADMIN_KEY) && !access.viaSuperuser && !HasRole(access.roles, ADMIN_KEY) then
      Refused(t, Forbidden)
    else if HasRole(before, ADMIN_KEY) && !HasRole(roles, ADMIN_KEY) && |Holders(t, ADMIN_KEY)| <= 1 then
      Refused(t, LastAdmin)
    else AssignRoles(t, actor, target, wanted, RoleKeys(before), RoleKeys(roles))
  }

  // ---------------------------------------------------------------- API keys

  ghost function CreateApiKey(t: Tables, now: Time, actor: Id, access: Access, name: string, perms: seq<Permission>,
                              expiresAt: Option<Time>, ok: bool): Outcome {
    if !ok || perms == [] || (expiresAt.Some? && expiresAt.value <= now) || !AllCatalogued(perms) then
      Refused(t, Validation)
    else if !(PermissionSet(perms) <= access.permissions) then Refused(t, Escalation)
    else if actor !in t.users then Refused(t, Internal)
    else
      Outcome(t.(apiKeys := t.apiKeys[t.nextId := ApiKey(actor, name, t.nextId + 1, expiresAt, None)],
                 keyPermissions := t.keyPermissions + Paired(t.nextId, PermissionSet(perms)),
                 nextId := t.nextId + 2),
              NewRow(t.nextId),
              Some(ApiKeyCreated(actor, t.nextId, name, PermissionSet(perms))))
  }

  ghost function RevokeApiKey(t: Tables, now: Time, actor: Id, id: Id): Outcome {
    if id in t.apiKeys && t.apiKeys[id].revokedAt.None? then
      Outcome(t.(apiKeys := t.apiKeys[id := t.apiKeys[id].(revokedAt := Some(now))]),
              Done,
              Some(ApiKeyRevoked(actor, id, t.apiKeys[id].name)))
    else Refused(t, NotFound)
  }

  // ---------------------------------------------------------------- password reset and email verification

  function ResetRefusal(user: User): Option<Reason> {
    if !user.isActive then Some(Deactivated)
    else if user.passwordHash.None? then Some(NoPasswordSet)
    else None
  }

  /** Answers Done whatever happened: the caller learns nothing. */
  ghost function RequestPasswordReset(t: Tables, now: Time, email: string, ttl: int): Outcome {
    var found := UserByEmail(t.users, email);
    if found.None? then Outcome(t, Done, Some(PasswordResetRejected(None, email, UnknownEmail)))
    else if ResetRefusal(t.users[found.value]).Some? then
      Outcome(t, Done, Some(PasswordResetRejected(found, email, ResetRefusal(t.users[found.value]).value)))
    else
      Outcome(t.(resets := UserResetsSpent(t.resets, found.value, now)
                            [t.nextId := Reset(found.value, t.nextId + 1, now + ttl, None)],
                 nextId := t.nextId + 2),
              Done,
              Some(PasswordResetRequested(found.value, email)))
  }

  /** The write half of ResetPassword, once reset row `id` has been claimed. */
  ghost function FinishReset(t: Tables, now: Time, id: Id, hash: string): Outcome
    requires id in t.resets
  {
    var userId := t.resets[id].userId;
    if userId !in t.users then Refused(t, NotFound)
    else
      Outcome(t.(users := t.users[userId := t.users[userId].(passwordHash := Some(hash))],
                 sessions := UserSessionsRevoked(t.sessions, userId, now),
                 resets := UserResetsSpent(t.resets, userId, now)),
              Done,
              Some(PasswordReset(userId, UnrevokedCount(t.sessions, userId))))
  }

  ghost function ResetPassword(t: Tables, now: Time, token: Digest, hash: string, ok: bool): Outcome {
    var found := SpendableReset(t.resets, token, now);
    if !ok then Refused(t, Validation)
    else if found.None? then Refused(t, InvalidToken)
    else FinishReset(t, now, found.value, hash)
  }

  /** Nothing to do for a verified address; a failed insert is only logged. */
  ghost function SendVerification(t: Tables, now: Time, userId: Id, ttl: int): Outcome {
    if userId !in t.users || t.users[userId].verifiedAt.Some? then Outcome(t, Done, None)
    else
      Outcome(t.(verifications := UserVerificationsSpent(t.verifications, userId, now)
                            [t.nextId := Verification(userId, t.users[userId].email, t.nextId + 1, now + ttl, None)],
                 nextId := t.nextId + 2),
              Done,
              None)
  }

  /** The same for the account as the caller read it: the link goes to the address it had then. */
  ghost function SendTo(t: Tables, now: Time, userId: Id, handed: User, ttl: int): Outcome {
    if handed.verifiedAt.Some? || userId !in t.users then Outcome(t, Done, None)
    else
      Outcome(t.(verifications := UserVerificationsSpent(t.verifications, userId, now)
                            [t.nextId := Verification(userId, handed.email, t.nextId + 1, now + ttl, None)],
                 nextId := t.nextId + 2),
              Done,
              None)
  }

  /** The write half of VerifyEmail, once verification row `id` has been claimed. */
  ghost function FinishVerification(t: Tables, now: Time, id: Id): Outcome
    requires id in t.verifications
  {
    var v := t.verifications[id];
    if v.userId !in t.users || t.users[v.userId].email != v.email then Refused(t, InvalidToken)
    else
      Outcome(t.(users := t.users[v.userId := t.users[v.userId].(verifiedAt := Some(now))],
                 verifications := t.verifications[id := v.(usedAt := Some(now))]),
              Done,
              Some(EmailVerified(v.userId, v.email)))
  }

  ghost function VerifyEmail(t: Tables, now: Time, token: Digest): Outcome {
    var found := SpendableVerification(t.verifications, token, now);
    if found.None? then Refused(t, InvalidToken) else FinishVerification(t, now, found.value)
  }

  // ---------------------------------------------------------------- reads and sweeps

  ghost function AuthenticateSession(t: Tables, now: Time, token: Digest): Reply {
    var found := LiveSession(t.sessions, token, now);
    if found.None? then Failed(Unauthenticated)
    else
      var userId := t.sessions[found.value].userId;
      if userId in t.users && t.users[userId].isActive then SignedIn(userId, found.value) else Failed(Unauthenticated)
  }

  ghost function AuthenticateApiKey(t: Tables, now: Time, token: Digest): Reply {
    var found := LiveKey(t.apiKeys, t.users, token, now);
    if found.None? then Failed(Unauthenticated)
    else KeyAccepted(found.value, t.apiKeys[found.value].userId, PermissionsOf(t.keyPermissions, found.value))
  }
}
