/** The identity service: each method reads, validates, runs its statements in a transaction that commits or is rolled
    back whole, and is proved to do exactly what its specification in `Transactions` says. */
module Identity {
  import opened Prelude
  import opened Permissions
  import opened Tables
  import opened Transactions
  import opened SerialMachine
  import opened Constraints
  import opened AuditReplay
  import opened Store
  import Queries = Tables
  import PHC = PasswordHash
  import opened Credentials
  import opened Granting
  import opened Base64

  class Service {
    const repo: Repository

    constructor (repo: Repository)
      ensures this.repo == repo
    {
      this.repo := repo;
    }

    /** The escalation guard: a caller may only grant permissions they hold. */
    static method CheckEscalation(access: Access, granting: set<Permission>) returns (allowed: bool)
      ensures allowed <==> granting <= access.permissions
    {
      allowed := Superset(access.permissions, granting);
    }

    // -------------------------------------------------------------- accounts and sessions

    /** Creates the account, then sends the verification link. */
    method Register(now: Time, email: string, password: string, hasher: PHC.Hasher, kdf: PHC.Kdf, salt: seq<Byte>,
                    ttl: int, ok: bool)
      returns (reply: Reply)
      requires repo.Valid()
      modifies repo
      ensures var o := Transactions.Register(old(repo.Snap()), email, PHC.Hash(hasher, kdf, password, salt), ok);
              && reply == o.reply && repo.log == Appended(old(repo.log), o.entry)
              && repo.Snap() == if reply.NewRow? then Transactions.SendVerification(o.t, now, reply.id, ttl).t else o.t
      ensures repo.Valid()
    {
      hide Consistent, PHC.Hash, UserVerificationsSpent;
      reply := CreateAccount(email, PHC.Hash(hasher, kdf, password, salt), ok);
      if reply.NewRow? {
        var _ := SendVerification(now, reply.id, repo.users[reply.id], ttl);
      }
    }

    /** Asks the hasher about the stored hash of the account, upgrades it if that is due and can be stored, and signs
        in. It succeeds exactly for an active account whose stored hash the password verifies against. */
    method Login(now: Time, email: string, password: string, hasher: PHC.Hasher, kdf: PHC.Kdf, salt: seq<Byte>,
                 stored: bool, ttl: int)
      returns (reply: Reply)
      requires repo.Valid()
      modifies repo
      ensures var t := old(repo.Snap());
              repo.Shows(Transactions.Login(t, now, email, VerdictOn(StoredHash(t.users, email), kdf, password),
                                            UpgradeOf(StoredHash(t.users, email), hasher, kdf, password, salt, stored),
                                            ttl),
                         reply, old(repo.log))
      ensures reply.Issued? <==>
              exists u :: u in old(repo.users) && old(repo.users)[u].email == email && old(repo.users)[u].isActive
                          && old(repo.users)[u].passwordHash.Some?
                          && PHC.Verify(kdf, password, old(repo.users)[u].passwordHash.value).Verified?
      ensures repo.Valid()
    {
      hide Consistent, PHC.Verify, PHC.NeedsRehash, PHC.Hash;
      var found := repo.GetUserByEmail(email);
      var hash := if found.None? then None else repo.users[found.value].passwordHash;
      SignsInExactly(repo.Snap(), now, email, kdf, password, UpgradeOf(hash, hasher, kdf, password, salt, stored), ttl);
      reply := SignIn(now, email, VerdictOn(hash, kdf, password), UpgradeOf(hash, hasher, kdf, password, salt, stored),
                      ttl);
    }

    /** Checks the current password against the stored hash and replaces it. It succeeds exactly when that verifies, and
        anything else changes nothing. */
    method ChangePassword(now: Time, userId: Id, current: string, next: string, hasher: PHC.Hasher, kdf: PHC.Kdf,
                          salt: seq<Byte>, ok: bool)
      returns (reply: Reply)
      requires repo.Valid()
      modifies repo
      ensures var t := old(repo.Snap());
              var hash := if userId in t.users then t.users[userId].passwordHash else None;
              repo.Shows(Transactions.ChangePassword(t, now, userId, VerdictOn(hash, kdf, current),
                                                     PHC.Hash(hasher, kdf, next, salt), ok),
                         reply, old(repo.log))
      ensures reply == Done <==>
              && ok && userId in old(repo.users) && old(repo.users)[userId].passwordHash.Some?
              && PHC.Verify(kdf, current, old(repo.users)[userId].passwordHash.value).Verified?
      ensures ok && userId in old(repo.users) && reply != Done ==> reply == Failed(InvalidCredentials)
      ensures reply != Done ==> repo.Snap() == old(repo.Snap()) && repo.log == old(repo.log)
      ensures reply == Done ==>
                repo.users == old(repo.users)[userId :=
                  old(repo.users)[userId].(passwordHash := Some(PHC.Hash(hasher, kdf, next, salt)))]
      ensures reply == Done && PHC.GivesKeys(kdf) ==>
                userId in repo.users && VerdictOn(repo.users[userId].passwordHash, kdf, next) == Match
      ensures repo.Valid()
    {
      hide Consistent, PHC.Verify, PHC.Hash, UserSessionsRevoked, UnrevokedCount;
      var hash := if userId in repo.users then repo.users[userId].passwordHash else None;
      reply := ReplacePassword(now, userId, VerdictOn(hash, kdf, current), PHC.Hash(hasher, kdf, next, salt), ok);
      if PHC.GivesKeys(kdf) {
        PHC.AnyHasherVerifiesAnother(hasher, kdf, next, salt, next);
      }
    }

    /** The transaction of a registration. */
    method CreateAccount(email: string, hash: string, ok: bool) returns (reply: Reply)
      requires repo.Valid()
      modifies repo
      ensures repo.Shows(Transactions.Register(old(repo.Snap()), email, hash, ok), reply, old(repo.log))
      ensures repo.Valid()
    {
      hide Consistent;
      RegisterConsistent(repo.Snap(), email, hash, ok);
      if !ok {
        return Failed(Validation);
      }
      var id := repo.CreateUser(email, hash);
      if id.None? {
        return Failed(EmailTaken);
      }
      repo.Record(UserRegistered(id.value, email));
      reply := NewRow(id.value);
    }

    /** The audit reason of a refused login, in the order the checks are made. */
    static method WhyRefused(user: User, verdict: Verdict) returns (refusal: Option<Reason>)
      ensures refusal == LoginRefusal(user, verdict)
    {
      if user.passwordHash.None? || !user.isActive {
        return Some(if user.passwordHash.None? then NoPasswordSet else Deactivated);
      }
      if !verdict.Match? {
        return Some(if verdict.Mismatch? then WrongPassword else CorruptHash);
      }
      return None;
    }

    /** A login once the hasher has spoken: `verdict` on the stored hash, and `upgrade` if one was due and stored. */
    method SignIn(now: Time, email: string, verdict: Verdict, upgrade: Option<string>, ttl: int) returns (reply: Reply)
      requires repo.Valid()
      modifies repo
      ensures repo.Shows(Transactions.Login(old(repo.Snap()), now, email, verdict, upgrade, ttl), reply, old(repo.log))
      ensures repo.Valid()
    {
      hide Consistent, LoginRefusal;
      LoginConsistent(repo.Snap(), now, email, verdict, upgrade, ttl);
      var found := repo.GetUserByEmail(email);
      if found.None? {
        repo.Record(LoginFailed(None, email, UnknownEmail));
        return Failed(InvalidCredentials);
      }
      var user := repo.users[found.value];
      var refusal := WhyRefused(user, verdict);
      if refusal.Some? {
        repo.Record(LoginFailed(found, email, refusal.value));
        return Failed(InvalidCredentials);
      }
      var token := OpenSession(now, found.value, upgrade, ttl);
      reply := Issued(token);
    }

    /** Stores the upgrade, if any, and opens a session. */
    method OpenSession(now: Time, userId: Id, upgrade: Option<string>, ttl: int) returns (token: Digest)
      requires userId in repo.users
      modifies repo
      ensures token == old(repo.nextId) + 1 && repo.log == old(repo.log) + [UserLoggedIn(userId)]
      ensures repo.Snap()
              == var t := old(repo.Snap());
                 t.(users := if upgrade.Some? then t.users[userId := t.users[userId].(passwordHash := upgrade)]
                             else t.users,
                    sessions := t.sessions[t.nextId := Session(userId, token, now + ttl, None)],
                    nextId := t.nextId + 2)
    {
      if upgrade.Some? {
        var _ := repo.UpdateUserPassword(userId, upgrade.value);
      }
      token := repo.CreateSession(userId, now + ttl);
      repo.Record(UserLoggedIn(userId));
    }

    method Logout(now: Time, token: Digest, userId: Id) returns (reply: Reply)
      requires repo.Valid()
      modifies repo
      ensures repo.Shows(Transactions.Logout(old(repo.Snap()), now, token, userId), reply, old(repo.log))
      ensures repo.Valid()
    {
      hide Consistent;
      SessionsRevokedConsistent(repo.Snap(), now, userId, token, 0);
      repo.RevokeSession(now, token);
      repo.Record(UserLoggedOut(userId));
      reply := Done;
    }

    method RevokeSession(now: Time, actor: Id, id: Id) returns (reply: Reply)
      requires repo.Valid()
      modifies repo
      ensures repo.Shows(Transactions.RevokeSession(old(repo.Snap()), now, actor, id), reply, old(repo.log))
      ensures repo.Valid()
    {
      hide Consistent;
      SessionsRevokedConsistent(repo.Snap(), now, actor, 0, id);
      var found := repo.RevokeSessionById(now, actor, id);
      if !found {
        return Failed(NotFound);
      }
      repo.Record(SessionRevoked(actor, id));
      reply := Done;
    }

    /** A change of password once the hasher has spoken. */
    method ReplacePassword(now: Time, userId: Id, verdict: Verdict, hash: string, ok: bool) returns (reply: Reply)
      requires repo.Valid()
      modifies repo
      ensures repo.Shows(Transactions.ChangePassword(old(repo.Snap()), now, userId, verdict, hash, ok), reply,
                         old(repo.log))
      ensures repo.Valid()
    {
      hide Consistent;
      ChangePasswordConsistent(repo.Snap(), now, userId, verdict, hash, ok);
      if !ok {
        return Failed(Validation);
      }
      if userId !in repo.users {
        return Failed(NotFound);
      }
      if repo.users[userId].passwordHash.None? || !verdict.Match? {
        return Failed(InvalidCredentials);
      }
      var _ := repo.UpdateUserPassword(userId, hash);
      var revoked := repo.RevokeUserSessions(now, userId);
      repo.Record(PasswordChanged(userId, revoked));
      reply := Done;
    }

    /** Superusers are resolved without looking at their roles. */
    method Authorize(userId: Id, isSuperuser: bool) returns (access: Access)
      ensures access == Queries.Authorize(repo.Snap(), userId, isSuperuser)
    {
      if isSuperuser {
        return SuperuserAccess();
      }
      var held := repo.LoadUserRoles(userId);
      var permissions := CollectPermissions(held);
      access := Access(held, permissions, false, false);
    }

    method IsLastActiveAdmin(target: Id) returns (last: bool)
      ensures last <==> HoldsRole(repo.Snap(), target, ADMIN_KEY) && |ActiveHolders(repo.Snap(), ADMIN_KEY)| <= 1
    {
      hide HoldsRole, ActiveHolders;
      var held := repo.LoadUserRoles(target);
      var isAdmin := FindRole(held, ADMIN_KEY);
      HeldRoles(repo.Snap(), target, ADMIN_KEY);
      if !isAdmin {
        return false;
      }
      var n := repo.CountActiveUsersWithRole(ADMIN_KEY);
      last := n <= 1;
    }

    method SetUserActive(now: Time, actor: Id, actorIsSuperuser: bool, target: Id, active: bool) returns (reply: Reply)
      requires repo.Valid()
      modifies repo
      ensures repo.Shows(Transactions.SetUserActive(old(repo.Snap()), now, actor, actorIsSuperuser, target, active),
                         reply, old(repo.log))
      ensures repo.Valid()
    {
      hide Consistent, HoldsRole, ActiveHolders, UnrevokedCount, UserSessionsRevoked;
      SetUserActiveConsistent(repo.Snap(), now, actor, actorIsSuperuser, target, active);
      if actor == target && !active {
        return Failed(Validation);
      }
      if !active && !actorIsSuperuser {
        var last := IsLastActiveAdmin(target);
        if last {
          return Failed(LastAdmin);
        }
      }
      var found := repo.SetUserActive(target, active);
      if !found {
        return Failed(NotFound);
      }
      if active {
        repo.Record(UserReactivated(actor, target));
      } else {
        var revoked := repo.RevokeUserSessions(now, target);
        repo.Record(UserDeactivated(actor, target, revoked));
      }
      reply := Done;
    }

    method SetSuperuser(email: string, flag: bool, ok: bool) returns (reply: Reply)
      requires repo.Valid()
      modifies repo
      ensures repo.Shows(Transactions.SetSuperuser(old(repo.Snap()), email, flag, ok), reply, old(repo.log))
      ensures repo.Valid()
    {
      hide Consistent;
      ShellConsistent(repo.Snap(), email, flag, [], ok);
      if !ok {
        return Failed(Validation);
      }
      var id := repo.SetSuperuser(email, flag);
      if id.None? {
        return Failed(NotFound);
      }
      repo.Record(if flag then SuperuserGranted(id.value) else SuperuserRevoked(id.value));
      reply := Done;
    }

    method GrantRoleByKey(email: string, key: string, ok: bool) returns (reply: Reply)
      requires repo.Valid()
      modifies repo
      ensures repo.Shows(Transactions.GrantRoleByKey(old(repo.Snap()), email, key, ok), reply, old(repo.log))
      ensures repo.Valid()
    {
      hide Consistent;
      ShellConsistent(repo.Snap(), email, false, key, ok);
      if !ok {
        return Failed(Validation);
      }
      var user := repo.GetUserByEmail(email);
      if user.None? {
        return Failed(NotFound);
      }
      var role := repo.GetRoleByKey(key);
      if role.None? {
        return Failed(NotFound);
      }
      var _ := repo.AddUserRole(user.value, role.value);
      repo.Record(RoleGranted(user.value, key));
      reply := Done;
    }

    // -------------------------------------------------------------- invitations

    method Invite(now: Time, actor: Id, access: Access, email: string, roleId: Id, ttl: int, ok: bool)
      returns (reply: Reply)
      requires repo.Valid()
      modifies repo
      ensures repo.Shows(Transactions.Invite(old(repo.Snap()), now, actor, access, email, roleId, ttl, ok), reply,
                         old(repo.log))
      ensures repo.Valid()
    {
      hide Consistent, OpenInvitationsRevoked;
      InvitationFlowConsistent(repo.Snap(), now, actor, access, email, roleId, ttl, 0, [], ok);
      if !ok {
        return Failed(Validation);
      }
      var role := repo.GetRole(roleId);
      if role.None? {
        return Failed(NotFound);
      }
      var allowed := CheckEscalation(access, role.value.permissions);
      if !allowed {
        return Failed(Escalation);
      }
      var taken := repo.GetUserByEmail(email);
      if taken.Some? {
        return Failed(EmailTaken);
      }
      reply := Issue(now, actor, email, roleId, role.value.key, ttl);
    }

    method Issue(now: Time, actor: Id, email: string, roleId: Id, key: string, ttl: int) returns (reply: Reply)
      modifies repo
      ensures repo.Shows(IssueInvitation(old(repo.Snap()), now, actor, email, roleId, key, ttl), reply, old(repo.log))
    {
      hide OpenInvitationsRevoked;
      var saved := repo.Begin();
      repo.RevokePendingInvitationFor(now, email);
      var failure := repo.CreateInvitation(email, roleId, actor, now + ttl);
      if failure.Some? {
        repo.Rollback(saved);
        return Failed(failure.value);
      }
      repo.Record(InvitationCreated(actor, saved.t.nextId, email, key));
      reply := NewRow(saved.t.nextId);
    }

    method RevokeInvitation(now: Time, actor: Id, id: Id) returns (reply: Reply)
      requires repo.Valid()
      modifies repo
      ensures repo.Shows(Transactions.RevokeInvitation(old(repo.Snap()), now, actor, id), reply, old(repo.log))
      ensures repo.Valid()
    {
      hide Consistent;
      RevokeInvitationConsistent(repo.Snap(), now, actor, id);
      var found := repo.RevokeInvitation(now, id);
      if !found {
        return Failed(NotFound);
      }
      repo.Record(InvitationRevoked(actor, id));
      reply := Done;
    }

    /** Hashes the chosen password and takes up the invitation: the account it opens is verified, has the invited
        address and holds exactly the offered role. */
    method AcceptInvitation(now: Time, token: Digest, password: string, hasher: PHC.Hasher, kdf: PHC.Kdf,
                            salt: seq<Byte>, ok: bool)
      returns (reply: Reply)
      requires repo.Valid()
      modifies repo
      ensures repo.Shows(Transactions.AcceptInvitation(old(repo.Snap()), now, token,
                                                       PHC.Hash(hasher, kdf, password, salt), ok),
                         reply, old(repo.log))
      ensures reply.NewRow? <==>
              ok && exists i :: i in old(repo.invitations) && Acceptable(old(repo.invitations)[i], now)
                                && old(repo.invitations)[i].token == token
                                && forall u :: u in old(repo.users) ==>
                                     old(repo.users)[u].email != old(repo.invitations)[i].email
      ensures !reply.NewRow? ==> repo.Snap() == old(repo.Snap()) && repo.log == old(repo.log)
      ensures reply.NewRow? ==>
                exists i :: i in old(repo.invitations) && old(repo.invitations)[i].token == token
                  && repo.users == old(repo.users)[reply.id :=
                       User(old(repo.invitations)[i].email, Some(PHC.Hash(hasher, kdf, password, salt)), false, true,
                            Some(now))]
                  && repo.userRoles == old(repo.userRoles) + {(reply.id, old(repo.invitations)[i].roleId)}
      ensures repo.Valid()
    {
      hide Consistent, PHC.Hash, Transactions.AcceptInvitation;
      AcceptanceAnswers(repo.Snap(), now, token, PHC.Hash(hasher, kdf, password, salt), ok);
      reply := TakeUp(now, token, PHC.Hash(hasher, kdf, password, salt), ok);
    }

    /** The transaction of an acceptance. */
    method TakeUp(now: Time, token: Digest, hash: string, ok: bool) returns (reply: Reply)
      requires repo.Valid()
      modifies repo
      ensures repo.Shows(Transactions.AcceptInvitation(old(repo.Snap()), now, token, hash, ok), reply, old(repo.log))
      ensures repo.Valid()
    {
      hide Consistent, RedeemInvitation;
      StepConsistent(repo.Snap(), now, CAcceptInvitation(token, hash, ok));
      if !ok {
        return Failed(Validation);
      }
      var id := repo.GetInvitationByTokenHash(token);
      if id.None? || !repo.invitations[id.value].Pending(now) {
        return Failed(InvitationInvalid);
      }
      reply := Redeem(now, id.value, hash);
    }

    /** Claims the row and creates the account, or neither. */
    method Redeem(now: Time, id: Id, hash: string) returns (reply: Reply)
      requires id in repo.invitations && repo.invitations[id].Pending(now)
      modifies repo
      ensures repo.Shows(RedeemInvitation(old(repo.Snap()), now, id, hash), reply, old(repo.log))
    {
      var saved := repo.Begin();
      var inv := repo.invitations[id];
      var claimed := repo.AcceptInvitation(now, id);
      var user := Enrol(now, inv.email, inv.roleId, hash);
      if user.Failed? {
        repo.Rollback(saved);
        return user;
      }
      repo.Record(InvitationAccepted(user.id, id, inv.email, repo.roles[inv.roleId].key));
      reply := user;
    }

    /** Creates the account, assigns the role and marks the address verified. */
    method Enrol(now: Time, email: string, roleId: Id, hash: string) returns (reply: Reply)
      modifies repo`users, repo`userRoles, repo`nextId
      ensures reply == if UserByEmail(old(repo.users), email).Some? then Failed(EmailTaken)
                       else if roleId !in repo.roles then Failed(Internal) else NewRow(old(repo.nextId))
      ensures reply.NewRow? ==>
                && repo.users == old(repo.users)[reply.id := User(email, Some(hash), false, true, Some(now))]
                && repo.userRoles == old(repo.userRoles) + {(reply.id, roleId)}
                && repo.nextId == old(repo.nextId) + 1
    {
      var user := repo.CreateUser(email, hash);
      if user.None? {
        return Failed(EmailTaken);
      }
      var added := repo.AddUserRole(user.value, roleId);
      if !added {
        return Failed(Internal);
      }
      var _ := repo.MarkEmailVerified(now, user.value, email);
      reply := NewRow(user.value);
    }

    // -------------------------------------------------------------- roles

    method CreateRole(actor: Id, access: Access, key: string, name: string, perms: seq<Permission>, ok: bool)
      returns (reply: Reply)
      requires repo.Valid()
      modifies repo
      ensures repo.Shows(Transactions.CreateRole(old(repo.Snap()), actor, access, key, name, perms, ok), reply,
                         old(repo.log))
      ensures repo.Valid()
    {
      hide Consistent, Without, Paired, AllCatalogued, PermissionSet;
      RoleFlowConsistent(repo.Snap(), actor, access, 0, key, name, perms, ok);
      var granting := ValidatePermissions(perms);
      if !ok || granting.None? {
        return Failed(Validation);
      }
      var allowed := CheckEscalation(access, granting.value);
      if !allowed {
        return Failed(Escalation);
      }
      var taken := repo.GetRoleByKey(key);
      if taken.Some? {
        return Failed(RoleKeyTaken);
      }
      var id := repo.CreateRole(key, name, granting.value);
      repo.Record(RoleCreated(actor, id.value, key, name, granting.value));
      reply := NewRow(id.value);
    }

    method UpdateRole(actor: Id, access: Access, id: Id, name: string, perms: seq<Permission>, ok: bool)
      returns (reply: Reply)
      requires repo.Valid()
      modifies repo
      ensures repo.Shows(Transactions.UpdateRole(old(repo.Snap()), actor, access, id, name, perms, ok), reply,
                         old(repo.log))
      ensures repo.Valid()
    {
      hide Consistent, Without, Paired, AllCatalogued, PermissionSet;
      RoleFlowConsistent(repo.Snap(), actor, access, id, [], name, perms, ok);
      var granting := ValidatePermissions(perms);
      if !ok || granting.None? {
        return Failed(Validation);
      }
      var allowed := CheckEscalation(access, granting.value);
      if !allowed {
        return Failed(Escalation);
      }
      var existing := repo.GetRole(id);
      if existing.None? {
        return Failed(NotFound);
      }
      if existing.value.isSystem {
        return Failed(SystemRole);
      }
      allowed := CheckEscalation(access, existing.value.permissions);
      if !allowed {
        return Failed(Escalation);
      }
      var _ := repo.UpdateRole(id, name, granting.value);
      repo.Record(RoleUpdated(actor, id, existing.value.key, existing.value.permissions, granting.value));
      reply := Done;
    }

    method DeleteRole(actor: Id, access: Access, id: Id) returns (reply: Reply)
      requires repo.Valid()
      modifies repo
      ensures repo.Shows(Transactions.DeleteRole(old(repo.Snap()), actor, access, id), reply, old(repo.log))
      ensures repo.Valid()
    {
      hide Consistent, Without, InvitationsElsewhere;
      RoleFlowConsistent(repo.Snap(), actor, access, id, [], [], [], true);
      var existing := repo.GetRole(id);
      if existing.None? {
        return Failed(NotFound);
      }
      if existing.value.isSystem {
        return Failed(SystemRole);
      }
      var allowed := CheckEscalation(access, existing.value.permissions);
      if !allowed {
        return Failed(Escalation);
      }
      var failure := repo.DeleteRole(id);
      if failure.Some? {
        return Failed(failure.value);
      }
      repo.Record(RoleDeleted(actor, id, existing.value.key));
      reply := Done;
    }

    method SetUserRoles(actor: Id, access: Access, target: Id, ids: seq<Id>) returns (reply: Reply)
      requires repo.Valid()
      modifies repo
      ensures repo.Shows(Transactions.SetUserRoles(old(repo.Snap()), actor, access, target, ids), reply, old(repo.log))
      ensures reply == Done ==>
                forall g :: g in old(repo.rolePermissions) && g.0 in ids ==> g.1 in access.permissions
      ensures reply == Done ==>
                forall u, r :: (u, r) in repo.userRoles <==>
                  if u == target then r in ids else (u, r) in old(repo.userRoles)
      ensures (exists id :: id in ids && id !in old(repo.roles)) <==> reply == Failed(NotFound)
      ensures reply != Failed(NotFound) && reply != Failed(Escalation) ==>
                forall g :: g in old(repo.rolePermissions) && g.0 in ids ==> g.1 in access.permissions
      ensures reply == Failed(Escalation) ==>
                exists g :: g in old(repo.rolePermissions) && g.0 in ids && g.1 !in access.permissions
      ensures reply != Done ==> repo.Snap() == old(repo.Snap()) && repo.log == old(repo.log)
      ensures repo.Valid()
    {
      AssignmentAnswers(repo.Snap(), actor, access, target, ids);
      reply := ReplaceRoles(actor, access, target, ids);
    }

    /** The transaction: the guards in the code's order, then the replacement. */
    method ReplaceRoles(actor: Id, access: Access, target: Id, ids: seq<Id>) returns (reply: Reply)
      requires repo.Valid()
      modifies repo
      ensures repo.Shows(Transactions.SetUserRoles(old(repo.Snap()), actor, access, target, ids), reply, old(repo.log))
      ensures repo.Valid()
    {
      hide Consistent, AssignRoles, HasRole, UnionPermissions, RolesWithIds, RolesHeld, Holders, RoleKeys, Distinct;
      SetUserRolesConsistent(repo.Snap(), actor, access, target, ids);
      var roles := repo.GetRolesByIds(ids);
      if roles.None? {
        return Failed(NotFound);
      }
      var granting := CollectPermissions(roles.value);
      var allowed := CheckEscalation(access, granting);
      if !allowed {
        return Failed(Escalation);
      }
      var before := repo.LoadUserRoles(target);
      var refusal := GuardAdmins(access, before, roles.value);
      if refusal.Some? {
        return Failed(refusal.value);
      }
      reply := Assign(actor, target, Distinct(ids), RoleKeys(before), RoleKeys(roles.value));
    }

    /** Who may touch an admin's roles, then whether an admin would remain: in that order. */
    method GuardAdmins(access: Access, before: set<RoleView>, roles: set<RoleView>) returns (refusal: Option<Error>)
      ensures refusal
              == if HasRole(before, ADMIN_KEY) && !access.viaSuperuser && !HasRole(access.roles, ADMIN_KEY)
                 then Some(Forbidden)
                 else if HasRole(before, ADMIN_KEY) && !HasRole(roles, ADMIN_KEY)
                         && |Holders(repo.Snap(), ADMIN_KEY)| <= 1 then Some(LastAdmin)
                 else None
    {
      hide HasRole, Holders;
      var wasAdmin := FindRole(before, ADMIN_KEY);
      if !wasAdmin {
        return None;
      }
      var actorIsAdmin := FindRole(access.roles, ADMIN_KEY);
      if !access.viaSuperuser && !actorIsAdmin {
        return Some(Forbidden);
      }
      var staysAdmin := FindRole(roles, ADMIN_KEY);
      if !staysAdmin {
        var admins := repo.CountUsersWithRole(ADMIN_KEY);
        if admins <= 1 {
          return Some(LastAdmin);
        }
      }
      return None;
    }

    method Assign(actor: Id, target: Id, ids: set<Id>, before: set<string>, after: set<string>)
      returns (reply: Reply)
      modifies repo
      ensures repo.Shows(AssignRoles(old(repo.Snap()), actor, target, ids, before, after), reply, old(repo.log))
    {
      hide Without, Paired;
      var saved := repo.Begin();
      var ok := repo.SetUserRoles(target, ids);
      if !ok {
        repo.Rollback(saved);
        return Failed(Internal);
      }
      repo.Record(RolesUpdated(actor, target, before, after));
      reply := Done;
    }

    // -------------------------------------------------------------- API keys

    /** The scope of a valid request: catalogued permissions, at least one, and an expiry that is still to come. */
    static method ValidateKey(now: Time, perms: seq<Permission>, expiresAt: Option<Time>, ok: bool)
      returns (scope: Option<set<Permission>>)
      ensures scope.Some? <==>
              ok && perms != [] && AllCatalogued(perms) && (expiresAt.Some? ==> expiresAt.value > now)
      ensures scope.Some? ==> scope.value == PermissionSet(perms)
    {
      scope := ValidatePermissions(perms);
      if !ok || (expiresAt.Some? && expiresAt.value <= now) {
        scope := None;
      }
    }

    method CreateApiKey(now: Time, actor: Id, access: Access, name: string, perms: seq<Permission>,
                        expiresAt: Option<Time>, ok: bool)
      returns (reply: Reply)
      requires repo.Valid()
      modifies repo
      ensures repo.Shows(Transactions.CreateApiKey(old(repo.Snap()), now, actor, access, name, perms, expiresAt, ok),
                         reply, old(repo.log))
      ensures repo.Valid()
    {
      hide Consistent, Paired, AllCatalogued, PermissionSet;
      CreateApiKeyConsistent(repo.Snap(), now, actor, access, name, perms, expiresAt, ok);
      var scope := ValidateKey(now, perms, expiresAt, ok);
      if scope.None? {
        return Failed(Validation);
      }
      var allowed := CheckEscalation(access, scope.value);
      if !allowed {
        return Failed(Escalation);
      }
      var id := repo.CreateApiKey(actor, name, scope.value, expiresAt);
      if id.None? {
        return Failed(Internal);
      }
      repo.Record(ApiKeyCreated(actor, id.value, name, scope.value));
      reply := NewRow(id.value);
    }

    method RevokeApiKey(now: Time, actor: Id, id: Id) returns (reply: Reply)
      requires repo.Valid()
      modifies repo
      ensures repo.Shows(Transactions.RevokeApiKey(old(repo.Snap()), now, actor, id), reply, old(repo.log))
      ensures repo.Valid()
    {
      hide Consistent;
      StepConsistent(repo.Snap(), now, CRevokeApiKey(actor, id));
      var found := repo.RevokeApiKey(now, id);
      if !found {
        return Failed(NotFound);
      }
      repo.Record(ApiKeyRevoked(actor, id, repo.apiKeys[id].name));
      reply := Done;
    }

    // -------------------------------------------------------------- password reset and email verification

    method RequestPasswordReset(now: Time, email: string, ttl: int) returns (reply: Reply)
      requires repo.Valid()
      modifies repo
      ensures repo.Shows(Transactions.RequestPasswordReset(old(repo.Snap()), now, email, ttl), reply, old(repo.log))
      ensures repo.Valid()
    {
      hide Consistent, UserResetsSpent;
      RequestPasswordResetConsistent(repo.Snap(), now, email, ttl);
      reply := Done;
      var found := repo.GetUserByEmail(email);
      if found.None? {
        repo.Record(PasswordResetRejected(None, email, UnknownEmail));
        return;
      }
      var user := repo.users[found.value];
      if !user.isActive {
        repo.Record(PasswordResetRejected(found, email, Deactivated));
        return;
      }
      if user.passwordHash.None? {
        repo.Record(PasswordResetRejected(found, email, NoPasswordSet));
        return;
      }
      repo.InvalidatePasswordResets(now, found.value);
      repo.CreatePasswordReset(found.value, now + ttl);
      repo.Record(PasswordResetRequested(found.value, email));
    }

    /** Hashes the new password and spends the link on it. It succeeds exactly for a live link, and then the password of
        its account, and nothing else about any account, is the new one; anything else changes nothing. */
    method ResetPassword(now: Time, token: Digest, next: string, hasher: PHC.Hasher, kdf: PHC.Kdf, salt: seq<Byte>,
                         ok: bool)
      returns (reply: Reply)
      requires repo.Valid()
      modifies repo
      ensures repo.Shows(Transactions.ResetPassword(old(repo.Snap()), now, token,
                                                    PHC.Hash(hasher, kdf, next, salt), ok),
                         reply, old(repo.log))
      ensures reply == Done <==>
              ok && exists i :: i in old(repo.resets) && old(repo.resets)[i].token == token
                                && old(repo.resets)[i].usedAt.None? && old(repo.resets)[i].expiresAt > now
      ensures reply != Done ==> repo.Snap() == old(repo.Snap()) && repo.log == old(repo.log)
      ensures reply == Done ==>
                exists i :: i in old(repo.resets) && old(repo.resets)[i].token == token
                  && old(repo.resets)[i].userId in old(repo.users)
                  && repo.users == old(repo.users)[old(repo.resets)[i].userId :=
                       old(repo.users)[old(repo.resets)[i].userId]
                       .(passwordHash := Some(PHC.Hash(hasher, kdf, next, salt)))]
      ensures repo.Valid()
    {
      hide Consistent, PHC.Hash, Transactions.ResetPassword;
      ResetAnswers(repo.Snap(), now, token, PHC.Hash(hasher, kdf, next, salt), ok);
      reply := SpendLink(now, token, PHC.Hash(hasher, kdf, next, salt), ok);
    }

    /** The transaction: consumes the token, changes the password, ends every session and spends every other link, or
        none of it. */
    method SpendLink(now: Time, token: Digest, hash: string, ok: bool) returns (reply: Reply)
      requires repo.Valid()
      modifies repo
      ensures repo.Shows(Transactions.ResetPassword(old(repo.Snap()), now, token, hash, ok), reply, old(repo.log))
      ensures repo.Valid()
    {
      hide Consistent, FinishReset;
      TokenFlowConsistent(repo.Snap(), now, token, hash, ok);
      if !ok {
        return Failed(Validation);
      }
      var saved := repo.Begin();
      var row := repo.ConsumePasswordReset(now, token);
      if row.None? {
        return Failed(InvalidToken);
      }
      reply := Overwrite(now, saved, row.value, hash);
    }

    /** The rest of the transaction, once the token has been claimed. */
    method Overwrite(now: Time, saved: Savepoint, row: Id, hash: string) returns (reply: Reply)
      requires row in saved.t.resets && saved.t.resets[row].usedAt.None? && repo.log == saved.log
      requires repo.Snap()
               == saved.t.(resets := saved.t.resets[row := saved.t.resets[row].(usedAt := Some(now))])
      modifies repo
      ensures repo.Shows(FinishReset(saved.t, now, row, hash), reply, saved.log)
    {
      hide UserSessionsRevoked, UnrevokedCount, UserResetsSpent;
      var userId := repo.resets[row].userId;
      SpentTwice(saved.t.resets, row, now);
      var found := repo.UpdateUserPassword(userId, hash);
      if !found {
        repo.Rollback(saved);
        return Failed(NotFound);
      }
      var revoked := repo.RevokeUserSessions(now, userId);
      repo.InvalidatePasswordResets(now, userId);
      repo.Record(PasswordReset(userId, revoked));
      reply := Done;
    }

    /** `handed` is the account as the caller read it, which may be older than the row. */
    method SendVerification(now: Time, userId: Id, handed: User, ttl: int) returns (reply: Reply)
      requires repo.Valid()
      modifies repo
      ensures repo.Shows(SendTo(old(repo.Snap()), now, userId, handed, ttl), reply, old(repo.log))
      ensures repo.Valid()
    {
      hide Consistent, UserVerificationsSpent;
      SendToConsistent(repo.Snap(), now, userId, handed, ttl);
      reply := Done;
      if handed.verifiedAt.None? && userId in repo.users {
        repo.InvalidateEmailVerifications(now, userId);
        repo.CreateEmailVerification(userId, handed.email, now + ttl);
      }
    }

    method VerifyEmail(now: Time, token: Digest) returns (reply: Reply)
      requires repo.Valid()
      modifies repo
      ensures repo.Shows(Transactions.VerifyEmail(old(repo.Snap()), now, token), reply, old(repo.log))
      ensures repo.Valid()
    {
      hide Consistent, FinishVerification;
      TokenFlowConsistent(repo.Snap(), now, token, [], true);
      var saved := repo.Begin();
      var row := repo.ConsumeEmailVerification(now, token);
      if row.None? {
        return Failed(InvalidToken);
      }
      reply := Confirm(now, saved, row.value);
    }

    /** The rest of the transaction, once the token has been claimed. */
    method Confirm(now: Time, saved: Savepoint, row: Id) returns (reply: Reply)
      requires row in saved.t.verifications && repo.log == saved.log
      requires repo.Snap()
               == saved.t.(verifications := saved.t.verifications[row :=
                             saved.t.verifications[row].(usedAt := Some(now))])
      modifies repo
      ensures repo.Shows(FinishVerification(saved.t, now, row), reply, saved.log)
    {
      var v := repo.verifications[row];
      var found := repo.MarkEmailVerified(now, v.userId, v.email);
      if !found {
        repo.Rollback(saved);
        return Failed(InvalidToken);
      }
      repo.Record(EmailVerified(v.userId, v.email));
      reply := Done;
    }

    /** One tick of the retention sweeps: a row stays while neither its end nor its expiry lies before the line. */
    method Cleanup(now: Time, retain: int)
      requires repo.Valid()
      modifies repo
      ensures repo.Snap() == Prune(old(repo.Snap()), now, retain) && repo.log == old(repo.log)
      ensures forall i :: i in repo.sessions <==>
                i in old(repo.sessions)
                && Retained(old(repo.sessions)[i].revokedAt, old(repo.sessions)[i].expiresAt, now - retain)
      ensures forall i :: i in repo.resets <==>
                i in old(repo.resets)
                && Retained(old(repo.resets)[i].usedAt, old(repo.resets)[i].expiresAt, now - retain)
      ensures forall i :: i in repo.verifications <==>
                i in old(repo.verifications)
                && Retained(old(repo.verifications)[i].usedAt, old(repo.verifications)[i].expiresAt, now - retain)
      ensures repo.Valid()
    {
      hide Consistent, SessionsPruned, ResetsPruned, VerificationsPruned, Retained;
      PruneConsistent(repo.Snap(), now, retain);
      SweptExactly(repo.Snap(), now, retain);
      repo.DeleteDeadSessions(now, retain);
      repo.DeleteDeadPasswordResets(now, retain);
      repo.DeleteDeadEmailVerifications(now, retain);
    }
  }

  /** Neither expired nor ended before the line. */
  predicate Retained(endedAt: Option<Time>, expiresAt: Time, line: Time) {
    expiresAt >= line && (endedAt.None? || endedAt.value >= line)
  }

  lemma SweptExactly(t: Tables, now: Time, retain: int)
    ensures var u := Prune(t, now, retain);
            && (forall i :: i in u.sessions <==>
                  i in t.sessions && Retained(t.sessions[i].revokedAt, t.sessions[i].expiresAt, now - retain))
            && (forall i :: i in u.resets <==>
                  i in t.resets && Retained(t.resets[i].usedAt, t.resets[i].expiresAt, now - retain))
            && (forall i :: i in u.verifications <==>
                  i in t.verifications
                  && Retained(t.verifications[i].usedAt, t.verifications[i].expiresAt, now - retain))
  {}

  /** Spending one row and then all of its user's rows is spending all of them. */
  lemma SpentTwice(resets: map<Id, Reset>, id: Id, now: Time)
    requires id in resets && resets[id].usedAt.None?
    ensures UserResetsSpent(resets[id := resets[id].(usedAt := Some(now))], resets[id].userId, now)
            == UserResetsSpent(resets, resets[id].userId, now)
  {}

  /** What hasRole finds among the loaded roles is what the assignment tables say. */
  lemma HeldRoles(t: Tables, userId: Id, key: string)
    ensures HasRole(RolesHeld(t, userId), key) <==> HoldsRole(t, userId, key)
  {
    if HoldsRole(t, userId, key) {
      var id :| (userId, id) in t.userRoles && id in t.roles && t.roles[id].isSystem && t.roles[id].key == key;
      assert RoleAt(t, id) in RolesHeld(t, userId);
    }
  }
}
