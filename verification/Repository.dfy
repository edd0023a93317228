/** The data layer: one field per table, one method per SQL statement (or short run of them) the repository issues.
    Rows are checked against unique indexes and foreign keys where the statement can violate one. */
module Store {
  import opened Prelude
  import opened Permissions
  import opened Tables
  import opened Transactions
  import opened Constraints
  import opened AuditReplay
  import opened JoinFolds
  import Keyset

  /** What a transaction puts back when it is rolled back. */
  datatype Savepoint = Savepoint(t: Tables, log: seq<Entry>)

  /** Counting tells whether an id is missing. */
  lemma NoneMissing(ids: set<Id>, known: set<Id>)
    ensures |ids * known| == |ids| <==> ids <= known
  {
    assert ids == ids * known + (ids - known);
  }

  class Repository {
    var users: map<Id, User>
    var roles: map<Id, Role>
    var rolePermissions: set<(Id, Permission)>
    var userRoles: set<(Id, Id)>
    var invitations: map<Id, Invitation>
    var apiKeys: map<Id, ApiKey>
    var keyPermissions: set<(Id, Permission)>
    var sessions: map<Id, Session>
    var resets: map<Id, Reset>
    var verifications: map<Id, Verification>
    var nextId: nat
    var log: seq<Entry>

    function Snap(): Tables
      reads this
    {
      Tables(users, roles, rolePermissions, userRoles, invitations, apiKeys, keyPermissions, sessions, resets,
             verifications, nextId)
    }

    ghost predicate Valid()
      reads this
    {
      Consistent(Snap())
    }

    /** The tables, the answer and the audit log are what transaction `o` makes of log `before`. */
    ghost predicate Shows(o: Outcome, reply: Reply, before: seq<Entry>)
      reads this
    {
      Snap() == o.t && reply == o.reply && log == Appended(before, o.entry)
    }

    /** The state the baseline migration leaves behind. */
    constructor ()
      ensures Valid() && Snap() == SEED && log == []
    {
      users, roles, rolePermissions, userRoles := SEED.users, SEED.roles, SEED.rolePermissions, SEED.userRoles;
      invitations, apiKeys, keyPermissions := SEED.invitations, SEED.apiKeys, SEED.keyPermissions;
      sessions, resets, verifications := SEED.sessions, SEED.resets, SEED.verifications;
      nextId, log := SEED.nextId, [];
      new;
      hide Consistent, SEED;
      SeedConsistent();
    }

    // -------------------------------------------------------------- transactions and the audit log

    method Begin() returns (saved: Savepoint)
      ensures saved == Savepoint(Snap(), log)
    {
      saved := Savepoint(Snap(), log);
    }

    method Rollback(saved: Savepoint)
      modifies this
      ensures Snap() == saved.t && log == saved.log
    {
      RestoreAuthority(saved.t);
      invitations, apiKeys, keyPermissions := saved.t.invitations, saved.t.apiKeys, saved.t.keyPermissions;
      sessions, resets, verifications := saved.t.sessions, saved.t.resets, saved.t.verifications;
      nextId, log := saved.t.nextId, saved.log;
    }

    method RestoreAuthority(t: Tables)
      modifies `users, `roles, `rolePermissions, `userRoles
      ensures users == t.users && roles == t.roles && rolePermissions == t.rolePermissions && userRoles == t.userRoles
    {
      users, roles, rolePermissions, userRoles := t.users, t.roles, t.rolePermissions, t.userRoles;
    }

    method Record(e: Entry)
      modifies `log
      ensures log == old(log) + [e]
    {
      log := log + [e];
    }

    // -------------------------------------------------------------- users

    method CreateUser(email: string, hash: string) returns (id: Option<Id>)
      modifies `users, `nextId
      ensures UserByEmail(old(users), email).Some? ==> id.None? && users == old(users) && nextId == old(nextId)
      ensures UserByEmail(old(users), email).None? ==>
                && id == Some(old(nextId)) && nextId == old(nextId) + 1
                && users == old(users)[old(nextId) := User(email, Some(hash), false, true, None)]
    {
      if u :| u in users && users[u].email == email {
        return None;
      }
      id := Some(nextId);
      users, nextId := users[nextId := User(email, Some(hash), false, true, None)], nextId + 1;
    }

    method GetUserByEmail(email: string) returns (id: Option<Id>)
      requires Valid()
      ensures id == UserByEmail(users, email)
    {
      if u :| u in users && users[u].email == email {
        return Some(u);
      }
      return None;
    }

    method SetSuperuser(email: string, flag: bool) returns (id: Option<Id>)
      requires Valid()
      modifies `users
      ensures id == UserByEmail(old(users), email)
      ensures users == if id.Some? then old(users)[id.value := old(users)[id.value].(isSuperuser := flag)]
                       else old(users)
    {
      id := GetUserByEmail(email);
      if id.Some? {
        users := users[id.value := users[id.value].(isSuperuser := flag)];
      }
    }

    method SetUserActive(id: Id, active: bool) returns (found: bool)
      modifies `users
      ensures found <==> id in old(users)
      ensures users == if found then old(users)[id := old(users)[id].(isActive := active)] else old(users)
    {
      found := id in users;
      if found {
        users := users[id := users[id].(isActive := active)];
      }
    }

    method UpdateUserPassword(id: Id, hash: string) returns (found: bool)
      modifies `users
      ensures found <==> id in old(users)
      ensures users == if found then old(users)[id := old(users)[id].(passwordHash := Some(hash))] else old(users)
    {
      found := id in users;
      if found {
        users := users[id := users[id].(passwordHash := Some(hash))];
      }
    }

    method MarkEmailVerified(now: Time, id: Id, email: string) returns (found: bool)
      modifies `users
      ensures found <==> id in old(users) && old(users)[id].email == email
      ensures users == if found then old(users)[id := old(users)[id].(verifiedAt := Some(now))] else old(users)
    {
      found := id in users && users[id].email == email;
      if found {
        users := users[id := users[id].(verifiedAt := Some(now))];
      }
    }

    // -------------------------------------------------------------- sessions

    method CreateSession(userId: Id, expiresAt: Time) returns (token: Digest)
      modifies `sessions, `nextId
      ensures token == old(nextId) + 1 && nextId == old(nextId) + 2
      ensures sessions == old(sessions)[old(nextId) := Session(userId, token, expiresAt, None)]
    {
      token := nextId + 1;
      sessions, nextId := sessions[nextId := Session(userId, token, expiresAt, None)], nextId + 2;
    }

    method AuthenticateSession(now: Time, token: Digest) returns (reply: Reply)
      requires Valid()
      ensures reply == Transactions.AuthenticateSession(Snap(), now, token)
      ensures reply == Failed(Unauthenticated) || reply.SignedIn?
      ensures reply.SignedIn? <==>
              exists i :: i in sessions && sessions[i].token == token
                          && sessions[i].revokedAt.None? && sessions[i].expiresAt > now
                          && sessions[i].userId in users && users[sessions[i].userId].isActive
      ensures forall i :: reply.SignedIn? && i in sessions && sessions[i].token == token ==>
                i == reply.sessionId && sessions[i].userId == reply.userId
    {
      hide UsersOk, RolesOk, SeedsOk, GrantsOk, AssignmentsOk, InvitationsOk, OneOpenInvitation, KeysOk, ResetsOk,
           VerificationsOk;
      if i :| i in sessions && sessions[i].token == token && Live(sessions[i], now)
              && sessions[i].userId in users && users[sessions[i].userId].isActive {
        return SignedIn(sessions[i].userId, i);
      }
      return Failed(Unauthenticated);
    }

    method RevokeSession(now: Time, token: Digest)
      modifies `sessions
      ensures sessions == TokenRevoked(old(sessions), token, now)
    {
      sessions := map i | i in sessions ::
        if sessions[i].token == token && sessions[i].revokedAt.None?
        then sessions[i].(revokedAt := Some(now)) else sessions[i];
    }

    method RevokeUserSessions(now: Time, userId: Id) returns (revoked: nat)
      modifies `sessions
      ensures sessions == UserSessionsRevoked(old(sessions), userId, now)
      ensures revoked == UnrevokedCount(old(sessions), userId)
      ensures revoked == |set i | i in old(sessions) && i in sessions && sessions[i] != old(sessions)[i]|
    {
      revoked := |set i | i in sessions && sessions[i].userId == userId && sessions[i].revokedAt.None?|;
      sessions := map i | i in sessions ::
        if sessions[i].userId == userId && sessions[i].revokedAt.None?
        then sessions[i].(revokedAt := Some(now)) else sessions[i];
      assert (set i | i in old(sessions) && i in sessions && sessions[i] != old(sessions)[i])
             == set i | i in old(sessions) && old(sessions)[i].userId == userId && old(sessions)[i].revokedAt.None?;
    }

    method RevokeSessionById(now: Time, userId: Id, id: Id) returns (found: bool)
      modifies `sessions
      ensures found <==> id in old(sessions) && old(sessions)[id].userId == userId && old(sessions)[id].revokedAt.None?
      ensures sessions == if found then old(sessions)[id := old(sessions)[id].(revokedAt := Some(now))]
                          else old(sessions)
    {
      found := id in sessions && sessions[id].userId == userId && sessions[id].revokedAt.None?;
      if found {
        sessions := sessions[id := sessions[id].(revokedAt := Some(now))];
      }
    }

    /** Newest first. */
    method ListUserSessions(now: Time, userId: Id) returns (rows: seq<(Id, Session)>)
      ensures forall i, j :: 0 <= i < j < |rows| ==> rows[i].0 > rows[j].0
      ensures forall k :: 0 <= k < |rows| ==>
                && rows[k].0 in sessions && rows[k].1 == sessions[rows[k].0]
                && rows[k].1.userId == userId && rows[k].1.revokedAt.None? && rows[k].1.expiresAt > now
      ensures forall id :: id in sessions && sessions[id].userId == userId
                           && sessions[id].revokedAt.None? && sessions[id].expiresAt > now ==>
                exists k :: 0 <= k < |rows| && rows[k].0 == id
    {
      var live := set id | id in sessions && sessions[id].userId == userId && Live(sessions[id], now);
      var order := Keyset.SortDescending(live);
      rows := [];
      for k := 0 to |order|
        invariant |rows| == k
        invariant forall i :: 0 <= i < k ==> order[i] in sessions && rows[i] == (order[i], sessions[order[i]])
      {
        assert order[k] in order;
        rows := rows + [(order[k], sessions[order[k]])];
      }
      forall id | id in sessions && sessions[id].userId == userId && Live(sessions[id], now)
        ensures exists k :: 0 <= k < |rows| && rows[k].0 == id
      {
        assert id in live && id in order;
        var k :| 0 <= k < |order| && order[k] == id;
        assert rows[k].0 == id;
      }
      assert forall k :: 0 <= k < |rows| ==> order[k] in order;
    }

    // -------------------------------------------------------------- password resets and verifications

    method CreatePasswordReset(userId: Id, expiresAt: Time)
      modifies `resets, `nextId
      ensures nextId == old(nextId) + 2
      ensures resets == old(resets)[old(nextId) := Reset(userId, old(nextId) + 1, expiresAt, None)]
    {
      resets, nextId := resets[nextId := Reset(userId, nextId + 1, expiresAt, None)], nextId + 2;
    }

    /** Checks and claims the token in one statement. */
    method ConsumePasswordReset(now: Time, token: Digest) returns (row: Option<Id>)
      requires Valid()
      modifies `resets
      ensures row == SpendableReset(old(resets), token, now)
      ensures resets == if row.Some? then old(resets)[row.value := old(resets)[row.value].(usedAt := Some(now))]
                        else old(resets)
    {
      row := None;
      if i :| i in resets && resets[i].token == token && Spendable(resets[i].usedAt, resets[i].expiresAt, now) {
        row, resets := Some(i), resets[i := resets[i].(usedAt := Some(now))];
      }
    }

    method InvalidatePasswordResets(now: Time, userId: Id)
      modifies `resets
      ensures resets == UserResetsSpent(old(resets), userId, now)
    {
      resets := map i | i in resets ::
        if resets[i].userId == userId && resets[i].usedAt.None? then resets[i].(usedAt := Some(now)) else resets[i];
    }

    method CreateEmailVerification(userId: Id, email: string, expiresAt: Time)
      modifies `verifications, `nextId
      ensures nextId == old(nextId) + 2
      ensures verifications
              == old(verifications)[old(nextId) := Verification(userId, email, old(nextId) + 1, expiresAt, None)]
    {
      verifications := verifications[nextId := Verification(userId, email, nextId + 1, expiresAt, None)];
      nextId := nextId + 2;
    }

    method ConsumeEmailVerification(now: Time, token: Digest) returns (row: Option<Id>)
      requires Valid()
      modifies `verifications
      ensures row == SpendableVerification(old(verifications), token, now)
      ensures verifications
              == if row.Some? then old(verifications)[row.value := old(verifications)[row.value].(usedAt := Some(now))]
                 else old(verifications)
    {
      row := None;
      if i :| i in verifications && verifications[i].token == token
              && Spendable(verifications[i].usedAt, verifications[i].expiresAt, now) {
        row, verifications := Some(i), verifications[i := verifications[i].(usedAt := Some(now))];
      }
    }

    method InvalidateEmailVerifications(now: Time, userId: Id)
      modifies `verifications
      ensures verifications == UserVerificationsSpent(old(verifications), userId, now)
    {
      verifications := map i | i in verifications ::
        if verifications[i].userId == userId && verifications[i].usedAt.None?
        then verifications[i].(usedAt := Some(now)) else verifications[i];
    }

    // -------------------------------------------------------------- retention sweeps

    method DeleteDeadSessions(now: Time, retain: int)
      modifies `sessions
      ensures sessions == SessionsPruned(old(sessions), now, retain)
    {
      sessions := sessions - (set i | i in sessions && Dead(sessions[i].revokedAt, sessions[i].expiresAt, now, retain));
    }

    method DeleteDeadPasswordResets(now: Time, retain: int)
      modifies `resets
      ensures resets == ResetsPruned(old(resets), now, retain)
    {
      resets := resets - (set i | i in resets && Dead(resets[i].usedAt, resets[i].expiresAt, now, retain));
    }

    method DeleteDeadEmailVerifications(now: Time, retain: int)
      modifies `verifications
      ensures verifications == VerificationsPruned(old(verifications), now, retain)
    {
      verifications := verifications
                       - (set i | i in verifications
                                  && Dead(verifications[i].usedAt, verifications[i].expiresAt, now, retain));
    }

    // -------------------------------------------------------------- invitations

    /** Fails on the partial unique index when an open invitation for the address exists, and on the foreign keys when
        the role or the inviter is gone. */
    method CreateInvitation(email: string, roleId: Id, invitedBy: Id, expiresAt: Time) returns (failure: Option<Error>)
      modifies `invitations, `nextId
      ensures failure
              == if exists i ::
                      i in old(invitations) && old(invitations)[i].email == email && old(invitations)[i].Open()
                 then Some(EmailTaken)
                 else if roleId !in roles || invitedBy !in users then Some(Internal) else None
      ensures failure.Some? ==> invitations == old(invitations) && nextId == old(nextId)
      ensures failure.None? ==>
                && nextId == old(nextId) + 2
                && invitations == old(invitations)[old(nextId) :=
                     Invitation(email, roleId, invitedBy, old(nextId) + 1, expiresAt, None, None)]
    {
      if exists i :: i in invitations && invitations[i].email == email && invitations[i].Open() {
        return Some(EmailTaken);
      }
      if roleId !in roles || invitedBy !in users {
        return Some(Internal);
      }
      invitations := invitations[nextId := Invitation(email, roleId, invitedBy, nextId + 1, expiresAt, None, None)];
      nextId := nextId + 2;
      return None;
    }

    method GetInvitationByTokenHash(token: Digest) returns (id: Option<Id>)
      requires Valid()
      ensures id == OfferedInvitation(Snap(), token)
    {
      if i :| i in invitations && invitations[i].token == token && invitations[i].roleId in roles {
        return Some(i);
      }
      return None;
    }

    /** The guard is in the statement, not before it. */
    method AcceptInvitation(now: Time, id: Id) returns (claimed: bool)
      modifies `invitations
      ensures claimed <==> id in old(invitations) && old(invitations)[id].Pending(now)
      ensures invitations == if claimed then old(invitations)[id := old(invitations)[id].(acceptedAt := Some(now))]
                             else old(invitations)
    {
      claimed := id in invitations && invitations[id].Pending(now);
      if claimed {
        invitations := invitations[id := invitations[id].(acceptedAt := Some(now))];
      }
    }

    method RevokeInvitation(now: Time, id: Id) returns (found: bool)
      modifies `invitations
      ensures found <==> id in old(invitations) && old(invitations)[id].Open()
      ensures invitations == if found then old(invitations)[id := old(invitations)[id].(revokedAt := Some(now))]
                             else old(invitations)
    {
      found := id in invitations && invitations[id].Open();
      if found {
        invitations := invitations[id := invitations[id].(revokedAt := Some(now))];
      }
    }

    method RevokePendingInvitationFor(now: Time, email: string)
      modifies `invitations
      ensures invitations == OpenInvitationsRevoked(old(invitations), email, now)
    {
      invitations := map i | i in invitations ::
        if invitations[i].email == email && invitations[i].Open()
        then invitations[i].(revokedAt := Some(now)) else invitations[i];
    }

    // -------------------------------------------------------------- roles

    method GetRole(id: Id) returns (role: Option<RoleView>)
      ensures role == if id in roles then Some(RoleAt(Snap(), id)) else None
    {
      var views := QueryRoles(Snap(), {id});
      assert {id} * roles.Keys == if id in roles then {id} else {};
      if |views| == 0 {
        return None;
      }
      assert views[0] in views;
      return Some(views[0]);
    }

    method GetRoleByKey(key: string) returns (id: Option<Id>)
      requires Valid()
      ensures id == RoleByKey(roles, key)
    {
      if r :| r in roles && roles[r].key == key {
        return Some(r);
      }
      return None;
    }

    /** Finds the requested roles, counts the distinct ids asked for, and fails unless the counts agree. */
    method GetRolesByIds(ids: seq<Id>) returns (found: Option<set<RoleView>>)
      ensures found == if Distinct(ids) <= roles.Keys then Some(RolesWithIds(Snap(), Distinct(ids))) else None
    {
      hide RolesWithIds;
      var views := QueryRoles(Snap(), Distinct(ids));
      var wanted := Deduplicated(ids);
      NoneMissing(wanted, roles.Keys);
      var distinct := set v | v in views;
      assert distinct == RolesWithIds(Snap(), Distinct(ids));
      found := if |views| != |wanted| then None else Some(distinct);
    }

    static method Deduplicated(ids: seq<Id>) returns (wanted: set<Id>)
      ensures wanted == Distinct(ids)
    {
      wanted := {};
      for i := 0 to |ids|
        invariant wanted == Distinct(ids[..i])
      {
        assert ids[..i + 1] == ids[..i] + [ids[i]];
        wanted := wanted + {ids[i]};
      }
      assert ids[..|ids|] == ids;
    }

    method ReplaceRolePermissions(id: Id, perms: set<Permission>)
      modifies `rolePermissions
      ensures rolePermissions == Without(old(rolePermissions), id) + Paired(id, perms)
    {
      rolePermissions := set g | g in rolePermissions && g.0 != id;
      var rest := perms;
      while rest != {}
        invariant rest <= perms
        invariant rolePermissions == Without(old(rolePermissions), id) + Paired(id, perms - rest)
        decreases rest
      {
        var p :| p in rest;
        assert perms - (rest - {p}) == perms - rest + {p};
        rolePermissions, rest := rolePermissions + {(id, p)}, rest - {p};
      }
      assert perms - rest == perms;
    }

    method CreateRole(key: string, name: string, perms: set<Permission>) returns (id: Option<Id>)
      modifies `roles, `rolePermissions, `nextId
      ensures RoleByKey(old(roles), key).Some? ==>
                id.None? && roles == old(roles) && rolePermissions == old(rolePermissions) && nextId == old(nextId)
      ensures RoleByKey(old(roles), key).None? ==>
                && id == Some(old(nextId)) && nextId == old(nextId) + 1
                && roles == old(roles)[old(nextId) := Role(key, name, false)]
                && rolePermissions == Without(old(rolePermissions), old(nextId)) + Paired(old(nextId), perms)
    {
      if r :| r in roles && roles[r].key == key {
        return None;
      }
      id := Some(nextId);
      roles, nextId := roles[nextId := Role(key, name, false)], nextId + 1;
      ReplaceRolePermissions(id.value, perms);
    }

    method UpdateRole(id: Id, name: string, perms: set<Permission>) returns (found: bool)
      modifies `roles, `rolePermissions
      ensures found <==> id in old(roles) && !old(roles)[id].isSystem
      ensures !found ==> roles == old(roles) && rolePermissions == old(rolePermissions)
      ensures found ==> roles == old(roles)[id := old(roles)[id].(name := name)]
                        && rolePermissions == Without(old(rolePermissions), id) + Paired(id, perms)
    {
      found := id in roles && !roles[id].isSystem;
      if found {
        roles := roles[id := roles[id].(name := name)];
        ReplaceRolePermissions(id, perms);
      }
    }

    /** RESTRICT on user_roles; the deletion cascades to role_permissions and invitations. */
    method DeleteRole(id: Id) returns (failure: Option<Error>)
      modifies `roles, `rolePermissions, `invitations
      ensures failure == if id !in old(roles) || old(roles)[id].isSystem then Some(NotFound)
                         else if exists u :: (u, id) in userRoles then Some(RoleInUse) else None
      ensures failure.Some? ==>
                roles == old(roles) && rolePermissions == old(rolePermissions) && invitations == old(invitations)
      ensures failure.None? ==>
                && roles == old(roles) - {id}
                && rolePermissions == Without(old(rolePermissions), id)
                && invitations == InvitationsElsewhere(old(invitations), id)
    {
      if id !in roles || roles[id].isSystem {
        return Some(NotFound);
      }
      if ur :| ur in userRoles && ur.1 == id {
        assert (ur.0, id) in userRoles;
        return Some(RoleInUse);
      }
      roles := roles - {id};
      rolePermissions := set g | g in rolePermissions && g.0 != id;
      invitations := invitations - (set i | i in invitations && invitations[i].roleId == id);
      return None;
    }

    /** The roles on the user's rows of user_roles, joined with their permissions. */
    method LoadUserRoles(userId: Id) returns (held: set<RoleView>)
      ensures held == RolesHeld(Snap(), userId)
    {
      hide RolesWithIds;
      var ids := {};
      var rest := userRoles;
      while rest != {}
        invariant rest <= userRoles
        invariant forall id :: id in ids <==> (userId, id) in userRoles - rest
        decreases rest
      {
        var ur :| ur in rest;
        rest := rest - {ur};
        if ur.0 == userId {
          ids := ids + {ur.1};
        }
      }
      assert ids == RoleIdsOf(Snap(), userId);
      var views := QueryRoles(Snap(), ids);
      held := set v | v in views;
    }

    /** Deletes, then inserts one row per role; an insert fails when the user or the role is missing. */
    method SetUserRoles(userId: Id, ids: set<Id>) returns (ok: bool)
      modifies `userRoles
      ensures ok <==> ids == {} || (userId in users && ids <= roles.Keys)
      ensures ok ==> userRoles == Without(old(userRoles), userId) + Paired(userId, ids)
    {
      userRoles := set ur | ur in userRoles && ur.0 != userId;
      var rest := ids;
      while rest != {}
        invariant rest <= ids
        invariant ids - rest != {} ==> userId in users
        invariant ids - rest <= roles.Keys
        invariant userRoles == Without(old(userRoles), userId) + Paired(userId, ids - rest)
        decreases rest
      {
        var id :| id in rest;
        if userId !in users || id !in roles {
          return false;
        }
        assert ids - (rest - {id}) == ids - rest + {id};
        userRoles, rest := userRoles + {(userId, id)}, rest - {id};
      }
      assert ids - rest == ids;
      return true;
    }

    method AddUserRole(userId: Id, roleId: Id) returns (ok: bool)
      modifies `userRoles
      ensures ok <==> userId in users && roleId in roles
      ensures userRoles == if ok then old(userRoles) + {(userId, roleId)} else old(userRoles)
    {
      ok := userId in users && roleId in roles;
      if ok {
        userRoles := userRoles + {(userId, roleId)};
      }
    }

    /** count(DISTINCT user_id) over user_roles joined with the system role of this key. */
    method CountUsersWithRole(key: string) returns (n: nat)
      ensures n == |Holders(Snap(), key)|
    {
      var users := {};
      var rest := userRoles;
      while rest != {}
        invariant rest <= userRoles
        invariant forall u :: u in users <==> exists r :: (u, r) in userRoles - rest && IsSystemRole(r, key)
        decreases rest
      {
        var ur :| ur in rest;
        assert userRoles - (rest - {ur}) == userRoles - rest + {ur};
        assert ur == (ur.0, ur.1);
        rest := rest - {ur};
        if IsSystemRole(ur.1, key) {
          users := users + {ur.0};
        }
      }
      assert userRoles - rest == userRoles;
      HoldersBySystemRole(key);
      assert users == Holders(Snap(), key);
      n := |users|;
    }

    /** The same, over the accounts that are active. */
    method CountActiveUsersWithRole(key: string) returns (n: nat)
      ensures n == |ActiveHolders(Snap(), key)|
    {
      var active := {};
      var rest := userRoles;
      while rest != {}
        invariant rest <= userRoles
        invariant forall u :: u in active <==>
                              && u in users && users[u].isActive
                              && exists r :: (u, r) in userRoles - rest && IsSystemRole(r, key)
        decreases rest
      {
        var ur :| ur in rest;
        assert userRoles - (rest - {ur}) == userRoles - rest + {ur};
        assert ur == (ur.0, ur.1);
        rest := rest - {ur};
        if IsSystemRole(ur.1, key) && ur.0 in users && users[ur.0].isActive {
          active := active + {ur.0};
        }
      }
      assert userRoles - rest == userRoles;
      HoldersBySystemRole(key);
      assert active == ActiveHolders(Snap(), key);
      n := |active|;
    }

    predicate IsSystemRole(id: Id, key: string)
      reads this
    {
      id in roles && roles[id].isSystem && roles[id].key == key
    }

    lemma HoldersBySystemRole(key: string)
      ensures forall u :: u in Holders(Snap(), key) <==> exists r :: (u, r) in userRoles && IsSystemRole(r, key)
    {
      forall u, r | (u, r) in userRoles && IsSystemRole(r, key) ensures u in Holders(Snap(), key) {
        assert HoldsRole(Snap(), (u, r).0, key);
      }
    }

    // -------------------------------------------------------------- API keys

    method CreateApiKey(userId: Id, name: string, perms: set<Permission>, expiresAt: Option<Time>)
      returns (id: Option<Id>)
      modifies `apiKeys, `keyPermissions, `nextId
      ensures userId !in users ==>
                id.None? && apiKeys == old(apiKeys) && keyPermissions == old(keyPermissions) && nextId == old(nextId)
      ensures userId in users ==>
                && id == Some(old(nextId)) && nextId == old(nextId) + 2
                && apiKeys == old(apiKeys)[old(nextId) := ApiKey(userId, name, old(nextId) + 1, expiresAt, None)]
                && keyPermissions == old(keyPermissions) + Paired(old(nextId), perms)
    {
      if userId !in users {
        return None;
      }
      var key := nextId;
      id := Some(key);
      apiKeys, nextId := apiKeys[key := ApiKey(userId, name, key + 1, expiresAt, None)], key + 2;
      var rest := perms;
      while rest != {}
        invariant rest <= perms
        invariant keyPermissions == old(keyPermissions) + Paired(key, perms - rest)
        decreases rest
        modifies `keyPermissions
      {
        var p :| p in rest;
        assert perms - (rest - {p}) == perms - rest + {p};
        keyPermissions, rest := keyPermissions + {(key, p)}, rest - {p};
      }
      assert perms - rest == perms;
    }

    method RevokeApiKey(now: Time, id: Id) returns (found: bool)
      modifies `apiKeys
      ensures found <==> id in old(apiKeys) && old(apiKeys)[id].revokedAt.None?
      ensures apiKeys == if found then old(apiKeys)[id := old(apiKeys)[id].(revokedAt := Some(now))] else old(apiKeys)
    {
      found := id in apiKeys && apiKeys[id].revokedAt.None?;
      if found {
        apiKeys := apiKeys[id := apiKeys[id].(revokedAt := Some(now))];
      }
    }

    method AuthenticateApiKey(now: Time, token: Digest) returns (reply: Reply)
      requires Valid()
      ensures reply == Transactions.AuthenticateApiKey(Snap(), now, token)
      ensures reply == Failed(Unauthenticated) || reply.KeyAccepted?
      ensures reply.KeyAccepted? <==>
              exists k :: k in apiKeys && apiKeys[k].token == token
                          && apiKeys[k].revokedAt.None?
                          && (apiKeys[k].expiresAt.None? || apiKeys[k].expiresAt.value > now)
                          && apiKeys[k].userId in users && users[apiKeys[k].userId].isActive
      ensures forall k :: reply.KeyAccepted? && k in apiKeys && apiKeys[k].token == token ==>
                && k == reply.keyId && apiKeys[k].userId == reply.userId
                && forall p :: p in reply.scope <==> (k, p) in keyPermissions
    {
      hide UsersOk, RolesOk, SeedsOk, GrantsOk, AssignmentsOk, InvitationsOk, OneOpenInvitation, SessionsOk, ResetsOk,
           VerificationsOk;
      if k :| k in apiKeys && apiKeys[k].token == token && KeyLive(apiKeys[k], now) && apiKeys[k].userId in users
              && users[apiKeys[k].userId].isActive {
        return KeyAccepted(k, apiKeys[k].userId, PermissionsOf(keyPermissions, k));
      }
      return Failed(Unauthenticated);
    }
  }
}
