/** What the schema's constraints and the services together keep true of every reachable state. */
module Constraints {
  import opened Prelude
  import opened Permissions
  import opened Tables
  import opened Transactions
  import opened SerialMachine

  ghost predicate UsersOk(users: map<Id, User>, next: nat) {
    && (forall u :: u in users ==> u < next)
    && (forall u, v :: u in users && v in users && users[u].email == users[v].email ==> u == v)
  }

  ghost predicate RolesOk(roles: map<Id, Role>, next: nat) {
    && (forall r :: r in roles ==> r < next)
    && (forall r, q :: r in roles && q in roles && roles[r].key == roles[q].key ==> r == q)
  }

  /** The two system roles are exactly as seeded, and they are the only system roles. */
  ghost predicate SeedsOk(roles: map<Id, Role>, grants: set<(Id, Permission)>) {
    && ADMIN_ID in roles && roles[ADMIN_ID].key == ADMIN_KEY && roles[ADMIN_ID].isSystem
    && MEMBER_ID in roles && roles[MEMBER_ID].key == MEMBER_KEY && roles[MEMBER_ID].isSystem
    && (forall r :: r in roles && roles[r].isSystem ==> r == ADMIN_ID || r == MEMBER_ID)
    && PermissionsOf(grants, ADMIN_ID) == CATALOG
    && PermissionsOf(grants, MEMBER_ID) == {UsersRead}
  }

  ghost predicate GrantsOk(grants: set<(Id, Permission)>, owners: set<Id>) {
    forall r, p :: (r, p) in grants ==> r in owners && p in CATALOG
  }

  ghost predicate AssignmentsOk(userRoles: set<(Id, Id)>, users: set<Id>, roles: set<Id>) {
    forall u, r :: (u, r) in userRoles ==> u in users && r in roles
  }

  ghost predicate InvitationsOk(invitations: map<Id, Invitation>, users: set<Id>, roles: set<Id>, next: nat) {
    && (forall i :: i in invitations ==>
          && i < next && invitations[i].token < next
          && invitations[i].roleId in roles && invitations[i].invitedBy in users)
    && (forall i, j :: i in invitations && j in invitations && invitations[i].token == invitations[j].token ==> i == j)
  }

  /** invitations_pending_email_idx. */
  ghost predicate OneOpenInvitation(invitations: map<Id, Invitation>) {
    forall i, j | i in invitations && j in invitations && invitations[i].Open() && invitations[j].Open() ::
      invitations[i].email == invitations[j].email ==> i == j
  }

  ghost predicate KeysOk(keys: map<Id, ApiKey>, users: set<Id>, next: nat) {
    && (forall k :: k in keys ==> k < next && keys[k].token < next && keys[k].userId in users)
    && (forall k, j :: k in keys && j in keys && keys[k].token == keys[j].token ==> k == j)
  }

  ghost predicate SessionsOk(sessions: map<Id, Session>, users: set<Id>, next: nat) {
    && (forall s :: s in sessions ==> s < next && sessions[s].token < next && sessions[s].userId in users)
    && (forall s, r :: s in sessions && r in sessions && sessions[s].token == sessions[r].token ==> s == r)
  }

  ghost predicate ResetsOk(resets: map<Id, Reset>, users: set<Id>, next: nat) {
    && (forall i :: i in resets ==> i < next && resets[i].token < next && resets[i].userId in users)
    && (forall i, j :: i in resets && j in resets && resets[i].token == resets[j].token ==> i == j)
  }

  ghost predicate VerificationsOk(vs: map<Id, Verification>, users: set<Id>, next: nat) {
    && (forall i :: i in vs ==> i < next && vs[i].token < next && vs[i].userId in users)
    && (forall i, j :: i in vs && j in vs && vs[i].token == vs[j].token ==> i == j)
  }

  ghost predicate Consistent(t: Tables) {
    && UsersOk(t.users, t.nextId)
    && RolesOk(t.roles, t.nextId)
    && SeedsOk(t.roles, t.rolePermissions)
    && GrantsOk(t.rolePermissions, t.roles.Keys)
    && AssignmentsOk(t.userRoles, t.users.Keys, t.roles.Keys)
    && InvitationsOk(t.invitations, t.users.Keys, t.roles.Keys, t.nextId)
    && OneOpenInvitation(t.invitations)
    && KeysOk(t.apiKeys, t.users.Keys, t.nextId)
    && GrantsOk(t.keyPermissions, t.apiKeys.Keys)
    && SessionsOk(t.sessions, t.users.Keys, t.nextId)
    && ResetsOk(t.resets, t.users.Keys, t.nextId)
    && VerificationsOk(t.verifications, t.users.Keys, t.nextId)
  }

  lemma SeedConsistent()
    ensures Consistent(SEED)
  {
    assert PermissionsOf(SEED.rolePermissions, ADMIN_ID) == CATALOG by {
      forall p ensures (ADMIN_ID, p) in SEED.rolePermissions <==> p in CATALOG {}
    }
    assert PermissionsOf(SEED.rolePermissions, MEMBER_ID) == {UsersRead};
  }

  // ---------------------------------------------------------------- one statement at a time

  /** Rows that only refer to users stay well formed while users and ids grow. */
  lemma RowsKeptAsUsersGrow(t: Tables, users: set<Id>, next: nat)
    requires Consistent(t) && t.users.Keys <= users && t.nextId <= next
    ensures RolesOk(t.roles, next)
    ensures AssignmentsOk(t.userRoles, users, t.roles.Keys)
    ensures InvitationsOk(t.invitations, users, t.roles.Keys, next)
    ensures KeysOk(t.apiKeys, users, next)
    ensures SessionsOk(t.sessions, users, next)
    ensures ResetsOk(t.resets, users, next)
    ensures VerificationsOk(t.verifications, users, next)
  {
    hide SeedsOk, GrantsOk, OneOpenInvitation, UsersOk;
  }

  lemma RowsKeptAsRolesGrow(t: Tables, roles: set<Id>, next: nat)
    requires Consistent(t) && t.roles.Keys <= roles && t.nextId <= next
    ensures UsersOk(t.users, next)
    ensures AssignmentsOk(t.userRoles, t.users.Keys, roles)
    ensures InvitationsOk(t.invitations, t.users.Keys, roles, next)
    ensures KeysOk(t.apiKeys, t.users.Keys, next)
    ensures SessionsOk(t.sessions, t.users.Keys, next)
    ensures ResetsOk(t.resets, t.users.Keys, next)
    ensures VerificationsOk(t.verifications, t.users.Keys, next)
  {
    hide SeedsOk, GrantsOk, OneOpenInvitation, RolesOk;
  }

  lemma UserInserted(t: Tables, user: User)
    requires Consistent(t) && UserByEmail(t.users, user.email).None?
    ensures Consistent(t.(users := t.users[t.nextId := user], nextId := t.nextId + 1))
  {
    hide RolesOk, SeedsOk, GrantsOk, AssignmentsOk, InvitationsOk, OneOpenInvitation, KeysOk, SessionsOk, ResetsOk,
         VerificationsOk;
    var users := t.users[t.nextId := user];
    RowsKeptAsUsersGrow(t, users.Keys, t.nextId + 1);
    assert UsersOk(users, t.nextId + 1);
  }

  lemma UserUpdated(t: Tables, id: Id, user: User)
    requires Consistent(t) && id in t.users && user.email == t.users[id].email
    ensures Consistent(t.(users := t.users[id := user]))
  {
    hide RolesOk, SeedsOk, GrantsOk, AssignmentsOk, InvitationsOk, OneOpenInvitation, KeysOk, SessionsOk, ResetsOk,
         VerificationsOk;
    assert t.users[id := user].Keys == t.users.Keys;
  }

  lemma SessionInserted(t: Tables, userId: Id, expiresAt: Time)
    requires Consistent(t) && userId in t.users
    ensures Consistent(t.(sessions := t.sessions[t.nextId := Session(userId, t.nextId + 1, expiresAt, None)],
                          nextId := t.nextId + 2))
  {
    hide UsersOk, RolesOk, SeedsOk, GrantsOk, AssignmentsOk, InvitationsOk, OneOpenInvitation, KeysOk, ResetsOk,
         VerificationsOk;
    RowsKeptAsUsersGrow(t, t.users.Keys, t.nextId + 2);
    RowsKeptAsRolesGrow(t, t.roles.Keys, t.nextId + 2);
  }

  lemma SessionsUpdated(t: Tables, sessions: map<Id, Session>)
    requires Consistent(t) && sessions.Keys <= t.sessions.Keys
    requires forall i :: i in sessions ==>
               sessions[i].userId == t.sessions[i].userId && sessions[i].token == t.sessions[i].token
    ensures Consistent(t.(sessions := sessions))
  {}

  lemma ResetInserted(t: Tables, userId: Id, expiresAt: Time)
    requires Consistent(t) && userId in t.users
    ensures Consistent(t.(resets := t.resets[t.nextId := Reset(userId, t.nextId + 1, expiresAt, None)],
                          nextId := t.nextId + 2))
  {
    hide UsersOk, RolesOk, SeedsOk, GrantsOk, AssignmentsOk, InvitationsOk, OneOpenInvitation, KeysOk, SessionsOk,
         VerificationsOk;
    RowsKeptAsUsersGrow(t, t.users.Keys, t.nextId + 2);
    RowsKeptAsRolesGrow(t, t.roles.Keys, t.nextId + 2);
  }

  lemma ResetsUpdated(t: Tables, resets: map<Id, Reset>)
    requires Consistent(t) && resets.Keys <= t.resets.Keys
    requires forall i :: i in resets ==> resets[i].userId == t.resets[i].userId && resets[i].token == t.resets[i].token
    ensures Consistent(t.(resets := resets))
  {}

  lemma VerificationInserted(t: Tables, userId: Id, email: string, expiresAt: Time)
    requires Consistent(t) && userId in t.users
    ensures Consistent(t.(verifications := t.verifications[t.nextId :=
                            Verification(userId, email, t.nextId + 1, expiresAt, None)],
                          nextId := t.nextId + 2))
  {
    hide UsersOk, RolesOk, SeedsOk, GrantsOk, AssignmentsOk, InvitationsOk, OneOpenInvitation, KeysOk, SessionsOk,
         ResetsOk;
    RowsKeptAsUsersGrow(t, t.users.Keys, t.nextId + 2);
    RowsKeptAsRolesGrow(t, t.roles.Keys, t.nextId + 2);
  }

  lemma VerificationsUpdated(t: Tables, vs: map<Id, Verification>)
    requires Consistent(t) && vs.Keys <= t.verifications.Keys
    requires forall i :: i in vs ==>
               vs[i].userId == t.verifications[i].userId && vs[i].token == t.verifications[i].token
    ensures Consistent(t.(verifications := vs))
  {}

  lemma InvitationInserted(t: Tables, email: string, roleId: Id, actor: Id, expiresAt: Time)
    requires Consistent(t) && roleId in t.roles && actor in t.users
    requires forall i :: i in t.invitations && t.invitations[i].Open() ==> t.invitations[i].email != email
    ensures Consistent(t.(invitations := t.invitations[t.nextId :=
                            Invitation(email, roleId, actor, t.nextId + 1, expiresAt, None, None)],
                          nextId := t.nextId + 2))
  {
    hide UsersOk, RolesOk, SeedsOk, GrantsOk, AssignmentsOk, KeysOk, SessionsOk, ResetsOk, VerificationsOk;
    RowsKeptAsRolesGrow(t, t.roles.Keys, t.nextId + 2);
    RowsKeptAsUsersGrow(t, t.users.Keys, t.nextId + 2);
  }

  lemma InvitationsUpdated(t: Tables, invitations: map<Id, Invitation>)
    requires Consistent(t) && invitations.Keys <= t.invitations.Keys
    requires forall i :: i in invitations ==>
               && invitations[i].email == t.invitations[i].email && invitations[i].roleId == t.invitations[i].roleId
               && invitations[i].invitedBy == t.invitations[i].invitedBy
               && invitations[i].token == t.invitations[i].token
               && (invitations[i].Open() ==> t.invitations[i].Open())
    ensures Consistent(t.(invitations := invitations))
  {
    hide UsersOk, RolesOk, SeedsOk, GrantsOk, AssignmentsOk, KeysOk, SessionsOk, ResetsOk, VerificationsOk;
  }

  lemma RolesAssigned(t: Tables, userRoles: set<(Id, Id)>)
    requires Consistent(t) && AssignmentsOk(userRoles, t.users.Keys, t.roles.Keys)
    ensures Consistent(t.(userRoles := userRoles))
  {}

  lemma KeyInserted(t: Tables, actor: Id, name: string, expiresAt: Option<Time>, perms: set<Permission>)
    requires Consistent(t) && actor in t.users && perms <= CATALOG
    ensures Consistent(t.(apiKeys := t.apiKeys[t.nextId := ApiKey(actor, name, t.nextId + 1, expiresAt, None)],
                          keyPermissions := t.keyPermissions + Paired(t.nextId, perms), nextId := t.nextId + 2))
  {
    hide UsersOk, RolesOk, SeedsOk, AssignmentsOk, InvitationsOk, OneOpenInvitation, SessionsOk, ResetsOk,
         VerificationsOk;
    RowsKeptAsUsersGrow(t, t.users.Keys, t.nextId + 2);
    RowsKeptAsRolesGrow(t, t.roles.Keys, t.nextId + 2);
  }

  lemma KeyRevoked(t: Tables, id: Id, now: Time)
    requires Consistent(t) && id in t.apiKeys
    ensures Consistent(t.(apiKeys := t.apiKeys[id := t.apiKeys[id].(revokedAt := Some(now))]))
  {
    assert t.apiKeys[id := t.apiKeys[id].(revokedAt := Some(now))].Keys == t.apiKeys.Keys;
  }

  lemma CustomRoleInserted(roles: map<Id, Role>, grants: set<(Id, Permission)>, id: Id, key: string, name: string,
                           perms: set<Permission>)
    requires RolesOk(roles, id) && SeedsOk(roles, grants) && GrantsOk(grants, roles.Keys) && perms <= CATALOG
    requires RoleByKey(roles, key).None?
    ensures RolesOk(roles[id := Role(key, name, false)], id + 1)
    ensures SeedsOk(roles[id := Role(key, name, false)], Without(grants, id) + Paired(id, perms))
    ensures GrantsOk(Without(grants, id) + Paired(id, perms), roles[id := Role(key, name, false)].Keys)
  {
    var after := Without(grants, id) + Paired(id, perms);
    forall r | r != id ensures PermissionsOf(after, r) == PermissionsOf(grants, r) {
      assert forall p :: (r, p) in after <==> (r, p) in grants;
    }
  }

  lemma InsertRoleConsistent(t: Tables, actor: Id, key: string, name: string, perms: set<Permission>)
    requires Consistent(t) && perms <= CATALOG
    ensures Consistent(InsertRole(t, actor, key, name, perms).t)
  {
    hide UsersOk, RolesOk, SeedsOk, GrantsOk, AssignmentsOk, InvitationsOk, KeysOk, SessionsOk, ResetsOk,
         VerificationsOk, OneOpenInvitation;
    if RoleByKey(t.roles, key).None? {
      CustomRoleInserted(t.roles, t.rolePermissions, t.nextId, key, name, perms);
      RowsKeptAsRolesGrow(t, t.roles[t.nextId := Role(key, name, false)].Keys, t.nextId + 1);
    }
  }

  lemma CustomRoleRewritten(roles: map<Id, Role>, grants: set<(Id, Permission)>, next: nat, id: Id, name: string,
                            perms: set<Permission>)
    requires RolesOk(roles, next) && SeedsOk(roles, grants) && GrantsOk(grants, roles.Keys) && perms <= CATALOG
    requires id in roles && !roles[id].isSystem
    ensures RolesOk(roles[id := roles[id].(name := name)], next)
    ensures SeedsOk(roles[id := roles[id].(name := name)], Without(grants, id) + Paired(id, perms))
    ensures GrantsOk(Without(grants, id) + Paired(id, perms), roles.Keys)
    ensures roles[id := roles[id].(name := name)].Keys == roles.Keys
  {
    var after := Without(grants, id) + Paired(id, perms);
    forall r | r != id ensures PermissionsOf(after, r) == PermissionsOf(grants, r) {
      assert forall p :: (r, p) in after <==> (r, p) in grants;
    }
    assert roles[id := roles[id].(name := name)].Keys == roles.Keys;
  }

  lemma CustomRoleRemoved(roles: map<Id, Role>, grants: set<(Id, Permission)>, next: nat, id: Id)
    requires RolesOk(roles, next) && SeedsOk(roles, grants) && GrantsOk(grants, roles.Keys)
    requires id in roles && !roles[id].isSystem
    ensures RolesOk(roles - {id}, next)
    ensures SeedsOk(roles - {id}, Without(grants, id))
    ensures GrantsOk(Without(grants, id), (roles - {id}).Keys)
  {
    var after := Without(grants, id);
    forall r | r != id ensures PermissionsOf(after, r) == PermissionsOf(grants, r) {
      assert forall p :: (r, p) in after <==> (r, p) in grants;
    }
  }

  /** The rows that refer to roles, once nothing refers to role `id`. */
  lemma RowsElsewhere(t: Tables, id: Id)
    requires Consistent(t) && !exists u :: (u, id) in t.userRoles
    ensures AssignmentsOk(t.userRoles, t.users.Keys, (t.roles - {id}).Keys)
    ensures InvitationsOk(InvitationsElsewhere(t.invitations, id), t.users.Keys, (t.roles - {id}).Keys, t.nextId)
    ensures OneOpenInvitation(InvitationsElsewhere(t.invitations, id))
  {
    hide UsersOk, RolesOk, SeedsOk, GrantsOk, KeysOk, SessionsOk, ResetsOk, VerificationsOk;
  }

  lemma RewriteRoleConsistent(t: Tables, actor: Id, id: Id, name: string, before: set<Permission>,
                              perms: set<Permission>)
    requires Consistent(t) && perms <= CATALOG
    ensures Consistent(RewriteRole(t, actor, id, name, before, perms).t)
  {
    hide UsersOk, RolesOk, SeedsOk, GrantsOk, AssignmentsOk, InvitationsOk, OneOpenInvitation, KeysOk, SessionsOk,
         ResetsOk, VerificationsOk;
    if id in t.roles && !t.roles[id].isSystem {
      CustomRoleRewritten(t.roles, t.rolePermissions, t.nextId, id, name, perms);
    }
  }

  lemma RemoveRoleConsistent(t: Tables, actor: Id, id: Id, key: string)
    requires Consistent(t)
    ensures Consistent(RemoveRole(t, actor, id, key).t)
  {
    hide UsersOk, RolesOk, SeedsOk, GrantsOk, AssignmentsOk, InvitationsOk, OneOpenInvitation, KeysOk, SessionsOk,
         ResetsOk, VerificationsOk;
    if id in t.roles && !t.roles[id].isSystem && !exists u :: (u, id) in t.userRoles {
      CustomRoleRemoved(t.roles, t.rolePermissions, t.nextId, id);
      RowsElsewhere(t, id);
    }
  }

  // ---------------------------------------------------------------- one transaction at a time

  lemma RegisterConsistent(t: Tables, email: string, hash: string, ok: bool)
    requires Consistent(t)
    ensures Consistent(Register(t, email, hash, ok).t)
  {
    hide Consistent;
    if UserByEmail(t.users, email).None? {
      UserInserted(t, User(email, Some(hash), false, true, None));
    }
  }

  lemma LoginConsistent(t: Tables, now: Time, email: string, verdict: Verdict, upgrade: Option<string>, ttl: int)
    requires Consistent(t)
    ensures Consistent(Login(t, now, email, verdict, upgrade, ttl).t)
  {
    hide Consistent;
    var found := UserByEmail(t.users, email);
    if found.Some? {
      var user := t.users[found.value].(passwordHash := upgrade);
      UserUpdated(t, found.value, user);
      SessionInserted(t, found.value, now + ttl);
      SessionInserted(t.(users := t.users[found.value := user]), found.value, now + ttl);
    }
  }

  lemma SessionsRevokedConsistent(t: Tables, now: Time, userId: Id, token: Digest, id: Id)
    requires Consistent(t)
    ensures Consistent(t.(sessions := UserSessionsRevoked(t.sessions, userId, now)))
    ensures Consistent(t.(sessions := TokenRevoked(t.sessions, token, now)))
    ensures id in t.sessions ==>
              Consistent(t.(sessions := t.sessions[id := t.sessions[id].(revokedAt := Some(now))]))
  {
    hide Consistent;
    SessionsUpdated(t, UserSessionsRevoked(t.sessions, userId, now));
    SessionsUpdated(t, TokenRevoked(t.sessions, token, now));
    if id in t.sessions {
      SessionsUpdated(t, t.sessions[id := t.sessions[id].(revokedAt := Some(now))]);
    }
  }

  lemma ChangePasswordConsistent(t: Tables, now: Time, userId: Id, verdict: Verdict, hash: string, ok: bool)
    requires Consistent(t)
    ensures Consistent(ChangePassword(t, now, userId, verdict, hash, ok).t)
  {
    hide Consistent;
    if userId in t.users {
      var user := t.users[userId].(passwordHash := Some(hash));
      UserUpdated(t, userId, user);
      SessionsRevokedConsistent(t.(users := t.users[userId := user]), now, userId, 0, 0);
    }
  }

  lemma SetUserActiveConsistent(t: Tables, now: Time, actor: Id, superuser: bool, target: Id, active: bool)
    requires Consistent(t)
    ensures Consistent(SetUserActive(t, now, actor, superuser, target, active).t)
  {
    hide Consistent, HoldsRole, ActiveHolders;
    if target in t.users {
      var user := t.users[target].(isActive := active);
      UserUpdated(t, target, user);
      SessionsRevokedConsistent(t.(users := t.users[target := user]), now, target, 0, 0);
    }
  }

  lemma ShellConsistent(t: Tables, email: string, flag: bool, key: string, ok: bool)
    requires Consistent(t)
    ensures Consistent(SetSuperuser(t, email, flag, ok).t)
    ensures Consistent(GrantRoleByKey(t, email, key, ok).t)
  {
    hide Consistent;
    var found, role := UserByEmail(t.users, email), RoleByKey(t.roles, key);
    if found.Some? {
      UserUpdated(t, found.value, t.users[found.value].(isSuperuser := flag));
      if role.Some? {
        assert AssignmentsOk(t.userRoles, t.users.Keys, t.roles.Keys) by {
          Unfolded(t);
        }
        RolesAssigned(t, t.userRoles + {(found.value, role.value)});
      }
    }
  }

  /** Brings the parts of `Consistent` into a proof that hides its definition. */
  lemma Unfolded(t: Tables)
    requires Consistent(t)
    ensures UsersOk(t.users, t.nextId) && RolesOk(t.roles, t.nextId) && SeedsOk(t.roles, t.rolePermissions)
    ensures GrantsOk(t.rolePermissions, t.roles.Keys) && GrantsOk(t.keyPermissions, t.apiKeys.Keys)
    ensures AssignmentsOk(t.userRoles, t.users.Keys, t.roles.Keys)
    ensures InvitationsOk(t.invitations, t.users.Keys, t.roles.Keys, t.nextId) && OneOpenInvitation(t.invitations)
  {}

  lemma IssueInvitationConsistent(t: Tables, now: Time, actor: Id, email: string, roleId: Id, key: string, ttl: int)
    requires Consistent(t)
    ensures Consistent(IssueInvitation(t, now, actor, email, roleId, key, ttl).t)
  {
    hide Consistent;
    var revoked := t.(invitations := OpenInvitationsRevoked(t.invitations, email, now));
    InvitationsUpdated(t, revoked.invitations);
    if roleId in t.roles && actor in t.users {
      InvitationInserted(revoked, email, roleId, actor, now + ttl);
    }
  }

  lemma RevokeInvitationConsistent(t: Tables, now: Time, actor: Id, id: Id)
    requires Consistent(t)
    ensures Consistent(RevokeInvitation(t, now, actor, id).t)
  {
    hide Consistent;
    if id in t.invitations {
      InvitationsUpdated(t, t.invitations[id := t.invitations[id].(revokedAt := Some(now))]);
    }
  }

  lemma RedeemInvitationConsistent(t: Tables, now: Time, id: Id, hash: string)
    requires Consistent(t) && id in t.invitations
    ensures Consistent(RedeemInvitation(t, now, id, hash).t)
  {
    hide Consistent;
    var inv := t.invitations[id];
    if UserByEmail(t.users, inv.email).None? && inv.roleId in t.roles {
      var user := User(inv.email, Some(hash), false, true, Some(now));
      var t1 := t.(users := t.users[t.nextId := user], nextId := t.nextId + 1);
      UserInserted(t, user);
      assert AssignmentsOk(t1.userRoles + {(t.nextId, inv.roleId)}, t1.users.Keys, t1.roles.Keys) by {
        Unfolded(t1);
      }
      RolesAssigned(t1, t1.userRoles + {(t.nextId, inv.roleId)});
      var t2 := t1.(userRoles := t1.userRoles + {(t.nextId, inv.roleId)});
      InvitationsUpdated(t2, t.invitations[id := inv.(acceptedAt := Some(now))]);
    }
  }

  lemma AssignRolesConsistent(t: Tables, actor: Id, target: Id, ids: set<Id>, before: set<string>, after: set<string>)
    requires Consistent(t)
    ensures Consistent(AssignRoles(t, actor, target, ids, before, after).t)
  {
    hide Consistent;
    Unfolded(t);
    if AssignmentsOk(Without(t.userRoles, target) + Paired(target, ids), t.users.Keys, t.roles.Keys) {
      RolesAssigned(t, Without(t.userRoles, target) + Paired(target, ids));
    }
  }

  lemma CreateApiKeyConsistent(t: Tables, now: Time, actor: Id, access: Access, name: string, perms: seq<Permission>,
                               expiresAt: Option<Time>, ok: bool)
    requires Consistent(t)
    ensures Consistent(CreateApiKey(t, now, actor, access, name, perms, expiresAt, ok).t)
  {
    hide Consistent;
    if actor in t.users && AllCatalogued(perms) {
      KeyInserted(t, actor, name, expiresAt, PermissionSet(perms));
    }
  }

  lemma RequestPasswordResetConsistent(t: Tables, now: Time, email: string, ttl: int)
    requires Consistent(t)
    ensures Consistent(RequestPasswordReset(t, now, email, ttl).t)
  {
    hide Consistent;
    var found := UserByEmail(t.users, email);
    if found.Some? {
      ResetsUpdated(t, UserResetsSpent(t.resets, found.value, now));
      ResetInserted(t.(resets := UserResetsSpent(t.resets, found.value, now)), found.value, now + ttl);
    }
  }

  lemma FinishResetConsistent(t: Tables, now: Time, id: Id, hash: string)
    requires Consistent(t) && id in t.resets
    ensures Consistent(FinishReset(t, now, id, hash).t)
  {
    hide Consistent;
    var userId := t.resets[id].userId;
    if userId in t.users {
      var user := t.users[userId].(passwordHash := Some(hash));
      UserUpdated(t, userId, user);
      var t1 := t.(users := t.users[userId := user]);
      SessionsRevokedConsistent(t1, now, userId, 0, 0);
      ResetsUpdated(t1.(sessions := UserSessionsRevoked(t.sessions, userId, now)),
                    UserResetsSpent(t.resets, userId, now));
    }
  }

  lemma SendVerificationConsistent(t: Tables, now: Time, userId: Id, ttl: int)
    requires Consistent(t)
    ensures Consistent(SendVerification(t, now, userId, ttl).t)
  {
    hide Consistent;
    if userId in t.users {
      var vs := UserVerificationsSpent(t.verifications, userId, now);
      VerificationsUpdated(t, vs);
      VerificationInserted(t.(verifications := vs), userId, t.users[userId].email, now + ttl);
    }
  }

  lemma SendToConsistent(t: Tables, now: Time, userId: Id, handed: User, ttl: int)
    requires Consistent(t)
    ensures Consistent(SendTo(t, now, userId, handed, ttl).t)
  {
    hide Consistent;
    if userId in t.users {
      var vs := UserVerificationsSpent(t.verifications, userId, now);
      VerificationsUpdated(t, vs);
      VerificationInserted(t.(verifications := vs), userId, handed.email, now + ttl);
    }
  }

  lemma FinishVerificationConsistent(t: Tables, now: Time, id: Id)
    requires Consistent(t) && id in t.verifications
    ensures Consistent(FinishVerification(t, now, id).t)
  {
    hide Consistent;
    var v := t.verifications[id];
    if v.userId in t.users {
      var user := t.users[v.userId].(verifiedAt := Some(now));
      UserUpdated(t, v.userId, user);
      VerificationsUpdated(t.(users := t.users[v.userId := user]), t.verifications[id := v.(usedAt := Some(now))]);
    }
  }

  lemma PruneConsistent(t: Tables, now: Time, retain: int)
    requires Consistent(t)
    ensures Consistent(Prune(t, now, retain))
  {
    hide Consistent;
    var t1 := t.(sessions := SessionsPruned(t.sessions, now, retain));
    SessionsUpdated(t, t1.sessions);
    var t2 := t1.(resets := ResetsPruned(t.resets, now, retain));
    ResetsUpdated(t1, t2.resets);
    VerificationsUpdated(t2, VerificationsPruned(t.verifications, now, retain));
  }

  lemma InvitationFlowConsistent(t: Tables, now: Time, actor: Id, access: Access, email: string, roleId: Id, ttl: int,
                                 token: Digest, hash: string, ok: bool)
    requires Consistent(t)
    ensures Consistent(Invite(t, now, actor, access, email, roleId, ttl, ok).t)
    ensures Consistent(AcceptInvitation(t, now, token, hash, ok).t)
  {
    hide Consistent, IssueInvitation, RedeemInvitation;
    if roleId in t.roles {
      IssueInvitationConsistent(t, now, actor, email, roleId, t.roles[roleId].key, ttl);
    }
    var found := OfferedInvitation(t, token);
    if found.Some? {
      RedeemInvitationConsistent(t, now, found.value, hash);
    }
  }

  lemma RoleFlowConsistent(t: Tables, actor: Id, access: Access, id: Id, key: string, name: string,
                           perms: seq<Permission>, ok: bool)
    requires Consistent(t)
    ensures Consistent(CreateRole(t, actor, access, key, name, perms, ok).t)
    ensures Consistent(UpdateRole(t, actor, access, id, name, perms, ok).t)
    ensures Consistent(DeleteRole(t, actor, access, id).t)
  {
    hide Consistent, InsertRole, RewriteRole, RemoveRole;
    if AllCatalogued(perms) {
      InsertRoleConsistent(t, actor, key, name, PermissionSet(perms));
      RewriteRoleConsistent(t, actor, id, name, PermissionsOf(t.rolePermissions, id), PermissionSet(perms));
    }
    if id in t.roles {
      RemoveRoleConsistent(t, actor, id, t.roles[id].key);
    }
  }

  lemma SetUserRolesConsistent(t: Tables, actor: Id, access: Access, target: Id, ids: seq<Id>)
    requires Consistent(t)
    ensures Consistent(SetUserRoles(t, actor, access, target, ids).t)
  {
    hide Consistent, AssignRoles, HasRole, UnionPermissions;
    var wanted := Distinct(ids);
    AssignRolesConsistent(t, actor, target, wanted, RoleKeys(RolesHeld(t, target)), RoleKeys(RolesWithIds(t, wanted)));
  }

  lemma TokenFlowConsistent(t: Tables, now: Time, token: Digest, hash: string, ok: bool)
    requires Consistent(t)
    ensures Consistent(ResetPassword(t, now, token, hash, ok).t)
    ensures Consistent(VerifyEmail(t, now, token).t)
  {
    hide Consistent, FinishReset, FinishVerification;
    var found := SpendableReset(t.resets, token, now);
    if found.Some? {
      FinishResetConsistent(t, now, found.value, hash);
    }
    var v := SpendableVerification(t.verifications, token, now);
    if v.Some? {
      FinishVerificationConsistent(t, now, v.value);
    }
  }

  lemma AuthorityStepConsistent(t: Tables, now: Time, c: Command)
    requires Consistent(t)
    requires c.CInvite? || c.CRevokeInvitation? || c.CAcceptInvitation? || c.CCreateRole? || c.CUpdateRole?
             || c.CDeleteRole? || c.CSetUserRoles? || c.CCreateApiKey? || c.CRevokeApiKey?
    ensures Consistent(Step(t, now, c).t)
  {
    hide Consistent, Register, Login, ChangePassword, SetUserActive, SetSuperuser, GrantRoleByKey, Invite,
         RevokeInvitation, AcceptInvitation, CreateRole, UpdateRole, DeleteRole, SetUserRoles, CreateApiKey,
         RequestPasswordReset, ResetPassword, SendVerification, VerifyEmail, Prune;
    match c
    case CInvite(actor, access, email, roleId, ttl, ok) =>
      InvitationFlowConsistent(t, now, actor, access, email, roleId, ttl, 0, [], ok);
    case CRevokeInvitation(actor, id) => RevokeInvitationConsistent(t, now, actor, id);
    case CAcceptInvitation(token, hash, ok) =>
      InvitationFlowConsistent(t, now, 0, SuperuserAccess(), [], 0, 0, token, hash, ok);
    case CCreateRole(actor, access, key, name, perms, ok) =>
      RoleFlowConsistent(t, actor, access, 0, key, name, perms, ok);
    case CUpdateRole(actor, access, id, name, perms, ok) =>
      RoleFlowConsistent(t, actor, access, id, [], name, perms, ok);
    case CDeleteRole(actor, access, id) => RoleFlowConsistent(t, actor, access, id, [], [], [], false);
    case CSetUserRoles(actor, access, target, ids) => SetUserRolesConsistent(t, actor, access, target, ids);
    case CCreateApiKey(actor, access, name, perms, expiresAt, ok) =>
      CreateApiKeyConsistent(t, now, actor, access, name, perms, expiresAt, ok);
    case CRevokeApiKey(actor, id) =>
      if id in t.apiKeys {
        KeyRevoked(t, id, now);
      }
  }

  lemma StepConsistent(t: Tables, now: Time, c: Command)
    requires Consistent(t)
    ensures Consistent(Step(t, now, c).t)
  {
    hide Consistent, Register, Login, ChangePassword, SetUserActive, SetSuperuser, GrantRoleByKey, Invite,
         RevokeInvitation, AcceptInvitation, CreateRole, UpdateRole, DeleteRole, SetUserRoles, CreateApiKey,
         RequestPasswordReset, ResetPassword, SendVerification, VerifyEmail, Prune;
    match c
    case CRegister(email, hash, ok) => RegisterConsistent(t, email, hash, ok);
    case CLogin(email, verdict, upgrade, ttl) => LoginConsistent(t, now, email, verdict, upgrade, ttl);
    case CLogout(token, userId) => SessionsRevokedConsistent(t, now, userId, token, 0);
    case CRevokeSession(actor, id) => SessionsRevokedConsistent(t, now, actor, 0, id);
    case CChangePassword(userId, verdict, hash, ok) => ChangePasswordConsistent(t, now, userId, verdict, hash, ok);
    case CSetUserActive(actor, superuser, target, active) =>
      SetUserActiveConsistent(t, now, actor, superuser, target, active);
    case CSetSuperuser(email, flag, ok) => ShellConsistent(t, email, flag, [], ok);
    case CGrantRoleByKey(email, key, ok) => ShellConsistent(t, email, false, key, ok);
    case CRequestPasswordReset(email, ttl) => RequestPasswordResetConsistent(t, now, email, ttl);
    case CResetPassword(token, hash, ok) => TokenFlowConsistent(t, now, token, hash, ok);
    case CSendVerification(userId, ttl) => SendVerificationConsistent(t, now, userId, ttl);
    case CVerifyEmail(token) => TokenFlowConsistent(t, now, token, [], true);
    case CPrune(retain) => PruneConsistent(t, now, retain);
    case CAuthenticate(_) =>
    case CAuthenticateKey(_) =>
    case CListSessions(_) =>
    case _ => AuthorityStepConsistent(t, now, c);
  }

  /** Every reachable state is consistent. */
  lemma {:induction false} RunConsistent(t: Tables, es: seq<Event>)
    requires Consistent(t)
    ensures Consistent(Run(t, es))
    decreases |es|
  {
    if es != [] {
      StepConsistent(t, es[0].now, es[0].command);
      RunConsistent(Step(t, es[0].now, es[0].command).t, es[1..]);
    }
  }
}
