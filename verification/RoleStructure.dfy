/** What stays fixed about roles, and what deleting one can and cannot change. */
module RoleStructure {
  import opened Prelude
  import opened Permissions
  import opened Tables
  import opened Transactions
  import opened SerialMachine
  import opened Constraints
  import opened Frames

  /** What a user can do: the union of the roles they hold. */
  ghost function EffectivePermissions(t: Tables, userId: Id): set<Permission> {
    UnionPermissions(RolesHeld(t, userId))
  }

  lemma EffectiveIff(t: Tables, userId: Id, p: Permission)
    ensures p in EffectivePermissions(t, userId) <==>
            exists r :: (userId, r) in t.userRoles && r in t.roles && (r, p) in t.rolePermissions
  {
    if r :| (userId, r) in t.userRoles && r in t.roles && (r, p) in t.rolePermissions {
      assert RoleAt(t, r) in RolesHeld(t, userId);
    }
  }

  /** A role id below `next` that still exists means the same role as before. */
  ghost predicate SameRoles(a: map<Id, Role>, b: map<Id, Role>, next: nat) {
    forall r :: r in b && r < next ==> r in a && b[r].key == a[r].key && b[r].isSystem == a[r].isSystem
  }

  /** `u` comes after `t`: ids only grow, and a role id known in `t` still means the same role, if it exists at all. */
  ghost predicate SameRoleIds(t: Tables, u: Tables) {
    t.nextId <= u.nextId && SameRoles(t.roles, u.roles, t.nextId)
  }

  lemma RoleStatements(roles: map<Id, Role>, next: nat, id: Id, name: string, role: Role)
    ensures SameRoles(roles, roles, next) && SameRoles(roles, roles[next := role], next)
    ensures SameRoles(roles, roles - {id}, next)
    ensures id in roles ==> SameRoles(roles, roles[id := roles[id].(name := name)], next)
  {}

  lemma EditsKeepRoleIds(t: Tables, actor: Id, id: Id, key: string, name: string, before: set<Permission>,
                         perms: set<Permission>)
    ensures SameRoleIds(t, RewriteRole(t, actor, id, name, before, perms).t)
    ensures SameRoleIds(t, RemoveRole(t, actor, id, key).t)
    ensures SameRoleIds(t, InsertRole(t, actor, key, name, perms).t)
  {
    hide SameRoles, Without, Paired, InvitationsElsewhere, RoleByKey;
    RoleStatements(t.roles, t.nextId, id, name, Role(key, name, false));
  }

  lemma StepKeepsRoleIds(t: Tables, now: Time, c: Command)
    requires Consistent(t)
    ensures SameRoleIds(t, Step(t, now, c).t)
  {
    hide Consistent, SameRoles, RewriteRole, RemoveRole, InsertRole, AllCatalogued, PermissionSet, UserByEmail,
         RoleByKey, OfferedInvitation, HasRole, UnionPermissions, RolesHeld, RolesWithIds, Holders, RoleKeys;
    IdsGrow(t, now, c);
    RoleStatements(t.roles, t.nextId, 0, [], Role([], [], false));
    if !c.CCreateRole? && !c.CUpdateRole? && !c.CDeleteRole? {
      OnlyThreeWriteRoles(t, now, c);
    } else if c.CCreateRole? {
      EditsKeepRoleIds(t, c.actor, 0, c.key, c.name, {}, PermissionSet(c.perms));
    } else if c.CUpdateRole? {
      EditsKeepRoleIds(t, c.actor, c.roleId, [], c.name, PermissionsOf(t.rolePermissions, c.roleId),
                       PermissionSet(c.perms));
    } else if c.roleId in t.roles {
      EditsKeepRoleIds(t, c.actor, c.roleId, t.roles[c.roleId].key, [], {}, {});
    }
  }

  lemma OnlyThreeWriteRoles(t: Tables, now: Time, c: Command)
    requires !c.CCreateRole? && !c.CUpdateRole? && !c.CDeleteRole?
    ensures Step(t, now, c).t.roles == t.roles
  {
    hide UserByEmail, RoleByKey, OfferedInvitation, HasRole, UnionPermissions, RolesHeld, RolesWithIds, Holders,
         RoleKeys, Without, Paired, Distinct, Register, Login, Logout, RevokeSession, ChangePassword, SetUserActive,
         SetSuperuser, Invite, RevokeInvitation, CreateApiKey, RevokeApiKey, RequestPasswordReset, ResetPassword,
         SendVerification, VerifyEmail, Prune, AuthenticateSession, AuthenticateApiKey, LiveSessionsOf;
    if !WritesAuthority(c) {
      RolesFrame(t, now, c);
    }
  }

  /** Over every run, a role id never changes its key or kind and is never given to another role. */
  lemma {:induction false} RoleIdsAreStable(t: Tables, es: seq<Event>)
    requires Consistent(t)
    ensures SameRoleIds(t, Run(t, es))
    decreases |es|
  {
    hide Consistent, Step;
    if es != [] {
      StepKeepsRoleIds(t, es[0].now, es[0].command);
      StepConsistent(t, es[0].now, es[0].command);
      RoleIdsAreStable(Step(t, es[0].now, es[0].command).t, es[1..]);
    }
  }

  /** In every state reachable from the seed: the two system roles keep their key and permissions and no other role is
      one, role keys are unique, and no grant, assignment or invitation refers to a missing row. */
  lemma StructureHoldsForever(es: seq<Event>)
    ensures var t := Run(SEED, es);
            && ADMIN_ID in t.roles && t.roles[ADMIN_ID].key == ADMIN_KEY
            && PermissionsOf(t.rolePermissions, ADMIN_ID) == CATALOG
            && MEMBER_ID in t.roles && t.roles[MEMBER_ID].key == MEMBER_KEY
            && PermissionsOf(t.rolePermissions, MEMBER_ID) == {UsersRead}
            && (forall r :: r in t.roles && t.roles[r].isSystem ==> r == ADMIN_ID || r == MEMBER_ID)
            && (forall r, q :: r in t.roles && q in t.roles && t.roles[r].key == t.roles[q].key ==> r == q)
            && (forall r, p :: (r, p) in t.rolePermissions ==> r in t.roles && p in CATALOG)
            && (forall u, r :: (u, r) in t.userRoles ==> u in t.users && r in t.roles)
            && (forall i :: i in t.invitations ==>
                  t.invitations[i].roleId in t.roles && t.invitations[i].invitedBy in t.users)
  {
    hide Consistent, Run;
    SeedConsistent();
    RunConsistent(SEED, es);
    Unfolded(Run(SEED, es));
  }

  /** A deletion succeeds exactly when the role is custom, held by nobody, and within the caller's authority. */
  lemma DeleteRoleSucceeds(t: Tables, actor: Id, access: Access, id: Id)
    requires Consistent(t)
    ensures DeleteRole(t, actor, access, id).reply == Done <==>
            && id in t.roles && !t.roles[id].isSystem
            && PermissionsOf(t.rolePermissions, id) <= access.permissions
            && forall u :: u in t.users ==> (u, id) !in t.userRoles
    ensures DeleteRole(t, actor, access, id).reply == Failed(RoleInUse) ==> exists u :: (u, id) in t.userRoles
  {
    hide UsersOk, RolesOk, SeedsOk, GrantsOk, InvitationsOk, OneOpenInvitation, KeysOk, SessionsOk, ResetsOk,
         VerificationsOk;
  }

  /** A successful deletion changes nobody's roles or permissions; besides the role and its grants it removes exactly
      the invitations that offered it. */
  lemma DeleteRoleStripsNobody(t: Tables, actor: Id, access: Access, id: Id, userId: Id)
    requires Consistent(t) && DeleteRole(t, actor, access, id).reply == Done
    ensures var after := DeleteRole(t, actor, access, id).t;
            && RolesHeld(after, userId) == RolesHeld(t, userId)
            && EffectivePermissions(after, userId) == EffectivePermissions(t, userId)
            && after.roles.Keys == t.roles.Keys - {id}
            && after.invitations.Keys == (set i | i in t.invitations && t.invitations[i].roleId != id)
  {
    hide UsersOk, RolesOk, SeedsOk, GrantsOk, InvitationsOk, OneOpenInvitation, KeysOk, SessionsOk, ResetsOk,
         VerificationsOk, UnionPermissions;
    var after := DeleteRole(t, actor, access, id).t;
    forall r | r in RoleIdsOf(t, userId) && r in t.roles
      ensures r in after.roles && RoleAt(after, r) == RoleAt(t, r)
    {
      assert PermissionsOf(after.rolePermissions, r) == PermissionsOf(t.rolePermissions, r);
    }
    assert RoleIdsOf(after, userId) == RoleIdsOf(t, userId);
    assert RolesHeld(after, userId) == RolesHeld(t, userId);
  }

  /** Rewriting a role does change people: exactly its holders gain the new set in place of the old. */
  lemma UpdateRoleReachesHolders(t: Tables, actor: Id, access: Access, id: Id, name: string, perms: seq<Permission>,
                                 userId: Id, p: Permission)
    requires Consistent(t) && UpdateRole(t, actor, access, id, name, perms, true).reply == Done
    ensures var after := UpdateRole(t, actor, access, id, name, perms, true).t;
            p in EffectivePermissions(after, userId) <==>
              || ((userId, id) in t.userRoles && p in perms)
              || exists r :: r != id && (userId, r) in t.userRoles && r in t.roles && (r, p) in t.rolePermissions
  {
    hide Consistent, EffectivePermissions;
    EffectiveIff(UpdateRole(t, actor, access, id, name, perms, true).t, userId, p);
  }
}
