/** Nobody hands out what they do not hold: when each granting transaction succeeds, over the rows of the tables, and
    what anybody can do afterwards. */
module Granting {
  import opened Prelude
  import opened Permissions
  import opened Tables
  import opened Transactions
  import opened SerialMachine
  import opened Constraints
  import opened Frames
  import opened LastAdmin
  import opened RoleStructure

  /** Every permission any of these roles grants is one of `held`. */
  ghost predicate GrantsWithin(grants: set<(Id, Permission)>, ids: set<Id>, held: set<Permission>) {
    forall g :: g in grants && g.0 in ids ==> g.1 in held
  }

  lemma UnionWithin(t: Tables, ids: set<Id>, held: set<Permission>)
    requires ids <= t.roles.Keys
    ensures UnionPermissions(RolesWithIds(t, ids)) <= held <==>
            GrantsWithin(t.rolePermissions, ids, held)
  {
    if UnionPermissions(RolesWithIds(t, ids)) <= held {
      forall g | g in t.rolePermissions && g.0 in ids ensures g.1 in held {
        assert RoleAt(t, g.0) in RolesWithIds(t, ids) && g.1 in RoleAt(t, g.0).permissions;
      }
    }
  }

  lemma RoleWithin(grants: set<(Id, Permission)>, id: Id, held: set<Permission>)
    ensures PermissionsOf(grants, id) <= held <==> GrantsWithin(grants, {id}, held)
  {}

  // ---------------------------------------------------------------- assignments

  /** Somebody other than `target` holds the admin role. */
  ghost predicate AnotherAdmin(t: Tables, target: Id) {
    exists u :: u != target && (u, ADMIN_ID) in t.userRoles
  }

  lemma CountedAdmins(t: Tables, target: Id)
    requires Consistent(t) && (target, ADMIN_ID) in t.userRoles
    ensures |Holders(t, ADMIN_KEY)| > 1 <==> AnotherAdmin(t, target)
  {
    hide Consistent, Holders;
    HoldersAre(t);
    var holders := Holders(t, ADMIN_KEY);
    if |holders| > 1 {
      var v := AnotherRemains(holders, target);
      assert v != target && (v, ADMIN_ID) in t.userRoles;
    }
    if v :| v != target && (v, ADMIN_ID) in t.userRoles {
      TwoMembers(holders, target, v);
    }
  }

  /** Admin authority: a superuser's, or that of somebody who holds the admin role. */
  ghost predicate MayTouchAdmins(access: Access) {
    access.viaSuperuser || HasRole(access.roles, ADMIN_KEY)
  }

  /** What an assignment on an administrator needs beyond the permissions. */
  ghost predicate MayTouchAdmin(t: Tables, access: Access, target: Id, ids: seq<Id>) {
    MayTouchAdmins(access) && (ADMIN_ID in ids || AnotherAdmin(t, target))
  }

  /** SetUserRoles succeeds exactly if every id is a role, the caller holds whatever those roles grant, an administrator
      is touched only with admin authority and not as the last one, and the target is there to be assigned to. A missing
      role is reported first, then escalation, whoever the target is; and how many administrators there are only to
      somebody with admin authority. A refusal changes nothing; a success gives the target exactly the roles asked for
      and leaves everybody else's alone. */
  lemma AssignmentAnswers(t: Tables, actor: Id, access: Access, target: Id, ids: seq<Id>)
    requires Consistent(t)
    ensures var o := SetUserRoles(t, actor, access, target, ids);
            var known := forall id :: id in ids ==> id in t.roles;
            var held := GrantsWithin(t.rolePermissions, (set id | id in ids), access.permissions);
            && (o.reply == Done <==>
                  && known && held
                  && ((target, ADMIN_ID) in t.userRoles ==> MayTouchAdmin(t, access, target, ids))
                  && (ids == [] || target in t.users))
            && (!known <==> o.reply == Failed(NotFound))
            && (known && !held <==> o.reply == Failed(Escalation))
            && (known && held && (target, ADMIN_ID) in t.userRoles && !MayTouchAdmins(access) <==>
                  o.reply == Failed(Forbidden))
            && (o.reply == Failed(LastAdmin) ==> MayTouchAdmins(access))
            && (o.reply != Done ==> o.t == t && o.entry == None)
            && (o.reply == Done ==>
                  && o.t == t.(userRoles := o.t.userRoles)
                  && forall u, r :: (u, r) in o.t.userRoles <==>
                       if u == target then r in ids else (u, r) in t.userRoles)
  {
    hide Consistent, Holders, UnionPermissions, RolesWithIds, RolesHeld, HasRole, RoleKeys, GrantsWithin, AnotherAdmin;
    var wanted := Distinct(ids);
    AdminIsSeeded(t, target);
    AdminAmong(t, wanted);
    if wanted <= t.roles.Keys {
      UnionWithin(t, wanted, access.permissions);
    }
    if (target, ADMIN_ID) in t.userRoles {
      CountedAdmins(t, target);
    }
    assert ids != [] ==> ids[0] in wanted;
  }

  // ---------------------------------------------------------------- the other grants

  /** Invite succeeds exactly for an existing role whose permissions the caller holds and an address without an
      account. */
  lemma InviteAnswers(t: Tables, now: Time, actor: Id, access: Access, email: string, roleId: Id, ttl: int, ok: bool)
    requires Consistent(t) && actor in t.users
    ensures var o := Invite(t, now, actor, access, email, roleId, ttl, ok);
            var held := GrantsWithin(t.rolePermissions, {roleId}, access.permissions);
            && (o.reply.NewRow? <==>
                  ok && roleId in t.roles && held && forall u :: u in t.users ==> t.users[u].email != email)
            && (ok && roleId in t.roles && !held <==> o.reply == Failed(Escalation))
            && (!o.reply.NewRow? ==> o.t == t && o.entry == None)
  {
    hide Consistent, OpenInvitationsRevoked, GrantsWithin, PermissionsOf;
    RoleWithin(t.rolePermissions, roleId, access.permissions);
    NoneLeftOpen(t.invitations, email, now);
  }

  lemma NoneLeftOpen(invitations: map<Id, Invitation>, email: string, now: Time)
    ensures var revoked := OpenInvitationsRevoked(invitations, email, now);
            forall i :: i in revoked && revoked[i].email == email ==> !revoked[i].Open()
  {}

  /** A custom role is created only from permissions the caller holds, catalogued and at least one, under an unused key;
      and then it grants exactly those. */
  lemma CreateRoleAnswers(t: Tables, actor: Id, access: Access, key: string, name: string, perms: seq<Permission>,
                          ok: bool)
    requires Consistent(t)
    ensures var o := CreateRole(t, actor, access, key, name, perms, ok);
            var valid := ok && perms != [] && forall p :: p in perms ==> p in CATALOG;
            var held := forall p :: p in perms ==> p in access.permissions;
            && (o.reply.NewRow? <==> valid && held && forall r :: r in t.roles ==> t.roles[r].key != key)
            && (valid && !held <==> o.reply == Failed(Escalation))
            && (!o.reply.NewRow? ==> o.t == t && o.entry == None)
            && (o.reply.NewRow? ==>
                  forall r, p :: (r, p) in o.t.rolePermissions <==>
                    if r == o.reply.id then p in perms else (r, p) in t.rolePermissions)
  {
    hide Consistent;
  }

  /** A key is minted only from permissions the caller holds, and carries exactly those. */
  lemma CreateKeyAnswers(t: Tables, now: Time, actor: Id, access: Access, name: string, perms: seq<Permission>,
                         expiresAt: Option<Time>, ok: bool)
    requires Consistent(t) && actor in t.users
    ensures var o := CreateApiKey(t, now, actor, access, name, perms, expiresAt, ok);
            var valid := ok && perms != [] && (forall p :: p in perms ==> p in CATALOG)
                         && (expiresAt.None? || expiresAt.value > now);
            var held := forall p :: p in perms ==> p in access.permissions;
            && (o.reply.NewRow? <==> valid && held)
            && (valid && !held <==> o.reply == Failed(Escalation))
            && (!o.reply.NewRow? ==> o.t == t && o.entry == None)
            && (o.reply.NewRow? ==>
                  forall k, p :: (k, p) in o.t.keyPermissions <==>
                    if k == o.reply.id then p in perms else (k, p) in t.keyPermissions)
  {
    hide Consistent;
    ScopesBelow(t);
  }

  lemma ScopesBelow(t: Tables)
    requires Consistent(t)
    ensures forall k, p :: (k, p) in t.keyPermissions ==> k < t.nextId
  {
    hide UsersOk, RolesOk, SeedsOk, AssignmentsOk, InvitationsOk, OneOpenInvitation, SessionsOk, ResetsOk,
         VerificationsOk;
  }

  /** A role is rewritten only by a caller who holds both what it grants and what it will grant. */
  lemma UpdateAnswers(t: Tables, actor: Id, access: Access, id: Id, name: string, perms: seq<Permission>, ok: bool)
    requires Consistent(t)
    ensures var o := UpdateRole(t, actor, access, id, name, perms, ok);
            var held := forall p :: p in perms ==> p in access.permissions;
            && (o.reply == Done <==>
                  && ok && perms != [] && (forall p :: p in perms ==> p in CATALOG) && held
                  && id in t.roles && !t.roles[id].isSystem
                  && GrantsWithin(t.rolePermissions, {id}, access.permissions))
            && (o.reply == Failed(SystemRole) ==> held && id in t.roles && t.roles[id].isSystem)
            && (ok && perms != [] && (forall p :: p in perms ==> p in CATALOG) && !held ==>
                  o.reply == Failed(Escalation))
            && (o.reply != Done ==> o.t == t && o.entry == None)
            && (o.reply == Done ==>
                  forall g :: g in o.t.rolePermissions <==>
                    if g.0 == id then g.1 in perms else g in t.rolePermissions)
  {
    hide Consistent, GrantsWithin, PermissionsOf;
    RoleWithin(t.rolePermissions, id, access.permissions);
  }

  /** A deletion is refused in this order: no such role, a system role, one that grants more than the caller holds, one
      that somebody holds. */
  lemma DeleteAnswers(t: Tables, actor: Id, access: Access, id: Id)
    requires Consistent(t)
    ensures var o := DeleteRole(t, actor, access, id);
            var held := GrantsWithin(t.rolePermissions, {id}, access.permissions);
            && (id !in t.roles <==> o.reply == Failed(NotFound))
            && (id in t.roles && t.roles[id].isSystem <==> o.reply == Failed(SystemRole))
            && (id in t.roles && !t.roles[id].isSystem && !held <==> o.reply == Failed(Escalation))
            && (id in t.roles && !t.roles[id].isSystem && held && (exists u :: (u, id) in t.userRoles) <==>
                  o.reply == Failed(RoleInUse))
            && (o.reply != Done ==> o.t == t && o.entry == None)
  {
    hide Consistent, GrantsWithin, PermissionsOf, Without, InvitationsElsewhere;
    RoleWithin(t.rolePermissions, id, access.permissions);
  }

  // ---------------------------------------------------------------- what anybody can do after one step

  /** The authority a command is taken with: none for the commands that hand nothing out. */
  ghost function HandsOut(c: Command): set<Permission> {
    match c
    case CUpdateRole(_, access, _, _, _, _) => access.permissions
    case CSetUserRoles(_, access, _, _) => access.permissions
    case CInvite(_, access, _, _, _, _) => access.permissions
    case CCreateRole(_, access, _, _, _, _) => access.permissions
    case CCreateApiKey(_, access, _, _, _, _) => access.permissions
    case _ => {}
  }

  lemma AssignedWithin(t: Tables, actor: Id, access: Access, target: Id, ids: seq<Id>, u: Id, p: Permission)
    requires Consistent(t) && p in EffectivePermissions(SetUserRoles(t, actor, access, target, ids).t, u)
    ensures p in EffectivePermissions(t, u) || p in access.permissions
  {
    hide Consistent, SetUserRoles, EffectivePermissions;
    var after := SetUserRoles(t, actor, access, target, ids).t;
    AssignmentAnswers(t, actor, access, target, ids);
    EffectiveIff(t, u, p);
    EffectiveIff(after, u, p);
    var r :| (u, r) in after.userRoles && r in after.roles && (r, p) in after.rolePermissions;
    assert (r, p).0 == r && (r, p).1 == p;
  }

  lemma UpdatedWithin(t: Tables, actor: Id, access: Access, id: Id, name: string, perms: seq<Permission>, ok: bool,
                      u: Id, p: Permission)
    requires Consistent(t) && p in EffectivePermissions(UpdateRole(t, actor, access, id, name, perms, ok).t, u)
    ensures p in EffectivePermissions(t, u) || p in access.permissions
  {
    hide Consistent, EffectivePermissions, PermissionsOf, AllCatalogued;
    UpdateAnswers(t, actor, access, id, name, perms, ok);
    var after := UpdateRole(t, actor, access, id, name, perms, ok).t;
    EffectiveIff(t, u, p);
    EffectiveIff(after, u, p);
    var r :| (u, r) in after.userRoles && r in after.roles && (r, p) in after.rolePermissions;
    assert (r, p).0 == r && (r, p).1 == p;
  }

  lemma NewRoleIsNobodys(t: Tables, actor: Id, access: Access, key: string, name: string, perms: seq<Permission>,
                         ok: bool, u: Id, p: Permission)
    requires Consistent(t) && p in EffectivePermissions(CreateRole(t, actor, access, key, name, perms, ok).t, u)
    ensures p in EffectivePermissions(t, u)
  {
    hide UsersOk, SeedsOk, GrantsOk, InvitationsOk, OneOpenInvitation, KeysOk, SessionsOk, ResetsOk, VerificationsOk,
         EffectivePermissions, PermissionSet, AllCatalogued;
    var after := CreateRole(t, actor, access, key, name, perms, ok).t;
    EffectiveIff(t, u, p);
    EffectiveIff(after, u, p);
  }

  /** Over any one step over HTTP, nobody who had an account gains a permission the caller did not hold, and a step that
      is no grant gives nobody anything. */
  lemma NobodyGainsBeyondTheCaller(t: Tables, now: Time, c: Command, u: Id)
    requires Consistent(t) && u in t.users && !c.FromShell()
    ensures EffectivePermissions(Step(t, now, c).t, u) <= EffectivePermissions(t, u) + HandsOut(c)
  {
    hide Consistent, EffectivePermissions, CreateRole, UpdateRole, DeleteRole, SetUserRoles, AcceptInvitation, Register,
         Login, ChangePassword, SetUserActive, Invite, CreateApiKey, RequestPasswordReset, ResetPassword,
         SendVerification, VerifyEmail, Prune, AuthenticateSession, AuthenticateApiKey, LiveSessionsOf;
    forall p | p in EffectivePermissions(Step(t, now, c).t, u)
      ensures p in EffectivePermissions(t, u) + HandsOut(c)
    {
      if !WritesAuthority(c) {
        SameAuthoritySamePermissions(t, now, c, u);
      } else {
        match c
        case CAcceptInvitation(token, hash, ok) => AcceptingChangesNobodyElse(t, now, token, hash, ok, u);
        case CCreateRole(actor, access, key, name, perms, ok) =>
          NewRoleIsNobodys(t, actor, access, key, name, perms, ok, u, p);
        case CUpdateRole(actor, access, id, name, perms, ok) =>
          UpdatedWithin(t, actor, access, id, name, perms, ok, u, p);
        case CDeleteRole(actor, access, id) =>
          if DeleteRole(t, actor, access, id).reply == Done {
            DeleteRoleStripsNobody(t, actor, access, id, u);
          } else {
            RefusedDeletion(t, actor, access, id);
          }
        case CSetUserRoles(actor, access, target, ids) => AssignedWithin(t, actor, access, target, ids, u, p);
      }
    }
  }

  lemma RefusedDeletion(t: Tables, actor: Id, access: Access, id: Id)
    requires DeleteRole(t, actor, access, id).reply != Done
    ensures DeleteRole(t, actor, access, id).t == t
  {}

  lemma SameAuthoritySamePermissions(t: Tables, now: Time, c: Command, u: Id)
    requires !WritesAuthority(c)
    ensures EffectivePermissions(Step(t, now, c).t, u) == EffectivePermissions(t, u)
  {
    hide Step, EffectivePermissions;
    RolesFrame(t, now, c);
    GrantsFrame(t, now, c);
    AssignmentsFrame(t, now, c);
    var after := Step(t, now, c).t;
    forall p ensures p in EffectivePermissions(after, u) <==> p in EffectivePermissions(t, u) {
      EffectiveIff(t, u, p);
      EffectiveIff(after, u, p);
    }
  }

  lemma AcceptingChangesNobodyElse(t: Tables, now: Time, token: Digest, hash: string, ok: bool, u: Id)
    requires Consistent(t) && u in t.users
    ensures EffectivePermissions(AcceptInvitation(t, now, token, hash, ok).t, u) == EffectivePermissions(t, u)
  {
    hide Consistent, EffectivePermissions, UserByEmail, OfferedInvitation;
    UserIdsBelow(t, u);
    var after := AcceptInvitation(t, now, token, hash, ok).t;
    forall p ensures p in EffectivePermissions(after, u) <==> p in EffectivePermissions(t, u) {
      EffectiveIff(t, u, p);
      EffectiveIff(after, u, p);
    }
  }

  /** And whoever accepts an invitation can do exactly what the offered role grants. */
  lemma AcceptedHoldsTheOffer(t: Tables, now: Time, token: Digest, hash: string, ok: bool, i: Id)
    requires Consistent(t) && i in t.invitations && t.invitations[i].token == token
    requires AcceptInvitation(t, now, token, hash, ok).reply.NewRow?
    ensures var o := AcceptInvitation(t, now, token, hash, ok);
            EffectivePermissions(o.t, o.reply.id) == PermissionsOf(t.rolePermissions, t.invitations[i].roleId)
  {
    hide SeedsOk, GrantsOk, OneOpenInvitation, KeysOk, SessionsOk, ResetsOk, VerificationsOk, UserByEmail,
         EffectivePermissions;
    var o := AcceptInvitation(t, now, token, hash, ok);
    forall p ensures p in EffectivePermissions(o.t, o.reply.id) <==>
                     (t.invitations[i].roleId, p) in t.rolePermissions {
      EffectiveIff(o.t, o.reply.id, p);
      assert forall r :: (t.nextId, r) !in t.userRoles;
    }
  }
}
