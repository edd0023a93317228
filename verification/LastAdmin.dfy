/** The administrators of an installation: who holds the admin role, and when a holder must remain.
    These are statements about serialised transactions: the service counts and then writes. */
module LastAdmin {
  import opened Prelude
  import opened Permissions
  import opened Tables
  import opened Transactions
  import opened SerialMachine
  import opened Constraints
  import opened Frames

  /** In a consistent state the admin role is the seeded one, so holding it is one row of user_roles. */
  lemma AdminIsSeeded(t: Tables, userId: Id)
    requires Consistent(t)
    ensures HoldsRole(t, userId, ADMIN_KEY) <==> (userId, ADMIN_ID) in t.userRoles
    ensures userId in Holders(t, ADMIN_KEY) <==> (userId, ADMIN_ID) in t.userRoles
    ensures HasRole(RolesHeld(t, userId), ADMIN_KEY) <==> (userId, ADMIN_ID) in t.userRoles
  {
    hide UsersOk, InvitationsOk, OneOpenInvitation, KeysOk, SessionsOk, ResetsOk, VerificationsOk, GrantsOk;
    if (userId, ADMIN_ID) in t.userRoles {
      assert (userId, ADMIN_ID).0 in Holders(t, ADMIN_KEY);
      assert RoleAt(t, ADMIN_ID) in RolesHeld(t, userId);
    }
  }

  /** Resolved roles contain the admin role exactly when its id was asked for. */
  lemma AdminAmong(t: Tables, ids: set<Id>)
    requires Consistent(t)
    ensures HasRole(RolesWithIds(t, ids), ADMIN_KEY) <==> ADMIN_ID in ids
  {
    hide UsersOk, InvitationsOk, OneOpenInvitation, KeysOk, SessionsOk, ResetsOk, VerificationsOk, GrantsOk,
         AssignmentsOk;
    if ADMIN_ID in ids {
      assert RoleAt(t, ADMIN_ID) in RolesWithIds(t, ids);
    }
  }

  lemma HoldersAre(t: Tables)
    requires Consistent(t)
    ensures forall u :: u in Holders(t, ADMIN_KEY) <==> (u, ADMIN_ID) in t.userRoles
  {
    hide Consistent;
    forall u ensures u in Holders(t, ADMIN_KEY) <==> (u, ADMIN_ID) in t.userRoles {
      AdminIsSeeded(t, u);
    }
  }

  /** Counting to one: a set with a second member keeps one when `x` is dropped. */
  lemma AnotherRemains(s: set<Id>, x: Id) returns (y: Id)
    requires |s| > 1
    ensures y in s && y != x
  {
    assert s != {x} && s != {};
    if x !in s {
      y :| y in s;
    } else {
      assert |s - {x}| == |s| - 1;
      y :| y in s - {x};
    }
  }

  /** The one-step effect of any command on who holds the admin role. */
  lemma AdminRowsAfter(t: Tables, now: Time, c: Command, u: Id)
    requires Consistent(t) && (u, ADMIN_ID) in t.userRoles
    requires (u, ADMIN_ID) !in Step(t, now, c).t.userRoles
    ensures c.CSetUserRoles? && c.target == u && ADMIN_ID !in c.ids && |Holders(t, ADMIN_KEY)| > 1
    ensures Step(t, now, c).t.userRoles == Without(t.userRoles, u) + Paired(u, Distinct(c.ids))
    ensures c.access.viaSuperuser || HasRole(c.access.roles, ADMIN_KEY)
    ensures Step(t, now, c).reply == Done
  {
    hide Consistent, UserByEmail, RoleByKey, OfferedInvitation, Holders, UnionPermissions, RolesHeld, HasRole, RoleKeys;
    if !WritesAuthority(c) {
      AssignmentsFrame(t, now, c);
    } else if c.CSetUserRoles? {
      AdminIsSeeded(t, c.target);
      AdminAmong(t, Distinct(c.ids));
    }
  }

  /** Nobody can strip the last holder, superusers and shell commands included. */
  lemma StepKeepsHolder(t: Tables, now: Time, c: Command)
    requires Consistent(t) && Holders(t, ADMIN_KEY) != {}
    ensures Holders(Step(t, now, c).t, ADMIN_KEY) != {}
  {
    hide Consistent, Step, Holders;
    HoldersAre(t);
    StepConsistent(t, now, c);
    HoldersAre(Step(t, now, c).t);
    var u :| u in Holders(t, ADMIN_KEY);
    if (u, ADMIN_ID) !in Step(t, now, c).t.userRoles {
      AdminRowsAfter(t, now, c, u);
      var v := AnotherRemains(Holders(t, ADMIN_KEY), u);
      assert v in Holders(Step(t, now, c).t, ADMIN_KEY);
    }
  }

  /** Once somebody holds the admin role, every later state has a holder. */
  lemma {:induction false} AnAdminAlwaysRemains(t: Tables, es: seq<Event>)
    requires Consistent(t) && Holders(t, ADMIN_KEY) != {}
    ensures Holders(Run(t, es), ADMIN_KEY) != {}
    decreases |es|
  {
    if es != [] {
      StepKeepsHolder(t, es[0].now, es[0].command);
      StepConsistent(t, es[0].now, es[0].command);
      AnAdminAlwaysRemains(Step(t, es[0].now, es[0].command).t, es[1..]);
    }
  }

  // ---------------------------------------------------------------- active administrators

  /** What SetUserRoles checks before it takes the admin role away from a holder. */
  ghost predicate StripAccepted(t: Tables, access: Access, ids: set<Id>) {
    && ids <= t.roles.Keys
    && UnionPermissions(RolesWithIds(t, ids)) <= access.permissions
    && (access.viaSuperuser || HasRole(access.roles, ADMIN_KEY))
    && |Holders(t, ADMIN_KEY)| > 1
  }

  /** The two ways of losing the last active administrator: a superuser switches that account off, or an accepted
      SetUserRoles strips it while another holder, necessarily inactive, still counts. */
  ghost predicate Strands(t: Tables, c: Command) {
    match c
    case CSetUserActive(actor, superuser, target, active) =>
      !active && superuser && actor != target && ActiveHolders(t, ADMIN_KEY) == {target}
    case CSetUserRoles(_, access, target, ids) =>
      ActiveHolders(t, ADMIN_KEY) == {target} && ADMIN_ID !in ids && StripAccepted(t, access, Distinct(ids))
    case _ => false
  }

  lemma ActiveHoldersAre(t: Tables)
    requires Consistent(t)
    ensures forall u :: u in ActiveHolders(t, ADMIN_KEY) <==>
                        (u, ADMIN_ID) in t.userRoles && u in t.users && t.users[u].isActive
  {
    hide Consistent, Holders;
    HoldersAre(t);
  }

  /** Deactivation: the check lets the last active holder go only for a superuser. */
  lemma DeactivationKeepsActiveHolder(t: Tables, now: Time, actor: Id, superuser: bool, target: Id, active: bool)
    requires Consistent(t) && ActiveHolders(t, ADMIN_KEY) != {}
    ensures ActiveHolders(SetUserActive(t, now, actor, superuser, target, active).t, ADMIN_KEY) != {} <==>
            !Strands(t, CSetUserActive(actor, superuser, target, active))
  {
    hide Consistent, Holders, HoldsRole, UserSessionsRevoked, ActiveHolders;
    var after := SetUserActive(t, now, actor, superuser, target, active).t;
    SetUserActiveConsistent(t, now, actor, superuser, target, active);
    ActiveHoldersAre(t);
    ActiveHoldersAre(after);
    AdminIsSeeded(t, target);
    var before := ActiveHolders(t, ADMIN_KEY);
    if before == {target} {
      assert |before| == 1;
    } else {
      var v :| v in before && v != target;
      assert v in ActiveHolders(after, ADMIN_KEY);
    }
  }

  /** Assignment: only an accepted strip of the last active holder leaves none. */
  lemma AssignmentKeepsActiveHolder(t: Tables, now: Time, c: Command)
    requires Consistent(t) && ActiveHolders(t, ADMIN_KEY) != {} && !c.CSetUserActive?
    ensures ActiveHolders(Step(t, now, c).t, ADMIN_KEY) != {} <==> !Strands(t, c)
  {
    hide Consistent, Step, ActiveHolders, StripAccepted, Holders;
    var after := Step(t, now, c).t;
    StepConsistent(t, now, c);
    ActiveHoldersAre(t);
    ActiveHoldersAre(after);
    forall u | u in t.users
      ensures u in after.users && after.users[u].isActive == t.users[u].isActive
    {
      UserIdsBelow(t, u);
      ActivityFrame(t, now, c, u);
    }
    if Strands(t, c) {
      StripSucceeds(t, now, c);
      NewAdminsAreNew(t, now, c);
    } else {
      var u :| u in ActiveHolders(t, ADMIN_KEY);
      if (u, ADMIN_ID) !in after.userRoles {
        AdminRowsAfter(t, now, c, u);
        StripNeedsAcceptance(t, now, c);
        var v :| v in ActiveHolders(t, ADMIN_KEY) && v != u;
        assert v in ActiveHolders(after, ADMIN_KEY);
      } else {
        assert u in ActiveHolders(after, ADMIN_KEY);
      }
    }
  }

  lemma UserIdsBelow(t: Tables, u: Id)
    requires Consistent(t) && u in t.users
    ensures u < t.nextId
  {}

  lemma StripSucceeds(t: Tables, now: Time, c: Command)
    requires Consistent(t) && c.CSetUserRoles? && Strands(t, c)
    ensures Step(t, now, c).t.userRoles == Without(t.userRoles, c.target) + Paired(c.target, Distinct(c.ids))
    ensures (c.target, ADMIN_ID) !in Step(t, now, c).t.userRoles
    ensures Step(t, now, c).t.users == t.users
  {
    hide Consistent, UnionPermissions, RolesHeld, HasRole, RoleKeys, Holders;
    ActiveHoldersAre(t);
    assert c.target in ActiveHolders(t, ADMIN_KEY);
  }

  lemma StripReply(t: Tables, now: Time, c: Command)
    requires Consistent(t) && c.CSetUserRoles? && Strands(t, c)
    ensures Step(t, now, c).reply == Done
  {
    hide Consistent, UnionPermissions, RolesHeld, HasRole, RoleKeys, Holders;
    ActiveHoldersAre(t);
    assert c.target in ActiveHolders(t, ADMIN_KEY);
  }

  lemma StripNeedsAcceptance(t: Tables, now: Time, c: Command)
    requires Consistent(t) && c.CSetUserRoles? && (c.target, ADMIN_ID) in t.userRoles
    requires (c.target, ADMIN_ID) !in Step(t, now, c).t.userRoles
    ensures StripAccepted(t, c.access, Distinct(c.ids))
  {
    hide Consistent, UnionPermissions, RolesHeld, HasRole, RoleKeys, Holders;
    AdminIsSeeded(t, c.target);
    AdminAmong(t, Distinct(c.ids));
  }

  /** SetUserRoles gives the admin role to nobody but its target. */
  lemma NewAdminsAreNew(t: Tables, now: Time, c: Command)
    requires c.CSetUserRoles?
    ensures forall u :: (u, ADMIN_ID) in Step(t, now, c).t.userRoles && u != c.target ==> (u, ADMIN_ID) in t.userRoles
  {
    hide UnionPermissions, RolesHeld, HasRole, RoleKeys, Holders;
  }

  /** One step keeps an active administrator exactly when it is not one of the two stranding steps. */
  lemma ActiveAdminKeptExactly(t: Tables, now: Time, c: Command)
    requires Consistent(t) && ActiveHolders(t, ADMIN_KEY) != {}
    ensures ActiveHolders(Step(t, now, c).t, ADMIN_KEY) != {} <==> !Strands(t, c)
  {
    hide Consistent, ActiveHolders, Strands, SetUserActive;
    if c.CSetUserActive? {
      DeactivationKeepsActiveHolder(t, now, c.actor, c.actorIsSuperuser, c.target, c.active);
    } else {
      AssignmentKeepsActiveHolder(t, now, c);
    }
  }

  /** No event of the run is a stranding step at the state it meets. */
  ghost predicate NeverStrands(t: Tables, es: seq<Event>)
    decreases |es|
  {
    es == [] || (!Strands(t, es[0].command) && NeverStrands(Step(t, es[0].now, es[0].command).t, es[1..]))
  }

  lemma {:induction false} AnActiveAdminRemains(t: Tables, es: seq<Event>)
    requires Consistent(t) && ActiveHolders(t, ADMIN_KEY) != {} && NeverStrands(t, es)
    ensures ActiveHolders(Run(t, es), ADMIN_KEY) != {}
    decreases |es|
  {
    hide Consistent, ActiveHolders, Strands, Step;
    if es != [] {
      ActiveAdminKeptExactly(t, es[0].now, es[0].command);
      StepConsistent(t, es[0].now, es[0].command);
      AnActiveAdminRemains(Step(t, es[0].now, es[0].command).t, es[1..]);
    }
  }

  /** No superuser deactivates, and every assignment lists the admin role or is on somebody who is no active
      administrator in the state it meets. */
  ghost predicate SparesAdmins(t: Tables, es: seq<Event>)
    decreases |es|
  {
    es == []
    || (&& (es[0].command.CSetUserActive? ==> es[0].command.active || !es[0].command.actorIsSuperuser)
        && (es[0].command.CSetUserRoles? ==>
              ADMIN_ID in es[0].command.ids || es[0].command.target !in ActiveHolders(t, ADMIN_KEY))
        && SparesAdmins(Step(t, es[0].now, es[0].command).t, es[1..]))
  }

  /** Such runs never strand, so they keep an active administrator. */
  lemma {:induction false} SparingRunsKeepAnActiveAdmin(t: Tables, es: seq<Event>)
    requires Consistent(t) && ActiveHolders(t, ADMIN_KEY) != {} && SparesAdmins(t, es)
    ensures NeverStrands(t, es) && ActiveHolders(Run(t, es), ADMIN_KEY) != {}
    decreases |es|
  {
    hide Consistent, Step, ActiveHolders, StripAccepted;
    if es != [] {
      assert !Strands(t, es[0].command);
      ActiveAdminKeptExactly(t, es[0].now, es[0].command);
      StepConsistent(t, es[0].now, es[0].command);
      SparingRunsKeepAnActiveAdmin(Step(t, es[0].now, es[0].command).t, es[1..]);
    }
  }

  // ---------------------------------------------------------------- steps without admin authority

  /** Assignments made with an Access that neither is a superuser's nor lists the admin role. Every API key acts with
      such an Access, an administrator's own key included, and so does a holder of an all-permission custom role. */
  ghost predicate WithoutAdminAuthority(c: Command) {
    c.CSetUserRoles? ==> !c.access.viaSuperuser && !HasRole(c.access.roles, ADMIN_KEY)
  }

  lemma StepLeavesAdminsAlone(t: Tables, now: Time, c: Command, u: Id)
    requires Consistent(t) && WithoutAdminAuthority(c) && (u, ADMIN_ID) in t.userRoles
    ensures RoleIdsOf(t, u) <= RoleIdsOf(Step(t, now, c).t, u)
    ensures !c.FromShell() ==> RoleIdsOf(Step(t, now, c).t, u) == RoleIdsOf(t, u)
  {
    hide Consistent, HoldsRole, UserByEmail, RoleByKey, OfferedInvitation, Holders, RoleKeys, SetUserRoles, Register,
         Login, ChangePassword, SetUserActive, Invite, CreateApiKey, RequestPasswordReset, ResetPassword,
         SendVerification, VerifyEmail, Prune, AuthenticateSession, AuthenticateApiKey, InsertRole, RewriteRole;
    CustomRolesAssignNobody(t, c);
    if !WritesAuthority(c) {
      AssignmentsFrame(t, now, c);
    } else if c.CSetUserRoles? {
      AssignmentLeavesAdminsAlone(t, c.actor, c.access, c.target, c.ids, u);
    } else {
      assert u in t.users by {
        Unfolded(t);
      }
      UserIdsBelow(t, u);
    }
  }

  lemma CustomRolesAssignNobody(t: Tables, c: Command)
    ensures c.CCreateRole? ==> InsertRole(t, c.actor, c.key, c.name, PermissionSet(c.perms)).t.userRoles == t.userRoles
    ensures c.CUpdateRole? ==>
              RewriteRole(t, c.actor, c.roleId, c.name, PermissionsOf(t.rolePermissions, c.roleId),
                          PermissionSet(c.perms)).t.userRoles == t.userRoles
  {}

  lemma AssignmentLeavesAdminsAlone(t: Tables, actor: Id, access: Access, target: Id, ids: seq<Id>, u: Id)
    requires Consistent(t) && !access.viaSuperuser && !HasRole(access.roles, ADMIN_KEY) && (u, ADMIN_ID) in t.userRoles
    ensures RoleIdsOf(SetUserRoles(t, actor, access, target, ids).t, u) == RoleIdsOf(t, u)
  {
    hide Consistent, HoldsRole, Holders, UnionPermissions, RolesHeld, HasRole, RoleKeys;
    AdminIsSeeded(t, target);
  }

  /** Over any run without admin authority no administrator is lost, and over HTTP none has any role changed. */
  lemma {:induction false} AdminsAreMonotone(t: Tables, es: seq<Event>, u: Id)
    requires Consistent(t) && (u, ADMIN_ID) in t.userRoles
    requires forall i :: 0 <= i < |es| ==> WithoutAdminAuthority(es[i].command)
    ensures u in Holders(Run(t, es), ADMIN_KEY)
    ensures RoleIdsOf(t, u) <= RoleIdsOf(Run(t, es), u)
    ensures (forall i :: 0 <= i < |es| ==> !es[i].command.FromShell()) ==> RoleIdsOf(Run(t, es), u) == RoleIdsOf(t, u)
    decreases |es|
  {
    hide Consistent, Step, Holders, WithoutAdminAuthority;
    if es == [] {
      AdminIsSeeded(t, u);
    } else {
      assert WithoutAdminAuthority(es[0].command);
      StepLeavesAdminsAlone(t, es[0].now, es[0].command, u);
      StepConsistent(t, es[0].now, es[0].command);
      assert ADMIN_ID in RoleIdsOf(t, u);
      AdminsAreMonotone(Step(t, es[0].now, es[0].command).t, es[1..], u);
    }
  }

  // ---------------------------------------------------------------- the two counts differ

  /** Two people register, both are made administrators from the shell, and the first deactivates the second. */
  ghost function TwoAdmins(now: Time): seq<Event> {
    [Event(now, CRegister("a", "h", true))] + ([Event(now, CRegister("b", "h", true))]
    + ([Event(now, CGrantRoleByKey("a", ADMIN_KEY, true))] + ([Event(now, CGrantRoleByKey("b", ADMIN_KEY, true))]
    + [Event(now, CSetUserActive(3, false, 4, false))])))
  }

  lemma RunUnfold(t: Tables, e: Event, rest: seq<Event>)
    ensures Run(t, [e] + rest) == Run(Step(t, e.now, e.command).t, rest)
  {
    hide Step;
    assert ([e] + rest)[1..] == rest;
  }

  ghost function Registered(bActive: bool, userRoles: set<(Id, Id)>): Tables {
    SEED.(users := map[3 := User("a", Some("h"), false, true, None), 4 := User("b", Some("h"), false, bActive, None)],
          userRoles := userRoles, nextId := 5)
  }

  lemma BothRegister(now: Time)
    ensures Register(Register(SEED, "a", "h", true).t, "b", "h", true).t == Registered(true, {})
  {
    var t := Register(SEED, "a", "h", true).t;
    assert t == SEED.(users := map[3 := User("a", Some("h"), false, true, None)], nextId := 4);
    assert "a"[0] != "b"[0];
  }

  lemma Granted(t: Tables, email: string, u: Id)
    requires Consistent(t) && u in t.users && t.users[u].email == email
    ensures GrantRoleByKey(t, email, ADMIN_KEY, true).t == t.(userRoles := t.userRoles + {(u, ADMIN_ID)})
  {
    hide GrantsOk, AssignmentsOk, InvitationsOk, OneOpenInvitation, KeysOk, SessionsOk, ResetsOk, VerificationsOk;
  }

  lemma Deactivated(t: Tables, now: Time, actor: Id, target: Id)
    requires Consistent(t) && actor != target && target in t.users && t.sessions == map[]
    requires |ActiveHolders(t, ADMIN_KEY)| > 1
    ensures SetUserActive(t, now, actor, false, target, false).t
            == t.(users := t.users[target := t.users[target].(isActive := false)])
  {
    hide Consistent, HoldsRole, ActiveHolders;
    assert UserSessionsRevoked(t.sessions, target, now) == map[];
  }

  lemma TwoAdminsAre(now: Time)
    ensures var t := Run(SEED, TwoAdmins(now));
            t == Registered(false, {(3, ADMIN_ID), (4, ADMIN_ID)}) && Consistent(t)
            && Holders(t, ADMIN_KEY) == {3, 4} && ActiveHolders(t, ADMIN_KEY) == {3}
  {
    hide Consistent, SEED, Register, GrantRoleByKey, SetUserActive, ActiveHolders, Holders;
    SeedConsistent();
    RunConsistent(SEED, TwoAdmins(now));
    var first, second := CRegister("a", "h", true), CRegister("b", "h", true);
    var third, fourth := CGrantRoleByKey("a", ADMIN_KEY, true), CGrantRoleByKey("b", ADMIN_KEY, true);
    var fifth := CSetUserActive(3, false, 4, false);
    var t1 := Step(SEED, now, first).t;
    var t2 := Registered(true, {});
    var t3 := Registered(true, {(3, ADMIN_ID)});
    var t4 := Registered(true, {(3, ADMIN_ID), (4, ADMIN_ID)});
    BothRegister(now);
    StepConsistent(SEED, now, first);
    StepConsistent(t1, now, second);
    Granted(t2, "a", 3);
    assert Step(t2, now, third).t == t3 by {
      assert {} + {(3, ADMIN_ID)} == {(3, ADMIN_ID)};
    }
    StepConsistent(t2, now, third);
    Granted(t3, "b", 4);
    assert Step(t3, now, fourth).t == t4 by {
      assert {(3, ADMIN_ID)} + {(4, ADMIN_ID)} == {(3, ADMIN_ID), (4, ADMIN_ID)};
    }
    StepConsistent(t3, now, fourth);
    ActiveHoldersAre(t4);
    TwoMembers(ActiveHolders(t4, ADMIN_KEY), 3, 4);
    SeedHasNoSessions();
    Deactivated(t4, now, 3, 4);
    StepConsistent(t4, now, fifth);
    var t5 := Registered(false, {(3, ADMIN_ID), (4, ADMIN_ID)});
    assert Step(t4, now, fifth).t == t5;
    TwoAdminsRun(now, t1, t2, t3, t4);
    HoldersAre(t5);
    ActiveHoldersAre(t5);
  }

  lemma SeedHasNoSessions()
    ensures SEED.sessions == map[]
  {}

  lemma TwoAdminsRun(now: Time, t1: Tables, t2: Tables, t3: Tables, t4: Tables)
    requires t1 == Step(SEED, now, CRegister("a", "h", true)).t
    requires t2 == Step(t1, now, CRegister("b", "h", true)).t
    requires t3 == Step(t2, now, CGrantRoleByKey("a", ADMIN_KEY, true)).t
    requires t4 == Step(t3, now, CGrantRoleByKey("b", ADMIN_KEY, true)).t
    ensures Run(SEED, TwoAdmins(now)) == Step(t4, now, CSetUserActive(3, false, 4, false)).t
  {
    hide SEED, Step;
    var e1, e2 := Event(now, CRegister("a", "h", true)), Event(now, CRegister("b", "h", true));
    var e3 := Event(now, CGrantRoleByKey("a", ADMIN_KEY, true));
    var e4 := Event(now, CGrantRoleByKey("b", ADMIN_KEY, true));
    var e5 := Event(now, CSetUserActive(3, false, 4, false));
    RunUnfold(SEED, e1, [e2] + ([e3] + ([e4] + [e5])));
    RunUnfold(t1, e2, [e3] + ([e4] + [e5]));
    RunUnfold(t2, e3, [e4] + [e5]);
    RunUnfold(t3, e4, [e5]);
    RunUnfold(t4, e5, []);
    assert [e5] + [] == [e5];
  }

  lemma TwoMembers(s: set<Id>, x: Id, y: Id)
    requires x in s && y in s && x != y
    ensures |s| > 1
  {
    assert |s| == |s - {x}| + 1 && y in s - {x};
  }

  /** An administrator's authority lists the admin role and every permission. */
  lemma AdminAccess(t: Tables, u: Id)
    requires Consistent(t) && u in Holders(t, ADMIN_KEY)
    ensures HasRole(RolesHeld(t, u), ADMIN_KEY) && Authorize(t, u, false).roles == RolesHeld(t, u)
    ensures Authorize(t, u, false).Can(UsersUpdate)
  {
    HoldersAre(t);
    assert RoleAt(t, ADMIN_ID) in RolesHeld(t, u);
    assert UsersUpdate in PermissionsOf(t.rolePermissions, ADMIN_ID);
  }

  /** The two counts differ: in the state that run reaches, the one active administrator may take the admin role from
      themselves, because the inactive one still counts. A holder is left and no active one. */
  lemma CountsDiffer(now: Time)
    ensures var t := Run(SEED, TwoAdmins(now));
            var o := SetUserRoles(t, 3, Authorize(t, 3, false), 3, []);
            && ActiveHolders(t, ADMIN_KEY) == {3}
            && o.reply == Done && Holders(o.t, ADMIN_KEY) != {} && ActiveHolders(o.t, ADMIN_KEY) == {}
  {
    hide Consistent, SEED, Holders, ActiveHolders, Run, Authorize;
    TwoAdminsAre(now);
    var t := Run(SEED, TwoAdmins(now));
    var c := CSetUserRoles(3, Authorize(t, 3, false), 3, []);
    AdminAccess(t, 3);
    TwoMembers(Holders(t, ADMIN_KEY), 3, 4);
    assert RolesWithIds(t, {}) == {};
    assert UnionPermissions({}) == {};
    assert Distinct(c.ids) == {};
    assert Strands(t, c);
    StripSucceeds(t, now, c);
    ActiveAdminKeptExactly(t, now, c);
    StepKeepsHolder(t, now, c);
    StripReply(t, now, c);
  }
}
