/** The last administrator under interleaving. Counting and writing in one transaction does not keep another transaction
    from counting, or from making its target an administrator, in between; so a holder can be lost. The step that loses
    it is characterised exactly, and locking assignments against other writers of user_roles excludes it. */
module LastAdminRace {
  import opened Prelude
  import opened Permissions
  import opened Tables
  import opened Transactions
  import opened SerialMachine
  import opened Constraints
  import opened Interleaving
  import opened ExactlyOnce
  import opened LastAdmin

  // ---------------------------------------------------------------- which step loses the last holder

  /** An assignment that leaves out the admin role commits on the only holder. */
  ghost predicate StripsLast(s: System, now: Time, a: Action) {
    && a.FinishingAssignment? && Commits(s, now, a)
    && a.r in s.requests && s.requests[a.r].TargetRead? && ADMIN_ID !in s.requests[a.r].ids
    && Holders(s.t, ADMIN_KEY) == {s.requests[a.r].target}
  }

  lemma AssignmentCommit(s: System, now: Time, a: Action)
    requires Commits(s, now, a) && a.FinishingAssignment?
    ensures a.r in s.requests && s.requests[a.r].TargetRead? && !s.requests[a.r].mustCount
    ensures var q := s.requests[a.r];
            Commit(s, now, a).value.t.userRoles == Without(s.t.userRoles, q.target) + Paired(q.target, q.ids)
  {
    hide RespectsClaims, Without, Paired;
  }

  lemma CommandKeepsAdminRow(t: Tables, now: Time, c: Command, u: Id)
    requires Consistent(t) && !c.CSetUserRoles? && (u, ADMIN_ID) in t.userRoles
    ensures (u, ADMIN_ID) in Step(t, now, c).t.userRoles
  {
    hide Consistent, Step, Holders;
    if (u, ADMIN_ID) !in Step(t, now, c).t.userRoles {
      AdminRowsAfter(t, now, c, u);
    }
  }

  /** No commit but an assignment takes a row out of user_roles. */
  lemma OthersKeepAdminRow(s: System, now: Time, a: Action, u: Id)
    requires Consistent(s.t) && Commits(s, now, a) && !a.FinishingAssignment? && (u, ADMIN_ID) in s.t.userRoles
    ensures (u, ADMIN_ID) in Commit(s, now, a).value.t.userRoles
  {
    hide Consistent, Step, RespectsClaims, UserByEmail;
    if CommandOf(s, now, a).Some? {
      CommitIsStep(s, now, a);
      CommandKeepsAdminRow(s.t, now, CommandOf(s, now, a).value, u);
    }
  }

  /** Over any step of any interleaving a holder is lost exactly when an assignment strips the only one. */
  lemma HolderLostExactly(s: System, start: Tables, now: Time, a: Action)
    requires Sound(s, start) && Holders(s.t, ADMIN_KEY) != {}
    ensures Holders(Next(s, now, a).t, ADMIN_KEY) == {} <==> StripsLast(s, now, a)
  {
    hide Sound, Commit, Commits, Holders, Next, Progressed, Consistent, Without, Paired;
    NextSound(s, now, a, start);
    SoundIsConsistent(s, start);
    SoundIsConsistent(Next(s, now, a), start);
    HoldersAre(s.t);
    HoldersAre(Next(s, now, a).t);
    var u :| u in Holders(s.t, ADMIN_KEY);
    if !Commits(s, now, a) {
      ReadingFacts(s, now, a);
    } else {
      CommitFacts(s, now, a);
      if a.FinishingAssignment? {
        AssignmentCommit(s, now, a);
        AdminRowsReplaced(s.t.userRoles, s.requests[a.r].target, s.requests[a.r].ids);
        if u == s.requests[a.r].target && Holders(s.t, ADMIN_KEY) != {u} {
          assert Holders(s.t, ADMIN_KEY) == {u} + (Holders(s.t, ADMIN_KEY) - {u});
          var v :| v in Holders(s.t, ADMIN_KEY) - {u};
          assert v in Holders(Next(s, now, a).t, ADMIN_KEY);
        }
      } else {
        OthersKeepAdminRow(s, now, a, u);
      }
    }
  }

  lemma AdminRowsReplaced(userRoles: set<(Id, Id)>, target: Id, ids: set<Id>)
    ensures forall v :: (v, ADMIN_ID) in Without(userRoles, target) + Paired(target, ids) <==>
                        if v == target then ADMIN_ID in ids else (v, ADMIN_ID) in userRoles
  {}

  // ---------------------------------------------------------------- a lock around assignments

  /** While a request sits between reading its target and writing, nobody else changes who holds the admin role. A lock
      on user_roles held from the read to the write, and taken by every other writer, enforces it. */
  ghost predicate Undisturbed(s: System, now: Time, a: Action) {
    Commits(s, now, a) && Holders(Commit(s, now, a).value.t, ADMIN_KEY) != Holders(s.t, ADMIN_KEY) ==>
      forall q :: q in s.requests && Some(q) != Requester(a) ==> !s.requests[q].TargetRead?
  }

  ghost predicate UndisturbedRun(s: System, steps: seq<Timed>)
    decreases |steps|
  {
    steps == []
    || (Undisturbed(s, steps[0].now, steps[0].action)
        && UndisturbedRun(Next(s, steps[0].now, steps[0].action), steps[1..]))
  }

  /** A request about to write without the admin role on its list leaves somebody else holding it. */
  ghost predicate LeavesAnother(q: Request, t: Tables) {
    q.TargetRead? && !q.mustCount && ADMIN_ID !in q.ids ==>
      exists u :: u in Holders(t, ADMIN_KEY) && u != q.target
  }

  ghost predicate AllLeaveAnother(s: System) {
    forall r :: r in s.requests ==> LeavesAnother(s.requests[r], s.t)
  }

  lemma ReadingLeavesAnother(s: System, now: Time, a: Action)
    requires Consistent(s.t) && Holders(s.t, ADMIN_KEY) != {} && !a.Atomic? && Progressed(s, now, a).Some?
    ensures LeavesAnother(Progressed(s, now, a).value, s.t)
  {
    hide Consistent, AuthenticateSession, AuthenticateApiKey, Authorize, PassesRoleGuard, RolesWithIds, RolesHeld,
         HasRole, UnionPermissions, Holders, Unclaimed, OfferedInvitation, SpendableReset, SpendableVerification,
         RoleKeys;
    match a
    case ReadingTarget(r) =>
      AdminIsSeeded(s.t, s.requests[r].target);
      var u :| u in Holders(s.t, ADMIN_KEY);
    case CountingAdmins(r) => var u := AnotherRemains(Holders(s.t, ADMIN_KEY), s.requests[r].target);
    case _ =>
  }

  lemma NextLeavesAnother(s: System, start: Tables, now: Time, a: Action)
    requires Sound(s, start) && Holders(s.t, ADMIN_KEY) != {} && AllLeaveAnother(s) && Undisturbed(s, now, a)
    ensures Holders(Next(s, now, a).t, ADMIN_KEY) != {} && AllLeaveAnother(Next(s, now, a))
  {
    hide Sound, Commit, Commits, Holders, Next, Progressed, Consistent, Without, Paired;
    HolderLostExactly(s, start, now, a);
    NextSound(s, now, a, start);
    SoundIsConsistent(s, start);
    SoundIsConsistent(Next(s, now, a), start);
    HoldersAre(s.t);
    HoldersAre(Next(s, now, a).t);
    if Commits(s, now, a) {
      CommitFacts(s, now, a);
      if a.FinishingAssignment? {
        AssignmentCommit(s, now, a);
        assert LeavesAnother(s.requests[a.r], s.t);
      }
    } else {
      ReadingFacts(s, now, a);
      if !a.Atomic? && Progressed(s, now, a).Some? {
        ReadingLeavesAnother(s, now, a);
      }
    }
  }

  lemma {:induction false} UndisturbedRunKeepsHolder(s: System, start: Tables, steps: seq<Timed>)
    requires Sound(s, start) && Holders(s.t, ADMIN_KEY) != {} && AllLeaveAnother(s) && UndisturbedRun(s, steps)
    ensures Holders(RunAll(s, steps).t, ADMIN_KEY) != {}
    decreases |steps|
  {
    hide Sound, Next, Holders, AllLeaveAnother, Undisturbed;
    if steps != [] {
      NextLeavesAnother(s, start, steps[0].now, steps[0].action);
      NextSound(s, steps[0].now, steps[0].action, start);
      UndisturbedRunKeepsHolder(Next(s, steps[0].now, steps[0].action), start, steps[1..]);
    }
  }

  /** Over every interleaved run in which no commit changes the holders while another assignment is between its read and
      its write, once somebody holds the admin role somebody does. */
  lemma LockedAssignmentsKeepAHolder(start: Tables, steps: seq<Timed>)
    requires Consistent(start) && Holders(start, ADMIN_KEY) != {}
    requires UndisturbedRun(System(start, map[], []), steps)
    ensures Holders(RunAll(System(start, map[], []), steps).t, ADMIN_KEY) != {}
  {
    hide Consistent, UndisturbedRun, RunAll, Holders;
    SoundAtStart(start);
    UndisturbedRunKeepsHolder(System(start, map[], []), start, steps);
  }

  // ---------------------------------------------------------------- single steps

  /** A request that reads moves on and nothing else changes. */
  lemma Reads(s: System, now: Time, a: Action)
    requires Commit(s, now, a).None? && !a.Atomic? && Progressed(s, now, a).Some?
    ensures Next(s, now, a) == s.(requests := s.requests[a.r := Progressed(s, now, a).value])
  {
    hide Commit, Progressed;
  }

  lemma SignsIn(s: System, now: Time, r: RequestId, token: Digest, u: Id, i: Id)
    requires r !in s.requests && AuthenticateSession(s.t, now, token) == SignedIn(u, i)
    requires u in s.t.users && !s.t.users[u].isSuperuser
    ensures Next(s, now, Authenticate(r, token)) == s.(requests := s.requests[r := Authenticated(u, false, None)])
  {
    hide AuthenticateSession;
    Reads(s, now, Authenticate(r, token));
  }

  lemma GetsAccess(s: System, now: Time, r: RequestId, u: Id)
    requires r in s.requests && s.requests[r] == Authenticated(u, false, None)
    ensures Next(s, now, Authorizing(r))
            == s.(requests := s.requests[r := Authorized(u, false, Authorize(s.t, u, false))])
  {
    hide Authorize;
    Reads(s, now, Authorizing(r));
  }

  lemma Resolves(s: System, now: Time, r: RequestId, u: Id, access: Access, target: Id)
    requires r in s.requests && s.requests[r] == Authorized(u, false, access) && access.Can(UsersUpdate)
    ensures Next(s, now, ResolvingRoles(r, target, {}))
            == s.(requests := s.requests[r := RolesResolved(u, access, target, {}, {})])
  {
    assert RolesWithIds(s.t, {}) == {};
    assert UnionPermissions({}) == {} && RoleKeys({}) == {};
    Reads(s, now, ResolvingRoles(r, target, {}));
  }

  lemma ReadsTarget(s: System, now: Time, r: RequestId, u: Id, access: Access, target: Id)
    requires r in s.requests && s.requests[r] == RolesResolved(u, access, target, {}, {})
    requires HasRole(RolesHeld(s.t, target), ADMIN_KEY) && HasRole(access.roles, ADMIN_KEY)
    ensures Next(s, now, ReadingTarget(r))
            == s.(requests := s.requests[r :=
                 TargetRead(u, access, target, {}, {}, RoleKeys(RolesHeld(s.t, target)), true)])
  {
    hide HasRole, RolesHeld, RoleKeys;
    Reads(s, now, ReadingTarget(r));
  }

  lemma Counts(s: System, now: Time, r: RequestId)
    requires r in s.requests && s.requests[r].TargetRead? && s.requests[r].mustCount && |Holders(s.t, ADMIN_KEY)| > 1
    ensures Next(s, now, CountingAdmins(r)) == s.(requests := s.requests[r := s.requests[r].(mustCount := false)])
  {
    hide Holders;
    Reads(s, now, CountingAdmins(r));
  }

  lemma Strips(s: System, now: Time, r: RequestId)
    requires r in s.requests && s.requests[r].TargetRead? && !s.requests[r].mustCount && s.requests[r].ids == {}
    requires forall q :: q in s.requests ==> !s.requests[q].Claimed?
    ensures var target := s.requests[r].target;
            Next(s, now, FinishingAssignment(r))
            == System(s.t.(userRoles := Without(s.t.userRoles, target)), s.requests - {r}, s.spends)
  {
    hide Without;
    var target := s.requests[r].target;
    assert Without(s.t.userRoles, target) + Paired(target, {}) == Without(s.t.userRoles, target);
  }

  // ---------------------------------------------------------------- whole runs

  function At(now: Time, a: Action, b: Action, c: Action, d: Action): seq<Timed> {
    [Timed(now, a), Timed(now, b), Timed(now, c), Timed(now, d)]
  }

  lemma FourSteps(s: System, now: Time, a: Action, b: Action, c: Action, d: Action)
    ensures RunAll(s, At(now, a, b, c, d)) == Next(Next(Next(Next(s, now, a), now, b), now, c), now, d)
  {
    hide Next;
    var s1 := Next(s, now, a);
    var s2 := Next(s1, now, b);
    var s3 := Next(s2, now, c);
    assert At(now, a, b, c, d)[1..] == [Timed(now, b), Timed(now, c), Timed(now, d)];
    assert [Timed(now, b), Timed(now, c), Timed(now, d)][1..] == [Timed(now, c), Timed(now, d)];
    assert [Timed(now, c), Timed(now, d)][1..] == [Timed(now, d)];
    assert RunAll(s3, [Timed(now, d)]) == RunAll(Next(s3, now, d), []);
    assert RunAll(s2, [Timed(now, c), Timed(now, d)]) == RunAll(s3, [Timed(now, d)]);
    assert RunAll(s1, [Timed(now, b), Timed(now, c), Timed(now, d)]) == RunAll(s2, [Timed(now, c), Timed(now, d)]);
  }

  /** A request by administrator `u` that has read everything it needs to take all roles from `target`. */
  ghost function Waiting(t: Tables, u: Id, target: Id): Request {
    TargetRead(u, Authorize(t, u, false), target, {}, {}, RoleKeys(RolesHeld(t, target)), true)
  }

  lemma ComesToWait(s: System, now: Time, r: RequestId, token: Digest, u: Id, i: Id, target: Id)
    requires Consistent(s.t) && r !in s.requests
    requires AuthenticateSession(s.t, now, token) == SignedIn(u, i) && u in s.t.users && !s.t.users[u].isSuperuser
    requires u in Holders(s.t, ADMIN_KEY) && target in Holders(s.t, ADMIN_KEY)
    ensures RunAll(s, At(now, Authenticate(r, token), Authorizing(r), ResolvingRoles(r, target, {}), ReadingTarget(r)))
            == s.(requests := s.requests[r := Waiting(s.t, u, target)])
  {
    hide Consistent, Next, AuthenticateSession, Authorize, HasRole, RolesHeld, RoleKeys, Holders;
    AdminAccess(s.t, u);
    AdminAccess(s.t, target);
    var access := Authorize(s.t, u, false);
    FourSteps(s, now, Authenticate(r, token), Authorizing(r), ResolvingRoles(r, target, {}), ReadingTarget(r));
    SignsIn(s, now, r, token, u, i);
    var s1 := s.(requests := s.requests[r := Authenticated(u, false, None)]);
    GetsAccess(s1, now, r, u);
    var s2 := s.(requests := s.requests[r := Authorized(u, false, access)]);
    assert s1.requests[r := Authorized(u, false, access)] == s2.requests;
    Resolves(s2, now, r, u, access, target);
    var s3 := s.(requests := s.requests[r := RolesResolved(u, access, target, {}, {})]);
    assert s2.requests[r := RolesResolved(u, access, target, {}, {})] == s3.requests;
    ReadsTarget(s3, now, r, u, access, target);
    assert s3.requests[r := Waiting(s.t, u, target)] == s.requests[r := Waiting(s.t, u, target)];
  }

  /** Both count two administrators, then both write. */
  lemma BothStrip(t: Tables, now: Time, u: Id, v: Id)
    requires Consistent(t) && u != v && Holders(t, ADMIN_KEY) == {u, v}
    ensures var s := System(t, map[1 := Waiting(t, u, v), 2 := Waiting(t, v, u)], []);
            var steps := At(now, CountingAdmins(1), CountingAdmins(2), FinishingAssignment(1), FinishingAssignment(2));
            RunAll(s, steps).t == t.(userRoles := Without(Without(t.userRoles, v), u))
  {
    hide Consistent, Next, Authorize, RolesHeld, RoleKeys, Holders, Without;
    var s := System(t, map[1 := Waiting(t, u, v), 2 := Waiting(t, v, u)], []);
    FourSteps(s, now, CountingAdmins(1), CountingAdmins(2), FinishingAssignment(1), FinishingAssignment(2));
    assert |{u, v}| == 2;
    Counts(s, now, 1);
    var s1 := s.(requests := s.requests[1 := s.requests[1].(mustCount := false)]);
    Counts(s1, now, 2);
    var s2 := s1.(requests := s1.requests[2 := s1.requests[2].(mustCount := false)]);
    Strips(s2, now, 1);
    Strips(System(t.(userRoles := Without(t.userRoles, v)), s2.requests - {1}, []), now, 2);
  }

  /** Two administrators who take each other's roles away at the same time both succeed, and nobody administers the
      installation any more: the rule that one must remain holds of serialised transactions only. */
  lemma CountsCanRace(t: Tables, now: Time, j: Digest, k: Digest, u: Id, v: Id, i: Id, i': Id)
    requires Consistent(t) && u != v && Holders(t, ADMIN_KEY) == {u, v}
    requires AuthenticateSession(t, now, j) == SignedIn(u, i) && u in t.users && !t.users[u].isSuperuser
    requires AuthenticateSession(t, now, k) == SignedIn(v, i') && v in t.users && !t.users[v].isSuperuser
    ensures var steps :=
              At(now, Authenticate(1, j), Authorizing(1), ResolvingRoles(1, v, {}), ReadingTarget(1))
              + At(now, Authenticate(2, k), Authorizing(2), ResolvingRoles(2, u, {}), ReadingTarget(2))
              + At(now, CountingAdmins(1), CountingAdmins(2), FinishingAssignment(1), FinishingAssignment(2));
            Holders(RunAll(System(t, map[], []), steps).t, ADMIN_KEY) == {}
  {
    hide Consistent, AuthenticateSession, RunAll, Waiting, At;
    var s := System(t, map[], []);
    var first := At(now, Authenticate(1, j), Authorizing(1), ResolvingRoles(1, v, {}), ReadingTarget(1));
    var second := At(now, Authenticate(2, k), Authorizing(2), ResolvingRoles(2, u, {}), ReadingTarget(2));
    var third := At(now, CountingAdmins(1), CountingAdmins(2), FinishingAssignment(1), FinishingAssignment(2));
    OneAfterTheOther(s, first + second, third);
    OneAfterTheOther(s, first, second);
    ComesToWait(s, now, 1, j, u, i, v);
    ComesToWait(s.(requests := map[1 := Waiting(t, u, v)]), now, 2, k, v, i', u);
    BothStrip(t, now, u, v);
    NobodyLeft(t, u, v);
  }

  lemma NobodyLeft(t: Tables, u: Id, v: Id)
    requires Holders(t, ADMIN_KEY) == {u, v}
    ensures Holders(t.(userRoles := Without(Without(t.userRoles, v), u)), ADMIN_KEY) == {}
  {
    var after := t.(userRoles := Without(Without(t.userRoles, v), u));
    forall x | HoldsRole(after, x, ADMIN_KEY) ensures x in Holders(t, ADMIN_KEY) && x != u && x != v {
      var id :| (x, id) in after.userRoles && id in after.roles && after.roles[id].isSystem
                && after.roles[id].key == ADMIN_KEY;
      assert (x, id) in t.userRoles && HoldsRole(t, (x, id).0, ADMIN_KEY);
    }
    assert forall x :: x in Holders(after, ADMIN_KEY) ==> HoldsRole(after, x, ADMIN_KEY);
  }

  // ---------------------------------------------------------------- a target promoted after it was read

  lemma ReadsOrdinaryTarget(s: System, now: Time, r: RequestId, u: Id, access: Access, target: Id)
    requires r in s.requests && s.requests[r] == RolesResolved(u, access, target, {}, {})
    requires !HasRole(RolesHeld(s.t, target), ADMIN_KEY)
    ensures Next(s, now, ReadingTarget(r))
            == s.(requests := s.requests[r :=
                 TargetRead(u, access, target, {}, {}, RoleKeys(RolesHeld(s.t, target)), false)])
  {
    hide HasRole, RolesHeld, RoleKeys;
    Reads(s, now, ReadingTarget(r));
  }

  lemma Grants(s: System, now: Time, v: Id)
    requires Consistent(s.t) && v in s.t.users && forall q :: q in s.requests ==> !s.requests[q].Claimed?
    ensures Next(s, now, Atomic(CGrantRoleByKey(s.t.users[v].email, ADMIN_KEY, true)))
            == s.(t := s.t.(userRoles := s.t.userRoles + {(v, ADMIN_ID)}))
  {
    hide Consistent, GrantRoleByKey;
    Granted(s.t, s.t.users[v].email, v);
  }

  /** The authority of somebody with users.update who is no administrator, on a target who is none yet. */
  ghost predicate Ordinary(t: Tables, u: Id, v: Id) {
    && u in t.users && !t.users[u].isSuperuser && Authorize(t, u, false).Can(UsersUpdate)
    && u !in Holders(t, ADMIN_KEY) && v in t.users && v !in Holders(t, ADMIN_KEY)
  }

  ghost function Late(t: Tables, u: Id, v: Id): Request {
    TargetRead(u, Authorize(t, u, false), v, {}, {}, RoleKeys(RolesHeld(t, v)), false)
  }

  lemma OrdinaryComesToWait(t: Tables, now: Time, token: Digest, u: Id, i: Id, v: Id)
    requires Consistent(t) && Ordinary(t, u, v) && AuthenticateSession(t, now, token) == SignedIn(u, i)
    ensures RunAll(System(t, map[], []),
                   At(now, Authenticate(1, token), Authorizing(1), ResolvingRoles(1, v, {}), ReadingTarget(1)))
            == System(t, map[1 := Late(t, u, v)], [])
    ensures !HasRole(Authorize(t, u, false).roles, ADMIN_KEY) && !Authorize(t, u, false).viaSuperuser
  {
    hide Consistent, Next, AuthenticateSession, HasRole, RolesHeld, RoleKeys, Holders, UnionPermissions;
    var s := System(t, map[], []);
    var access := Authorize(t, u, false);
    AdminIsSeeded(t, u);
    AdminIsSeeded(t, v);
    FourSteps(s, now, Authenticate(1, token), Authorizing(1), ResolvingRoles(1, v, {}), ReadingTarget(1));
    SignsIn(s, now, 1, token, u, i);
    var s1 := System(t, map[1 := Authenticated(u, false, None)], []);
    assert Next(s, now, Authenticate(1, token)) == s1;
    GetsAccess(s1, now, 1, u);
    var s2 := System(t, map[1 := Authorized(u, false, access)], []);
    assert Next(s1, now, Authorizing(1)) == s2;
    Resolves(s2, now, 1, u, access, v);
    var s3 := System(t, map[1 := RolesResolved(u, access, v, {}, {})], []);
    assert Next(s2, now, ResolvingRoles(1, v, {})) == s3;
    ReadsOrdinaryTarget(s3, now, 1, u, access, v);
    assert Next(s3, now, ReadingTarget(1)) == System(t, map[1 := Late(t, u, v)], []);
  }

  /** Somebody without admin authority takes the admin role from a holder, uncounted: they read the target before it was
      made an administrator and write afterwards. If it was the only one, none is left. */
  lemma PromotedTargetIsStripped(t: Tables, now: Time, token: Digest, u: Id, i: Id, v: Id)
    requires Consistent(t) && Ordinary(t, u, v) && AuthenticateSession(t, now, token) == SignedIn(u, i)
    ensures var first := At(now, Authenticate(1, token), Authorizing(1), ResolvingRoles(1, v, {}), ReadingTarget(1));
            var grant := Timed(now, Atomic(CGrantRoleByKey(t.users[v].email, ADMIN_KEY, true)));
            var write := Timed(now, FinishingAssignment(1));
            && Holders(RunAll(System(t, map[], []), first + [grant]).t, ADMIN_KEY) == Holders(t, ADMIN_KEY) + {v}
            && Holders(RunAll(System(t, map[], []), first + [grant, write]).t, ADMIN_KEY) == Holders(t, ADMIN_KEY)
    ensures !HasRole(Authorize(t, u, false).roles, ADMIN_KEY) && !Authorize(t, u, false).viaSuperuser
  {
    hide Consistent, AuthenticateSession, Next, At, Holders, Late, HasRole, Authorize;
    var s := System(t, map[], []);
    var first := At(now, Authenticate(1, token), Authorizing(1), ResolvingRoles(1, v, {}), ReadingTarget(1));
    var grant := Timed(now, Atomic(CGrantRoleByKey(t.users[v].email, ADMIN_KEY, true)));
    var write := Timed(now, FinishingAssignment(1));
    OrdinaryComesToWait(t, now, token, u, i, v);
    OneAfterTheOther(s, first, [grant]);
    OneAfterTheOther(s, first, [grant, write]);
    PromotedThenStripped(t, now, u, v);
  }

  lemma PromotedThenStripped(t: Tables, now: Time, u: Id, v: Id)
    requires Consistent(t) && Ordinary(t, u, v)
    ensures var s := System(t, map[1 := Late(t, u, v)], []);
            var grant := Timed(now, Atomic(CGrantRoleByKey(t.users[v].email, ADMIN_KEY, true)));
            && Holders(RunAll(s, [grant]).t, ADMIN_KEY) == Holders(t, ADMIN_KEY) + {v}
            && Holders(RunAll(s, [grant, Timed(now, FinishingAssignment(1))]).t, ADMIN_KEY) == Holders(t, ADMIN_KEY)
  {
    hide Consistent, Next, Holders, Authorize, RolesHeld, RoleKeys, Without;
    var s := System(t, map[1 := Late(t, u, v)], []);
    var grant, write := Timed(now, Atomic(CGrantRoleByKey(t.users[v].email, ADMIN_KEY, true))),
                        Timed(now, FinishingAssignment(1));
    Grants(s, now, v);
    var promoted := t.(userRoles := t.userRoles + {(v, ADMIN_ID)});
    Strips(s.(t := promoted), now, 1);
    assert [grant, write][1..] == [write] && [grant][1..] == [] && [write][1..] == [];
    assert RunAll(s, [grant, write]) == RunAll(Next(s, now, grant.action), [write]);
    assert RunAll(s.(t := promoted), [write]) == RunAll(Next(s.(t := promoted), now, write.action), []);
    HoldersAfterPromotion(t, v);
  }

  lemma HoldersAfterPromotion(t: Tables, v: Id)
    requires Consistent(t) && v in t.users && v !in Holders(t, ADMIN_KEY)
    ensures var rows := t.userRoles + {(v, ADMIN_ID)};
            && Holders(t.(userRoles := rows), ADMIN_KEY) == Holders(t, ADMIN_KEY) + {v}
            && Holders(t.(userRoles := Without(rows, v)), ADMIN_KEY) == Holders(t, ADMIN_KEY)
  {
    hide Consistent, Holders;
    var rows := t.userRoles + {(v, ADMIN_ID)};
    Unfolded(t);
    RolesAssigned(t, rows);
    RolesAssigned(t, Without(rows, v));
    HoldersAre(t);
    HoldersAre(t.(userRoles := rows));
    HoldersAre(t.(userRoles := Without(rows, v)));
    assert forall x :: (x, ADMIN_ID) in Without(rows, v) <==> x != v && (x, ADMIN_ID) in rows;
  }
}
