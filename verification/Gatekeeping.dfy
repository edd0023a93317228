/** Every permission-gated change, however interleaved, goes back to credentials that were good when they were presented
    and to an authority that the tables gave when it was resolved. What that authority cannot know is what happens after
    it was used: an administrator made one after their roles were read is not protected. */
module Gatekeeping {
  import opened Prelude
  import opened Permissions
  import opened Tables
  import opened Transactions
  import opened SerialMachine
  import opened Constraints
  import opened Interleaving
  import opened ExactlyOnce
  import opened LastAdmin
  import opened LastAdminRace
  import opened RoleStructure

  // ---------------------------------------------------------------- what happened earlier in a run

  /** The state a run has reached after its first `i` steps. */
  ghost function StateAt(start: Tables, steps: seq<Timed>, i: nat): System
    requires i <= |steps|
  {
    RunAll(System(start, map[], []), steps[..i])
  }

  /** What a request was authenticated as; `scope` is that of the API key it came with, if it came with one. */
  datatype Credential = Credential(user: Id, isSuperuser: bool, scope: Option<set<Permission>>)

  /** At step `i` the request presented the token of a session or key that the tables accepted then. */
  ghost predicate SignedInAt(start: Tables, steps: seq<Timed>, i: nat, r: RequestId, c: Credential)
    requires i < |steps|
  {
    var t := StateAt(start, steps, i).t;
    && c.user in t.users && c.isSuperuser == t.users[c.user].isSuperuser
    && match steps[i].action
       case Authenticate(q, token) =>
         var reply := AuthenticateSession(t, steps[i].now, token);
         q == r && c.scope.None? && reply.SignedIn? && reply.userId == c.user
       case AuthenticateWithKey(q, token) =>
         var reply := AuthenticateApiKey(t, steps[i].now, token);
         q == r && reply.KeyAccepted? && reply.userId == c.user && c.scope == Some(reply.scope)
       case _ => false
  }

  /** At step `j` the request's authority was resolved from the tables of that moment. */
  ghost predicate ResolvedAt(start: Tables, steps: seq<Timed>, j: nat, r: RequestId, c: Credential, access: Access)
    requires j < |steps|
  {
    && steps[j].action == Authorizing(r)
    && access == if c.scope.Some? then KeyAccess(c.scope.value)
                 else Authorize(StateAt(start, steps, j).t, c.user, c.isSuperuser)
  }

  ghost predicate Presented(start: Tables, steps: seq<Timed>, r: RequestId, c: Credential) {
    exists i :: 0 <= i < |steps| && SignedInAt(start, steps, i, r, c)
  }

  /** The request's identity and authority came about that way. */
  ghost predicate Genuine(start: Tables, steps: seq<Timed>, r: RequestId, user: Id, access: Access) {
    exists i, j, c: Credential | 0 <= i < j < |steps| ::
      c.user == user && SignedInAt(start, steps, i, r, c) && ResolvedAt(start, steps, j, r, c, access)
  }

  // ---------------------------------------------------------------- the invariant

  /** Superusers and holders of the admin role; holding every permission is not enough. */
  ghost predicate AdminAuthority(access: Access) {
    access.viaSuperuser || HasRole(access.roles, ADMIN_KEY)
  }

  /** Where a request's authority comes from, and the guards it has passed with it. */
  ghost predicate Backed(start: Tables, steps: seq<Timed>, r: RequestId, q: Request) {
    match q
    case Authenticated(user, isSuperuser, scope) => Presented(start, steps, r, Credential(user, isSuperuser, scope))
    case Authorized(user, _, access) => Genuine(start, steps, r, user, access)
    case RoleRead(user, access, job, _, _) => Genuine(start, steps, r, user, access) && access.Can(RoutePermission(job))
    case RolesResolved(user, access, _, _, _) => Genuine(start, steps, r, user, access) && access.Can(UsersUpdate)
    case TargetRead(user, access, _, _, _, before, _) =>
      && Genuine(start, steps, r, user, access) && access.Can(UsersUpdate)
      && (ADMIN_KEY in before ==> AdminAuthority(access))
    case _ => true
  }

  ghost predicate AllBacked(start: Tables, steps: seq<Timed>, s: System) {
    forall r :: r in s.requests ==> Backed(start, steps, r, s.requests[r])
  }

  lemma LaterSignedIn(start: Tables, steps: seq<Timed>, x: Timed, i: nat, r: RequestId, c: Credential)
    requires i < |steps| && SignedInAt(start, steps, i, r, c)
    ensures SignedInAt(start, steps + [x], i, r, c)
  {
    hide AuthenticateSession, AuthenticateApiKey, RunAll;
    assert (steps + [x])[..i] == steps[..i] && (steps + [x])[i] == steps[i];
  }

  lemma LaterResolved(start: Tables, steps: seq<Timed>, x: Timed, j: nat, r: RequestId, c: Credential, access: Access)
    requires j < |steps| && ResolvedAt(start, steps, j, r, c, access)
    ensures ResolvedAt(start, steps + [x], j, r, c, access)
  {
    hide Authorize, RunAll;
    assert (steps + [x])[..j] == steps[..j] && (steps + [x])[j] == steps[j];
  }

  lemma LaterGenuine(start: Tables, steps: seq<Timed>, x: Timed, r: RequestId, user: Id, access: Access)
    requires Genuine(start, steps, r, user, access)
    ensures Genuine(start, steps + [x], r, user, access)
  {
    hide SignedInAt, ResolvedAt;
    var i, j, c: Credential :| 0 <= i < j < |steps| && c.user == user && SignedInAt(start, steps, i, r, c)
                   && ResolvedAt(start, steps, j, r, c, access);
    LaterSignedIn(start, steps, x, i, r, c);
    LaterResolved(start, steps, x, j, r, c, access);
  }

  lemma LaterPresented(start: Tables, steps: seq<Timed>, x: Timed, r: RequestId, c: Credential)
    requires Presented(start, steps, r, c)
    ensures Presented(start, steps + [x], r, c)
  {
    hide SignedInAt;
    var i :| 0 <= i < |steps| && SignedInAt(start, steps, i, r, c);
    LaterSignedIn(start, steps, x, i, r, c);
  }

  lemma LaterBacked(start: Tables, steps: seq<Timed>, x: Timed, r: RequestId, q: Request)
    requires Backed(start, steps, r, q)
    ensures Backed(start, steps + [x], r, q)
  {
    hide Genuine, Presented, AdminAuthority;
    if q.Authenticated? {
      LaterPresented(start, steps, x, r, Credential(q.user, q.isSuperuser, q.scope));
    } else if q.Authorized? || q.RoleRead? || q.RolesResolved? || q.TargetRead? {
      LaterGenuine(start, steps, x, r, q.user, q.access);
    }
  }

  // ---------------------------------------------------------------- one step

  lemma AdminKeyMeansAdmin(t: Tables, userId: Id)
    requires Consistent(t) && ADMIN_KEY in RoleKeys(RolesHeld(t, userId))
    ensures HasRole(RolesHeld(t, userId), ADMIN_KEY)
  {
    hide UsersOk, GrantsOk, AssignmentsOk, InvitationsOk, OneOpenInvitation, KeysOk, SessionsOk, ResetsOk,
         VerificationsOk, PermissionsOf;
    var v :| v in RolesHeld(t, userId) && v.key == ADMIN_KEY;
    assert v.id == ADMIN_ID;
  }

  lemma AuthenticationBacked(start: Tables, steps: seq<Timed>, x: Timed)
    requires x.action.Authenticate? || x.action.AuthenticateWithKey?
    requires var s := RunAll(System(start, map[], []), steps); Progressed(s, x.now, x.action).Some?
    ensures var q := Progressed(RunAll(System(start, map[], []), steps), x.now, x.action).value;
            q.Authenticated?
            && Presented(start, steps + [x], x.action.r, Credential(q.user, q.isSuperuser, q.scope))
  {
    hide AuthenticateSession, AuthenticateApiKey, RunAll;
    var q := Progressed(RunAll(System(start, map[], []), steps), x.now, x.action).value;
    assert (steps + [x])[..|steps|] == steps && (steps + [x])[|steps|] == x;
    assert SignedInAt(start, steps + [x], |steps|, x.action.r, Credential(q.user, q.isSuperuser, q.scope));
  }

  lemma AuthorizationBacked(start: Tables, steps: seq<Timed>, now: Time, r: RequestId)
    requires var s := RunAll(System(start, map[], []), steps);
             && r in s.requests && s.requests[r].Authenticated? && Backed(start, steps, r, s.requests[r])
    ensures var s := RunAll(System(start, map[], []), steps);
            var q := s.requests[r];
            Genuine(start, steps + [Timed(now, Authorizing(r))], r, q.user,
                    if q.scope.Some? then KeyAccess(q.scope.value) else Authorize(s.t, q.user, q.isSuperuser))
  {
    hide SignedInAt, RunAll, Authorize;
    var s := RunAll(System(start, map[], []), steps);
    var q := s.requests[r];
    var c := Credential(q.user, q.isSuperuser, q.scope);
    var x := Timed(now, Authorizing(r));
    var i :| 0 <= i < |steps| && SignedInAt(start, steps, i, r, c);
    LaterSignedIn(start, steps, x, i, r, c);
    assert (steps + [x])[..|steps|] == steps && (steps + [x])[|steps|] == x;
    assert ResolvedAt(start, steps + [x], |steps|, r, c,
                      if q.scope.Some? then KeyAccess(q.scope.value) else Authorize(s.t, q.user, q.isSuperuser));
  }

  /** Every step that only reads keeps its request's authority accounted for. */
  lemma ProgressBacked(start: Tables, steps: seq<Timed>, x: Timed)
    requires var s := RunAll(System(start, map[], []), steps);
             && Consistent(s.t) && AllBacked(start, steps, s) && !x.action.Atomic?
             && Progressed(s, x.now, x.action).Some?
    ensures Backed(start, steps + [x], x.action.r,
                   Progressed(RunAll(System(start, map[], []), steps), x.now, x.action).value)
  {
    hide Consistent, AuthenticateSession, AuthenticateApiKey, Authorize, PassesRoleGuard, RolesWithIds, RolesHeld,
         HasRole, UnionPermissions, Holders, Unclaimed, OfferedInvitation, SpendableReset, SpendableVerification,
         RoleKeys, RunAll, Genuine, Presented;
    var s := RunAll(System(start, map[], []), steps);
    var r := x.action.r;
    if x.action.Authenticate? || x.action.AuthenticateWithKey? {
      AuthenticationBacked(start, steps, x);
    } else if x.action.Authorizing? {
      AuthorizationBacked(start, steps, x.now, r);
    } else if r in s.requests
              && (s.requests[r].Authorized? || s.requests[r].RolesResolved? || s.requests[r].TargetRead?) {
      assert Backed(start, steps, r, s.requests[r]);
      LaterGenuine(start, steps, x, r, s.requests[r].user, s.requests[r].access);
      if x.action.ReadingTarget? && ADMIN_KEY in RoleKeys(RolesHeld(s.t, s.requests[r].target)) {
        AdminKeyMeansAdmin(s.t, s.requests[r].target);
      }
    }
  }

  lemma NextBacked(start: Tables, steps: seq<Timed>, x: Timed)
    requires var s := RunAll(System(start, map[], []), steps); Consistent(s.t) && AllBacked(start, steps, s)
    ensures AllBacked(start, steps + [x], Next(RunAll(System(start, map[], []), steps), x.now, x.action))
  {
    hide Consistent, Commit, Progressed, Commits, Backed, Next, RunAll;
    var s := RunAll(System(start, map[], []), steps);
    forall r | r in s.requests ensures Backed(start, steps + [x], r, s.requests[r]) {
      LaterBacked(start, steps, x, r, s.requests[r]);
    }
    if Commits(s, x.now, x.action) {
      CommitFacts(s, x.now, x.action);
    } else {
      ReadingFacts(s, x.now, x.action);
      if !x.action.Atomic? && Progressed(s, x.now, x.action).Some? {
        ProgressBacked(start, steps, x);
      }
    }
  }

  lemma {:induction false} RunBacked(start: Tables, steps: seq<Timed>)
    requires Consistent(start)
    ensures AllBacked(start, steps, RunAll(System(start, map[], []), steps))
    ensures Consistent(RunAll(System(start, map[], []), steps).t)
    decreases |steps|
  {
    hide Consistent, Backed, Next, Sound;
    var s := System(start, map[], []);
    SoundAtStart(start);
    RunSound(s, steps, start);
    SoundIsConsistent(RunAll(s, steps), start);
    if steps != [] {
      var init, x := steps[..|steps| - 1], steps[|steps| - 1];
      assert steps == init + [x];
      RunBacked(start, init);
      NextBacked(start, init, x);
      OneAfterTheOther(s, init, [x]);
      assert [x][1..] == [];
      assert RunAll(RunAll(s, init), [x]) == RunAll(Next(RunAll(s, init), x.now, x.action), []);
    }
  }

  // ---------------------------------------------------------------- the theorems

  /** The changes made by requests that passed requireAccess, as opposed to those on public routes. */
  predicate Gated(a: Action) {
    !a.Atomic? && !a.Spending?
  }

  /** The permission on the route of the change. */
  function Demanded(a: Action, q: Request): Permission
    requires a.FinishingRole? ==> q.RoleRead?
  {
    match a
    case CreatingRole(_, _, _, _, _) => RolesCreate
    case CreatingKey(_, _, _, _, _) => ApiKeysCreate
    case RevokingInvitation(_, _) => InvitationsDelete
    case RevokingKey(_, _) => ApiKeysDelete
    case FinishingRole(_) => RoutePermission(q.job)
    case _ => UsersUpdate
  }

  /** The tables give this credential the permission: the key's frozen scope, the superuser flag it was read with, or
      a role. */
  ghost predicate Gives(t: Tables, c: Credential, p: Permission) {
    if c.scope.Some? then p in c.scope.value
    else c.isSuperuser || exists r :: (c.user, r) in t.userRoles && r in t.roles && (r, p) in t.rolePermissions
  }

  /** Genuine admin authority, which no key carries. */
  ghost predicate GivesAdmin(t: Tables, c: Credential) {
    c.scope.None? && (c.isSuperuser || c.user in Holders(t, ADMIN_KEY))
  }

  /** At some step the request's credential was accepted, and at a later one the tables gave it the permission. */
  ghost predicate GrantedEarlier(start: Tables, steps: seq<Timed>, r: RequestId, user: Id, p: Permission, admin: bool) {
    exists i, j, c: Credential | 0 <= i < j < |steps| ::
      && c.user == user && SignedInAt(start, steps, i, r, c) && steps[j].action == Authorizing(r)
      && Gives(StateAt(start, steps, j).t, c, p) && (admin ==> GivesAdmin(StateAt(start, steps, j).t, c))
  }

  lemma ResolvedGives(t: Tables, c: Credential, p: Permission)
    requires Consistent(t)
    ensures var access := if c.scope.Some? then KeyAccess(c.scope.value) else Authorize(t, c.user, c.isSuperuser);
            && (access.Can(p) ==> Gives(t, c, p))
            && (AdminAuthority(access) ==> GivesAdmin(t, c))
  {
    hide Consistent, Holders;
    if c.scope.None? && !c.isSuperuser {
      assert Authorize(t, c.user, false).permissions == EffectivePermissions(t, c.user);
      EffectiveIff(t, c.user, p);
      AdminIsSeeded(t, c.user);
    }
  }

  lemma GenuineGives(start: Tables, steps: seq<Timed>, r: RequestId, user: Id, access: Access, p: Permission,
                     admin: bool)
    requires Consistent(start) && Genuine(start, steps, r, user, access)
    requires access.Can(p) && (admin ==> AdminAuthority(access))
    ensures GrantedEarlier(start, steps, r, user, p, admin)
  {
    hide Consistent, SignedInAt, RunAll, Gives, GivesAdmin, Authorize, AdminAuthority;
    var i, j, c: Credential :| 0 <= i < j < |steps| && c.user == user && SignedInAt(start, steps, i, r, c)
                   && ResolvedAt(start, steps, j, r, c, access);
    RunBacked(start, steps[..j]);
    ResolvedGives(StateAt(start, steps, j).t, c, p);
  }

  lemma CommitGuarded(start: Tables, steps: seq<Timed>, s: System, now: Time, a: Action)
    requires AllBacked(start, steps, s) && Commits(s, now, a) && Gated(a)
    ensures a.r in s.requests
    ensures var q := s.requests[a.r];
            && (a.FinishingRole? ==> q.RoleRead?) && (q.Authorized? || q.RoleRead? || q.TargetRead?)
            && Genuine(start, steps, a.r, q.user, q.access) && q.access.Can(Demanded(a, q))
            && (q.TargetRead? && ADMIN_KEY in q.before ==> AdminAuthority(q.access))
  {
    hide RespectsClaims, CreateRole, CreateApiKey, SetUserActive, RevokeInvitation, RevokeApiKey, FinishRole,
         AssignRoles, AdminAuthority, Unspent, Genuine;
    assert a.r in s.requests;
    assert Backed(start, steps, a.r, s.requests[a.r]);
  }

  /** Whatever the interleaving, a gated change commits only for a request whose session or key was accepted at an
      earlier step and to which, at a step in between, the tables gave the permission of the route: through the key's
      scope, the superuser flag or a role. If its target was an administrator when read, they gave it admin
      authority. */
  lemma EveryChangeIsAuthorized(start: Tables, steps: seq<Timed>, now: Time, a: Action)
    requires Consistent(start) && Gated(a) && Commits(RunAll(System(start, map[], []), steps), now, a)
    ensures var s := RunAll(System(start, map[], []), steps);
            && a.r in s.requests && (a.FinishingRole? ==> s.requests[a.r].RoleRead?)
            && var q := s.requests[a.r];
               && (q.Authorized? || q.RoleRead? || q.TargetRead?)
               && GrantedEarlier(start, steps, a.r, q.user, Demanded(a, q), q.TargetRead? && ADMIN_KEY in q.before)
  {
    hide Consistent, RunAll, Commits, AllBacked, Genuine, GrantedEarlier, AdminAuthority;
    RunBacked(start, steps);
    var s := RunAll(System(start, map[], []), steps);
    CommitGuarded(start, steps, s, now, a);
    var q := s.requests[a.r];
    GenuineGives(start, steps, a.r, q.user, q.access, Demanded(a, q), q.TargetRead? && ADMIN_KEY in q.before);
  }

  /** An assignment without admin authority takes the admin role from somebody exactly when the target was no
      administrator when it was read, is one when it is written, and the role is not on the list. */
  lemma UnprivilegedStripExactly(start: Tables, steps: seq<Timed>, now: Time, r: RequestId)
    requires Consistent(start)
    requires var s := RunAll(System(start, map[], []), steps);
             && Commits(s, now, FinishingAssignment(r)) && r in s.requests && s.requests[r].TargetRead?
             && !AdminAuthority(s.requests[r].access)
    ensures var s := RunAll(System(start, map[], []), steps);
            var q := s.requests[r];
            (exists u :: u in Holders(s.t, ADMIN_KEY)
                         && u !in Holders(Next(s, now, FinishingAssignment(r)).t, ADMIN_KEY))
            <==> ADMIN_KEY !in q.before && q.target in Holders(s.t, ADMIN_KEY) && ADMIN_ID !in q.ids
  {
    hide Consistent, RunAll, Commits, Commit, Holders, Genuine, Next, Sound, AdminAuthority, Without, Paired;
    var s := RunAll(System(start, map[], []), steps);
    var a := FinishingAssignment(r);
    RunBacked(start, steps);
    assert Backed(start, steps, r, s.requests[r]);
    SoundAtStart(start);
    RunSound(System(start, map[], []), steps, start);
    NextSound(s, now, a, start);
    SoundIsConsistent(Next(s, now, a), start);
    HoldersAre(s.t);
    HoldersAre(Next(s, now, a).t);
    CommitFacts(s, now, a);
    AssignmentCommit(s, now, a);
    AdminRowsReplaced(s.t.userRoles, s.requests[r].target, s.requests[r].ids);
  }
}
