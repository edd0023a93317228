/** The audit log under interleaving. Its fold still rebuilds the authority state, because every entry says what was
    written; what an entry says was there before is what its transaction read, which may be stale. */
module InterleavedAudit {
  import opened Prelude
  import opened Permissions
  import opened Tables
  import opened Transactions
  import opened SerialMachine
  import opened Constraints
  import opened Interleaving
  import opened ExactlyOnce
  import opened RoleStructure
  import opened AuditReplay

  /** The log after a run: every commit appends its entry, in commit order. */
  ghost function LogAfter(s: System, steps: seq<Timed>, log: seq<Entry>): seq<Entry>
    decreases |steps|
  {
    if steps == [] then log
    else LogAfter(Next(s, steps[0].now, steps[0].action), steps[1..], LogNext(s, steps[0].now, steps[0].action, log))
  }

  ghost function LogNext(s: System, now: Time, a: Action, log: seq<Entry>): seq<Entry> {
    if Commits(s, now, a) then Appended(log, Commit(s, now, a).value.entry) else log
  }

  /** What the transaction read before writing is no longer so: the target's roles, or the edited role's permissions. */
  ghost predicate ReadIsStale(s: System, a: Action) {
    !a.Atomic? && a.r in s.requests &&
    var q := s.requests[a.r];
    || (a.FinishingAssignment? && q.TargetRead? && q.before != RoleKeys(RolesHeld(s.t, q.target)))
    || (a.FinishingRole? && q.RoleRead? && q.job.Rewrite? && q.granted != PermissionsOf(s.t.rolePermissions, q.roleId))
  }

  // ---------------------------------------------------------------- role keys outlive their reading

  /** The keys read for these ids are theirs as long as the ids are all there. */
  ghost predicate KeysKnown(t: Tables, ids: set<Id>, keys: set<string>) {
    && (forall id :: id in ids ==> id < t.nextId)
    && (ids <= t.roles.Keys ==> keys == RoleKeys(RolesWithIds(t, ids)))
  }

  ghost predicate Informed(t: Tables, q: Request) {
    match q
    case RoleRead(_, _, job, roleId, _) =>
      job.Remove? ==> roleId < t.nextId && (roleId in t.roles ==> t.roles[roleId].key == job.key)
    case RolesResolved(_, _, _, ids, keys) => KeysKnown(t, ids, keys)
    case TargetRead(_, _, _, ids, keys, _, _) => KeysKnown(t, ids, keys)
    case _ => true
  }

  ghost predicate AllInformed(s: System) {
    forall r :: r in s.requests ==> Informed(s.t, s.requests[r])
  }

  lemma KeysOfIds(t: Tables, ids: set<Id>, key: string)
    ensures key in RoleKeys(RolesWithIds(t, ids)) <==> exists id :: id in ids && id in t.roles && t.roles[id].key == key
  {
    if id :| id in ids && id in t.roles && t.roles[id].key == key {
      assert RoleAt(t, id) in RolesWithIds(t, ids);
    }
  }

  lemma KeysStayKnown(t: Tables, u: Tables, ids: set<Id>, keys: set<string>)
    requires KeysKnown(t, ids, keys) && SameRoleIds(t, u)
    ensures KeysKnown(u, ids, keys)
  {
    hide RoleKeys, RolesWithIds;
    if ids <= u.roles.Keys {
      assert forall id :: id in ids ==> id in t.roles && t.roles[id].key == u.roles[id].key;
      forall key ensures key in RoleKeys(RolesWithIds(t, ids)) <==> key in RoleKeys(RolesWithIds(u, ids)) {
        KeysOfIds(t, ids, key);
        KeysOfIds(u, ids, key);
      }
    }
  }

  lemma StaysInformed(t: Tables, u: Tables, q: Request)
    requires Informed(t, q) && SameRoleIds(t, u)
    ensures Informed(u, q)
  {
    hide KeysKnown;
    if q.RolesResolved? || q.TargetRead? {
      KeysStayKnown(t, u, q.ids, q.keys);
    }
  }

  lemma SpendingKeepsRoles(t: Tables, q: Request, hash: string)
    requires q.Claimed? && Unspent(t, q.kind, q.row)
    ensures FinishSpending(t, q, hash).t.roles == t.roles && t.nextId <= FinishSpending(t, q, hash).t.nextId
  {
    hide UserByEmail, UserSessionsRevoked, UnrevokedCount, UserResetsSpent;
  }

  lemma FinishKeepsRoleIds(t: Tables, now: Time, q: Request)
    requires q.RoleRead?
    ensures SameRoleIds(t, FinishRole(t, now, q).t)
  {
    hide SameRoles, RewriteRole, RemoveRole, OpenInvitationsRevoked;
    RoleStatements(t.roles, t.nextId, 0, [], Role([], [], false));
    match q.job
    case Rewrite(name, perms) => EditsKeepRoleIds(t, q.user, q.roleId, [], name, q.granted, perms);
    case Remove(key) => EditsKeepRoleIds(t, q.user, q.roleId, key, [], {}, {});
    case Offer(_, _, _) =>
  }

  lemma CommitKeepsRoleIds(s: System, now: Time, a: Action)
    requires Consistent(s.t) && Commits(s, now, a)
    ensures SameRoleIds(s.t, Commit(s, now, a).value.t)
  {
    hide Consistent, Step, SameRoles, FinishRole, FinishSpending, RespectsClaims, Unspent, Without, Paired;
    RoleStatements(s.t.roles, s.t.nextId, 0, [], Role([], [], false));
    if CommandOf(s, now, a).Some? {
      CommitIsStep(s, now, a);
      StepKeepsRoleIds(s.t, now, CommandOf(s, now, a).value);
    } else {
      match a
      case FinishingRole(r) => FinishKeepsRoleIds(s.t, now, s.requests[r]);
      case Spending(r, hash) => SpendingKeepsRoles(s.t, s.requests[r], hash);
      case _ =>
    }
  }

  lemma ReadsInformed(s: System, now: Time, a: Action)
    requires Consistent(s.t) && AllInformed(s) && !a.Atomic? && Progressed(s, now, a).Some?
    ensures Informed(s.t, Progressed(s, now, a).value)
  {
    hide UsersOk, SeedsOk, GrantsOk, AssignmentsOk, InvitationsOk, OneOpenInvitation, KeysOk, SessionsOk, ResetsOk,
         VerificationsOk, AuthenticateSession, AuthenticateApiKey, Authorize, RolesWithIds, RolesHeld, HasRole,
         UnionPermissions, Holders, Unclaimed, OfferedInvitation, SpendableReset, SpendableVerification, RoleKeys;
    match a
    case ReadingTarget(r) => assert Informed(s.t, s.requests[r]);
    case CountingAdmins(r) => assert Informed(s.t, s.requests[r]);
    case _ =>
  }

  lemma NextInformed(s: System, now: Time, a: Action)
    requires Consistent(s.t) && AllInformed(s)
    ensures AllInformed(Next(s, now, a))
  {
    hide Consistent, Commit, Commits, Progressed, Informed, SameRoleIds, Next;
    if Commits(s, now, a) {
      CommitFacts(s, now, a);
      CommitKeepsRoleIds(s, now, a);
      forall r | r in Next(s, now, a).requests ensures Informed(Next(s, now, a).t, s.requests[r]) {
        StaysInformed(s.t, Next(s, now, a).t, s.requests[r]);
      }
    } else {
      ReadingFacts(s, now, a);
      if !a.Atomic? && Progressed(s, now, a).Some? {
        ReadsInformed(s, now, a);
      }
    }
  }

  // ---------------------------------------------------------------- one commit

  /** The entry tells what was written; what it says of before is right exactly when `current`. */
  ghost predicate Told(t: Tables, o: Outcome, current: bool) {
    && ViewOf(o.t) == (if o.entry.Some? then Apply(ViewOf(t), o.entry.value) else ViewOf(t))
    && (o.entry.Some? ==> (Truthful(ViewOf(t), o.entry.value) <==> current))
  }

  lemma RecordedIsTold(t: Tables, o: Outcome)
    requires Recorded(t, o)
    ensures Told(t, o, true)
  {
    hide ViewOf, Apply, Truthful;
  }

  lemma RewriteTold(t: Tables, actor: Id, id: Id, name: string, before: set<Permission>, perms: set<Permission>)
    requires Consistent(t)
    ensures Told(t, RewriteRole(t, actor, id, name, before, perms), before == PermissionsOf(t.rolePermissions, id))
  {
    hide Consistent, AccountsOf, HoldingsOf, Without, Paired;
    RewriteRecorded(t, actor, id, name, perms);
    if id in t.roles {
      assert FactsOf(t.roles, t.rolePermissions)[id]
             == RoleFact(t.roles[id].key, PermissionsOf(t.rolePermissions, id));
    }
  }

  lemma AssignTold(t: Tables, actor: Id, target: Id, ids: set<Id>, before: set<string>, keys: set<string>)
    requires Consistent(t) && KeysKnown(t, ids, keys)
    ensures Told(t, AssignRoles(t, actor, target, ids, before, keys), before == RoleKeys(RolesHeld(t, target)))
  {
    hide Consistent, FactsOf, HoldingsOf, AccountsOf, RoleKeys, RolesHeld, RolesWithIds, KeysHeld, Without, Paired;
    KeysHeldAre(t, target);
    if ids <= t.roles.Keys {
      HoldingsReplaced(t, target, ids);
    }
  }

  lemma OfferTold(t: Tables, now: Time, actor: Id, email: string, roleId: Id, key: string, ttl: int)
    ensures Told(t, IssueInvitation(t, now, actor, email, roleId, key, ttl), true)
  {
    hide FactsOf, HoldingsOf, AccountsOf, OpenInvitationsRevoked;
  }

  lemma RedeemTold(t: Tables, now: Time, id: Id, hash: string)
    requires Consistent(t) && id in t.invitations
    ensures Told(t, RedeemInvitation(t, now, id, hash), true)
  {
    hide Consistent, FactsOf, HoldingsOf;
    FreshUser(t);
    var inv := t.invitations[id];
    HoldingAdded(t.userRoles, t.roles, t.nextId, inv.roleId) by {
      RolesOffered(t, id);
    }
    AccountUpdated(t.users, t.nextId, User(inv.email, Some(hash), false, true, Some(now)));
  }

  lemma RolesOffered(t: Tables, id: Id)
    requires Consistent(t) && id in t.invitations
    ensures t.invitations[id].roleId in t.roles
  {
    hide UsersOk, RolesOk, SeedsOk, GrantsOk, AssignmentsOk, OneOpenInvitation, KeysOk, SessionsOk, ResetsOk,
         VerificationsOk;
  }

  lemma TokensTold(t: Tables, now: Time, id: Id, hash: string)
    ensures id in t.resets ==> Told(t, FinishReset(t, now, id, hash), true)
    ensures id in t.verifications ==> Told(t, FinishVerification(t, now, id), true)
  {
    hide FactsOf, HoldingsOf, AccountsOf, UserSessionsRevoked, UserResetsSpent, UnrevokedCount;
    if id in t.resets {
      ResetKeepsAccounts(t, now, id, hash);
    }
    if id in t.verifications {
      VerificationKeepsAccounts(t, now, id);
    }
  }

  lemma FinishRoleTold(t: Tables, now: Time, q: Request)
    requires Consistent(t) && q.RoleRead? && Informed(t, q)
    ensures Told(t, FinishRole(t, now, q), q.job.Rewrite? ==> q.granted == PermissionsOf(t.rolePermissions, q.roleId))
  {
    hide Consistent, Told, Recorded, RewriteRole, IssueInvitation, PermissionsOf;
    match q.job
    case Rewrite(name, perms) => RewriteTold(t, q.user, q.roleId, name, q.granted, perms);
    case Remove(key) =>
      if q.roleId in t.roles {
        RemoveRecorded(t, q.user, q.roleId);
        RecordedIsTold(t, RemoveRole(t, q.user, q.roleId, key));
      } else {
        RefusalRecorded(t, NotFound);
        RecordedIsTold(t, Refused(t, NotFound));
      }
    case Offer(email, key, ttl) => OfferTold(t, now, q.user, email, q.roleId, key, ttl);
  }

  lemma SpendingTold(t: Tables, q: Request, hash: string)
    requires Consistent(t) && q.Claimed? && Unspent(t, q.kind, q.row)
    ensures Told(t, FinishSpending(t, q, hash), true)
  {
    hide Consistent, Told, RedeemInvitation, FinishReset, FinishVerification;
    match q.kind
    case InvitationToken => RedeemTold(t, q.startedAt, q.row, hash);
    case ResetToken => TokensTold(t, q.startedAt, q.row, hash);
    case VerificationToken => TokensTold(t, q.startedAt, q.row, hash);
  }

  /** Whatever commits, its entry accounts for the change, and is right about what was there before exactly when its
      transaction's read was not stale. */
  lemma CommitTold(s: System, now: Time, a: Action)
    requires Consistent(s.t) && AllInformed(s) && Commits(s, now, a)
    ensures Told(s.t, Commit(s, now, a).value, !ReadIsStale(s, a))
  {
    hide Consistent, Step, Told, Recorded, FinishRole, AssignRoles, RespectsClaims, Unspent, FinishSpending, RoleKeys,
         RolesHeld, PermissionsOf, KeysKnown;
    if CommandOf(s, now, a).Some? {
      CommitIsStep(s, now, a);
      StepRecorded(s.t, now, CommandOf(s, now, a).value);
      RecordedIsTold(s.t, Commit(s, now, a).value);
    } else {
      match a
      case FinishingRole(r) =>
        assert Informed(s.t, s.requests[r]);
        FinishRoleTold(s.t, now, s.requests[r]);
      case FinishingAssignment(r) =>
        var q := s.requests[r];
        assert Informed(s.t, q);
        AssignTold(s.t, q.user, q.target, q.ids, q.before, q.keys);
      case Spending(r, hash) => SpendingTold(s.t, s.requests[r], hash);
      case _ =>
    }
  }

  // ---------------------------------------------------------------- whole runs

  lemma FoldFollows(t: Tables, log: seq<Entry>, o: Outcome, current: bool)
    requires Replay(log) == ViewOf(t) && Told(t, o, current)
    ensures Replay(Appended(log, o.entry)) == ViewOf(o.t)
  {
    hide ViewOf, Apply, Truthful;
    if o.entry.Some? {
      assert (log + [o.entry.value])[..|log|] == log;
    }
  }

  lemma {:induction false} InterleavedFold(s: System, start: Tables, steps: seq<Timed>, log: seq<Entry>)
    requires Sound(s, start) && AllInformed(s)
    ensures AllInformed(RunAll(s, steps))
    ensures Replay(log) == ViewOf(s.t) ==> Replay(LogAfter(s, steps, log)) == ViewOf(RunAll(s, steps).t)
    decreases |steps|
  {
    hide Sound, Next, AllInformed, ViewOf, Replay, Commit, Commits, Consistent, Told, Progressed;
    if steps != [] {
      var now, a := steps[0].now, steps[0].action;
      SoundIsConsistent(s, start);
      NextSound(s, now, a, start);
      NextInformed(s, now, a);
      if Commits(s, now, a) {
        CommitFacts(s, now, a);
        CommitTold(s, now, a);
        if Replay(log) == ViewOf(s.t) {
          FoldFollows(s.t, log, Commit(s, now, a).value, !ReadIsStale(s, a));
        }
      } else {
        ReadingFacts(s, now, a);
      }
      InterleavedFold(Next(s, now, a), start, steps[1..], LogNext(s, now, a, log));
    }
  }

  /** Over every interleaved run the log, in commit order, still rebuilds exactly the authority state; and whatever
      commits next, its entry agrees with the fold of the entries before it exactly when what its transaction read
      still holds. */
  lemma InterleavedLogExplains(start: Tables, log: seq<Entry>, steps: seq<Timed>, now: Time, a: Action)
    requires Consistent(start) && Replay(log) == ViewOf(start)
    ensures var s := RunAll(System(start, map[], []), steps);
            var written := LogAfter(System(start, map[], []), steps, log);
            && Replay(written) == ViewOf(s.t)
            && (Commits(s, now, a) && Commit(s, now, a).value.entry.Some? ==>
                  (Truthful(Replay(written), Commit(s, now, a).value.entry.value) <==> !ReadIsStale(s, a)))
  {
    hide Consistent, RunAll, Sound, Commits, Commit, ViewOf, Replay, ReadIsStale, AllInformed, Truthful, Apply;
    var s := System(start, map[], []);
    SoundAtStart(start);
    NobodyInFlight(start);
    InterleavedFold(s, start, steps, log);
    RunSound(s, steps, start);
    SoundIsConsistent(RunAll(s, steps), start);
    if Commits(RunAll(s, steps), now, a) {
      CommitFacts(RunAll(s, steps), now, a);
      CommitTold(RunAll(s, steps), now, a);
    }
  }

  lemma NobodyInFlight(start: Tables)
    ensures AllInformed(System(start, map[], []))
  {}
}
