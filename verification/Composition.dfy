/** The split machine takes a service transaction apart. Put back together, with nothing in between, its steps are that
    transaction: what is proved of interleaved runs is proved of the service. */
module Composition {
  import opened Prelude
  import opened Permissions
  import opened Tables
  import opened Transactions
  import opened SerialMachine
  import opened Constraints
  import opened Interleaving
  import opened LastAdmin

  /** No row is held, so no writer waits. */
  ghost predicate NothingClaimed(s: System) {
    forall q :: q in s.requests ==> !s.requests[q].Claimed?
  }

  lemma TwoSteps(s: System, a: Timed, b: Timed)
    ensures RunAll(s, [a, b]) == Next(Next(s, a.now, a.action), b.now, b.action)
  {
    hide Next;
    var s1 := Next(s, a.now, a.action);
    assert [a, b][1..] == [b] && [b][1..] == [];
    assert RunAll(s1, [b]) == RunAll(Next(s1, b.now, b.action), []);
  }

  lemma ThreeSteps(s: System, a: Timed, b: Timed, c: Timed)
    ensures RunAll(s, [a, b, c]) == Next(RunAll(s, [a, b]), c.now, c.action)
  {
    hide Next;
    TwoSteps(s, a, b);
    TwoSteps(Next(s, a.now, a.action), b, c);
    assert [a, b, c][1..] == [b, c];
  }

  // ---------------------------------------------------------------- assignments

  lemma ResolvingStep(s: System, now: Time, r: RequestId, target: Id, ids: set<Id>)
    requires r in s.requests && s.requests[r].Authorized? && s.requests[r].access.Can(UsersUpdate)
    ensures var q := s.requests[r];
            Next(s, now, ResolvingRoles(r, target, ids))
            == if ids <= s.t.roles.Keys && UnionPermissions(RolesWithIds(s.t, ids)) <= q.access.permissions
               then s.(requests := s.requests[r :=
                         RolesResolved(q.user, q.access, target, ids, RoleKeys(RolesWithIds(s.t, ids)))])
               else s
  {
    hide UnionPermissions, RolesWithIds, RoleKeys;
  }

  lemma TargetStep(s: System, now: Time, r: RequestId)
    requires r in s.requests
    ensures var q := s.requests[r];
            Next(s, now, ReadingTarget(r))
            == if q.RolesResolved? && !(HasRole(RolesHeld(s.t, q.target), ADMIN_KEY) && !q.access.viaSuperuser
                                        && !HasRole(q.access.roles, ADMIN_KEY))
               then s.(requests := s.requests[r :=
                         TargetRead(q.user, q.access, q.target, q.ids, q.keys, RoleKeys(RolesHeld(s.t, q.target)),
                                    HasRole(RolesHeld(s.t, q.target), ADMIN_KEY) && ADMIN_ID !in q.ids)])
               else s
  {
    hide RolesHeld, RoleKeys, HasRole;
  }

  lemma CountStep(s: System, now: Time, r: RequestId)
    requires r in s.requests
    ensures Next(s, now, CountingAdmins(r))
            == if s.requests[r].TargetRead? && |Holders(s.t, ADMIN_KEY)| > 1
               then s.(requests := s.requests[r := s.requests[r].(mustCount := false)]) else s
  {
    hide Holders;
  }

  lemma FinishStep(s: System, now: Time, r: RequestId)
    requires NothingClaimed(s) && r in s.requests
    ensures var q := s.requests[r];
            Next(s, now, FinishingAssignment(r))
            == if q.TargetRead? && !q.mustCount
                  && AssignRoles(s.t, q.user, q.target, q.ids, q.before, q.keys).reply == Done
               then System(AssignRoles(s.t, q.user, q.target, q.ids, q.before, q.keys).t, s.requests - {r}, s.spends)
               else s
  {
    hide Without, Paired;
    var q := s.requests[r];
    if q.TargetRead? && !q.mustCount {
      assert s.spends + SpendOf(s, FinishingAssignment(r), AssignRoles(s.t, q.user, q.target, q.ids, q.before, q.keys))
             == s.spends;
    }
  }

  ghost function AssignmentSteps(now: Time, r: RequestId, target: Id, ids: set<Id>): seq<Timed> {
    [Timed(now, ResolvingRoles(r, target, ids)), Timed(now, ReadingTarget(r)), Timed(now, CountingAdmins(r)),
     Timed(now, FinishingAssignment(r))]
  }

  lemma FourSteps(s: System, now: Time, r: RequestId, target: Id, ids: set<Id>)
    ensures RunAll(s, AssignmentSteps(now, r, target, ids))
            == Next(Next(Next(Next(s, now, ResolvingRoles(r, target, ids)), now, ReadingTarget(r)), now,
                         CountingAdmins(r)), now, FinishingAssignment(r))
  {
    hide Next;
    var steps := AssignmentSteps(now, r, target, ids);
    assert steps[1..] == [steps[1], steps[2], steps[3]];
    ThreeSteps(Next(s, now, steps[0].action), steps[1], steps[2], steps[3]);
    TwoSteps(Next(s, now, steps[0].action), steps[1], steps[2]);
  }

  /** SetUserRoles is resolving the roles, reading the target, counting the administrators and writing, in one go: the
      same tables, and the request is over exactly when the service answers Done. */
  lemma AssignmentIsItsSteps(s: System, now: Time, r: RequestId, target: Id, ids: seq<Id>)
    requires Consistent(s.t) && NothingClaimed(s)
    requires r in s.requests && s.requests[r].Authorized? && s.requests[r].access.Can(UsersUpdate)
    ensures var o := SetUserRoles(s.t, s.requests[r].user, s.requests[r].access, target, ids);
            var end := RunAll(s, AssignmentSteps(now, r, target, Distinct(ids)));
            && end.t == o.t && end.spends == s.spends
            && (o.reply == Done <==> end.requests == s.requests - {r}) && (o.reply == Done <==> r !in end.requests)
  {
    hide Consistent, Next, RunAll, AssignRoles, UnionPermissions, RolesWithIds, RolesHeld, HasRole, RoleKeys, Holders,
         Distinct;
    var wanted := Distinct(ids);
    AdminAmong(s.t, wanted);
    FourSteps(s, now, r, target, wanted);
    ResolvingStep(s, now, r, target, wanted);
    var s1 := Next(s, now, ResolvingRoles(r, target, wanted));
    TargetStep(s1, now, r);
    var s2 := Next(s1, now, ReadingTarget(r));
    CountStep(s2, now, r);
    var s3 := Next(s2, now, CountingAdmins(r));
    FinishStep(s3, now, r);
    AssignDoneOrNothing(s.t, s.requests[r].user, target, wanted, RoleKeys(RolesHeld(s.t, target)),
                        RoleKeys(RolesWithIds(s.t, wanted)));
  }

  lemma AssignDoneOrNothing(t: Tables, actor: Id, target: Id, ids: set<Id>, before: set<string>, after: set<string>)
    ensures var o := AssignRoles(t, actor, target, ids, before, after); o.reply == Done || o.t == t
  {}

  // ---------------------------------------------------------------- transactions on one role

  lemma ReadingRoleStep(s: System, now: Time, r: RequestId, job: RoleJob, roleId: Id)
    requires r in s.requests && s.requests[r].Authorized? && s.requests[r].access.Can(RoutePermission(job))
    ensures var q := s.requests[r];
            Next(s, now, ReadingRole(r, job, roleId))
            == if PassesRoleGuard(s.t, q.access, job, roleId)
               then s.(requests := s.requests[r :=
                         RoleRead(q.user, q.access, job, roleId, PermissionsOf(s.t.rolePermissions, roleId))])
               else s
  {
    hide PassesRoleGuard, PermissionsOf;
  }

  lemma FinishRoleStep(s: System, now: Time, r: RequestId)
    requires NothingClaimed(s) && r in s.requests
    ensures Next(s, now, FinishingRole(r))
            == if s.requests[r].RoleRead? && !FinishRole(s.t, now, s.requests[r]).reply.Failed?
               then System(FinishRole(s.t, now, s.requests[r]).t, s.requests - {r}, s.spends) else s
  {
    hide FinishRole;
    if s.requests[r].RoleRead? {
      assert s.spends + SpendOf(s, FinishingRole(r), FinishRole(s.t, now, s.requests[r])) == s.spends;
    }
  }

  ghost function RoleSteps(now: Time, r: RequestId, job: RoleJob, roleId: Id): seq<Timed> {
    [Timed(now, ReadingRole(r, job, roleId)), Timed(now, FinishingRole(r))]
  }

  /** Reading the role and then writing, put together. */
  lemma RoleStepsAre(s: System, now: Time, r: RequestId, job: RoleJob, roleId: Id, o: Outcome)
    requires NothingClaimed(s)
    requires r in s.requests && s.requests[r].Authorized? && s.requests[r].access.Can(RoutePermission(job))
    requires PassesRoleGuard(s.t, s.requests[r].access, job, roleId) ==>
               o == FinishRole(s.t, now, RoleRead(s.requests[r].user, s.requests[r].access, job, roleId,
                                                  PermissionsOf(s.t.rolePermissions, roleId)))
    requires !PassesRoleGuard(s.t, s.requests[r].access, job, roleId) ==> o.reply.Failed?
    requires o.reply.Failed? ==> o.t == s.t
    ensures var end := RunAll(s, RoleSteps(now, r, job, roleId));
            end.t == o.t && end.spends == s.spends && (!o.reply.Failed? <==> r !in end.requests)
  {
    hide Next, RunAll, PassesRoleGuard, FinishRole, PermissionsOf;
    var steps := RoleSteps(now, r, job, roleId);
    TwoSteps(s, steps[0], steps[1]);
    ReadingRoleStep(s, now, r, job, roleId);
    FinishRoleStep(Next(s, now, ReadingRole(r, job, roleId)), now, r);
  }

  /** Invite, for input that passed validation. */
  lemma InviteIsItsSteps(s: System, now: Time, r: RequestId, email: string, roleId: Id, ttl: int)
    requires NothingClaimed(s)
    requires r in s.requests && s.requests[r].Authorized? && s.requests[r].access.Can(InvitationsCreate)
    ensures var o := Invite(s.t, now, s.requests[r].user, s.requests[r].access, email, roleId, ttl, true);
            var key := if roleId in s.t.roles then s.t.roles[roleId].key else [];
            var end := RunAll(s, RoleSteps(now, r, Offer(email, key, ttl), roleId));
            end.t == o.t && end.spends == s.spends && (o.reply.NewRow? <==> r !in end.requests)
  {
    hide NothingClaimed, RunAll, OpenInvitationsRevoked, PermissionsOf, UserByEmail, RoleSteps;
    var q := s.requests[r];
    var o := Invite(s.t, now, q.user, q.access, email, roleId, ttl, true);
    var key := if roleId in s.t.roles then s.t.roles[roleId].key else [];
    RoleStepsAre(s, now, r, Offer(email, key, ttl), roleId, o);
  }

  /** UpdateRole, for input that passed validation. */
  lemma UpdateIsItsSteps(s: System, now: Time, r: RequestId, id: Id, name: string, perms: seq<Permission>)
    requires NothingClaimed(s) && perms != [] && AllCatalogued(perms)
    requires r in s.requests && s.requests[r].Authorized? && s.requests[r].access.Can(RolesUpdate)
    ensures var o := UpdateRole(s.t, s.requests[r].user, s.requests[r].access, id, name, perms, true);
            var end := RunAll(s, RoleSteps(now, r, Rewrite(name, PermissionSet(perms)), id));
            end.t == o.t && end.spends == s.spends && (o.reply == Done <==> r !in end.requests)
  {
    hide NothingClaimed, RunAll, Without, Paired, PermissionsOf, RoleSteps;
    var q := s.requests[r];
    RoleStepsAre(s, now, r, Rewrite(name, PermissionSet(perms)), id,
                 UpdateRole(s.t, q.user, q.access, id, name, perms, true));
  }

  lemma DeleteIsItsSteps(s: System, now: Time, r: RequestId, id: Id)
    requires NothingClaimed(s)
    requires r in s.requests && s.requests[r].Authorized? && s.requests[r].access.Can(RolesDelete)
    ensures var o := DeleteRole(s.t, s.requests[r].user, s.requests[r].access, id);
            var key := if id in s.t.roles then s.t.roles[id].key else [];
            var end := RunAll(s, RoleSteps(now, r, Remove(key), id));
            end.t == o.t && end.spends == s.spends && (o.reply == Done <==> r !in end.requests)
  {
    hide NothingClaimed, RunAll, Without, InvitationsElsewhere, PermissionsOf, RoleSteps;
    var q := s.requests[r];
    var key := if id in s.t.roles then s.t.roles[id].key else [];
    RoleStepsAre(s, now, r, Remove(key), id, DeleteRole(s.t, q.user, q.access, id));
  }

  // ---------------------------------------------------------------- transactions that spend a token

  lemma SpendingStep(s: System, now: Time, r: RequestId, hash: string)
    requires NothingClaimed(s.(requests := s.requests - {r})) && r in s.requests && s.requests[r].Claimed?
    requires Unspent(s.t, s.requests[r].kind, s.requests[r].row)
    ensures var o := FinishSpending(s.t, s.requests[r], hash);
            var end := Next(s, now, Spending(r, hash));
            end == if o.reply.Failed? then s
                   else System(o.t, s.requests - {r},
                               s.spends + [Spend(s.requests[r].kind, s.requests[r].row,
                                                 if o.reply.NewRow? then o.reply.id else 0)])
  {
    hide FinishSpending, Unspent;
    forall q | q in s.requests && q != r ensures !s.requests[q].Claimed? {
      assert q in s.requests - {r};
    }
  }

  /** ResetPassword claims its token and spends it. */
  lemma ResetIsItsSteps(s: System, now: Time, r: RequestId, token: Digest, hash: string)
    requires NothingClaimed(s) && r !in s.requests
    ensures var o := ResetPassword(s.t, now, token, hash, true);
            var end := RunAll(s, [Timed(now, ClaimingReset(r, token, now)), Timed(now, Spending(r, hash))]);
            end.t == o.t && (o.reply == Done <==> |end.spends| == |s.spends| + 1)
  {
    hide Next, RunAll, FinishReset, NothingClaimed;
    TwoSteps(s, Timed(now, ClaimingReset(r, token, now)), Timed(now, Spending(r, hash)));
    ResetClaimStep(s, now, r, token);
    var s1 := Next(s, now, ClaimingReset(r, token, now));
    FinishRepliesAre(s.t, now, hash);
    if r in s1.requests {
      OthersUnclaimed(s, r, s1);
      SpendingStep(s1, now, r, hash);
    } else {
      NobodySpends(s1, now, r, hash);
    }
  }

  lemma OthersUnclaimed(s: System, r: RequestId, s1: System)
    requires NothingClaimed(s) && r !in s.requests && r in s1.requests
    requires s1 == s.(requests := s.requests[r := s1.requests[r]])
    ensures NothingClaimed(s1.(requests := s1.requests - {r}))
  {}

  lemma NobodySpends(s: System, now: Time, r: RequestId, hash: string)
    requires r !in s.requests || !s.requests[r].Claimed?
    ensures Next(s, now, Spending(r, hash)) == s
  {}

  lemma FinishRepliesAre(t: Tables, now: Time, hash: string)
    ensures forall id :: id in t.resets ==>
              FinishReset(t, now, id, hash).reply == Done
              || (FinishReset(t, now, id, hash).reply.Failed? && FinishReset(t, now, id, hash).t == t)
    ensures forall id :: id in t.verifications ==>
              FinishVerification(t, now, id).reply == Done
              || (FinishVerification(t, now, id).reply.Failed? && FinishVerification(t, now, id).t == t)
    ensures forall id :: id in t.invitations ==>
              RedeemInvitation(t, now, id, hash).reply.NewRow?
              || (RedeemInvitation(t, now, id, hash).reply.Failed? && RedeemInvitation(t, now, id, hash).t == t)
  {
    hide UserSessionsRevoked, UserResetsSpent, UnrevokedCount, UserByEmail;
  }

  lemma ResetClaimStep(s: System, now: Time, r: RequestId, token: Digest)
    requires NothingClaimed(s) && r !in s.requests
    ensures var found := SpendableReset(s.t.resets, token, now);
            Next(s, now, ClaimingReset(r, token, now))
            == if found.Some? then s.(requests := s.requests[r := Claimed(ResetToken, found.value, now)]) else s
  {}

  lemma VerificationClaimStep(s: System, now: Time, r: RequestId, token: Digest)
    requires NothingClaimed(s) && r !in s.requests
    ensures var found := SpendableVerification(s.t.verifications, token, now);
            Next(s, now, ClaimingVerification(r, token, now))
            == if found.Some? then s.(requests := s.requests[r := Claimed(VerificationToken, found.value, now)]) else s
  {}

  /** VerifyEmail likewise. */
  lemma VerifyIsItsSteps(s: System, now: Time, r: RequestId, token: Digest)
    requires NothingClaimed(s) && r !in s.requests
    ensures var o := VerifyEmail(s.t, now, token);
            var end := RunAll(s, [Timed(now, ClaimingVerification(r, token, now)), Timed(now, Spending(r, []))]);
            end.t == o.t && (o.reply == Done <==> |end.spends| == |s.spends| + 1)
  {
    hide Next, RunAll, FinishVerification, NothingClaimed;
    TwoSteps(s, Timed(now, ClaimingVerification(r, token, now)), Timed(now, Spending(r, [])));
    VerificationClaimStep(s, now, r, token);
    var s1 := Next(s, now, ClaimingVerification(r, token, now));
    FinishRepliesAre(s.t, now, []);
    if r in s1.requests {
      OthersUnclaimed(s, r, s1);
      SpendingStep(s1, now, r, []);
    } else {
      NobodySpends(s1, now, r, []);
    }
  }

  lemma OfferStep(s: System, now: Time, r: RequestId, token: Digest)
    requires r !in s.requests
    ensures var found := OfferedInvitation(s.t, token);
            Next(s, now, ReadingOffer(r, token))
            == if found.Some? && s.t.invitations[found.value].Pending(now)
               then s.(requests := s.requests[r := OfferRead(found.value, now)]) else s
  {}

  lemma InvitationClaimStep(s: System, now: Time, r: RequestId)
    requires NothingClaimed(s) && (r in s.requests ==> s.requests[r].OfferRead?)
    requires r in s.requests ==> s.requests[r].row in s.t.invitations
                                 && s.t.invitations[s.requests[r].row].Pending(s.requests[r].startedAt)
    ensures Next(s, now, ClaimingInvitation(r))
            == if r in s.requests
               then s.(requests := s.requests[r :=
                         Claimed(InvitationToken, s.requests[r].row, s.requests[r].startedAt)])
               else s
  {}

  /** AcceptInvitation reads the offer, claims it and spends it. */
  lemma AcceptIsItsSteps(s: System, now: Time, r: RequestId, token: Digest, hash: string)
    requires NothingClaimed(s) && r !in s.requests
    ensures var o := AcceptInvitation(s.t, now, token, hash, true);
            var end := RunAll(s, [Timed(now, ReadingOffer(r, token)), Timed(now, ClaimingInvitation(r)),
                                  Timed(now, Spending(r, hash))]);
            end.t == o.t && (o.reply.NewRow? <==> |end.spends| == |s.spends| + 1)
  {
    hide Next, RunAll, RedeemInvitation, NothingClaimed;
    var a, b, c := Timed(now, ReadingOffer(r, token)), Timed(now, ClaimingInvitation(r)), Timed(now, Spending(r, hash));
    ThreeSteps(s, a, b, c);
    TwoSteps(s, a, b);
    OfferStep(s, now, r, token);
    var s1 := Next(s, now, a.action);
    StillNothingClaimed(s, r, s1);
    InvitationClaimStep(s1, now, r);
    var s2 := Next(s1, now, b.action);
    FinishRepliesAre(s.t, now, hash);
    if r in s2.requests {
      assert s2 == s.(requests := s.requests[r := s2.requests[r]]);
      OthersUnclaimed(s, r, s2);
      SpendingStep(s2, now, r, hash);
    } else {
      NobodySpends(s2, now, r, hash);
    }
  }

  lemma StillNothingClaimed(s: System, r: RequestId, s1: System)
    requires NothingClaimed(s)
    requires || s1 == s
             || (&& r in s1.requests && s1.requests[r].OfferRead?
                 && s1 == s.(requests := s.requests[r := s1.requests[r]]))
    ensures NothingClaimed(s1)
  {}
}
