/** Single-use tokens under any interleaving of any number of requests. */
module ExactlyOnce {
  import opened Prelude
  import opened Permissions
  import opened Tables
  import opened Transactions
  import opened SerialMachine
  import opened Constraints
  import opened Frames
  import opened Interleaving

  // ---------------------------------------------------------------- spent rows stay spent

  /** The row was issued, and if it still exists it has been used or accepted. */
  ghost predicate Spent(t: Tables, kind: Kind, row: Id) {
    row < t.nextId &&
    match kind
    case InvitationToken => row in t.invitations ==> t.invitations[row].acceptedAt.Some?
    case ResetToken => row in t.resets ==> t.resets[row].usedAt.Some?
    case VerificationToken => row in t.verifications ==> t.verifications[row].usedAt.Some?
  }

  /** Invitation rows go from open to accepted only when listed in `newly`; none is reopened or rewritten. */
  ghost predicate KeepsInvitations(a: map<Id, Invitation>, b: map<Id, Invitation>, next: nat, newly: set<Id>) {
    && (forall i :: i in b && i < next ==> i in a && SameOffer(a[i], b[i]))
    && (forall i :: i in b && i < next && a[i].acceptedAt.Some? ==> b[i].acceptedAt.Some?)
    && (forall i :: i in b && b[i].acceptedAt.Some? ==> i in newly || (i in a && a[i].acceptedAt.Some?))
  }

  ghost predicate SameOffer(a: Invitation, b: Invitation) {
    && b.email == a.email && b.roleId == a.roleId && b.expiresAt == a.expiresAt
    && (b.Open() ==> a.Open())
  }

  ghost predicate KeepsResets(a: map<Id, Reset>, b: map<Id, Reset>, next: nat) {
    forall i :: i in b && i < next ==> i in a && (a[i].usedAt.Some? ==> b[i].usedAt.Some?)
  }

  ghost predicate KeepsVerifications(a: map<Id, Verification>, b: map<Id, Verification>, next: nat) {
    forall i :: i in b && i < next ==> i in a && (a[i].usedAt.Some? ==> b[i].usedAt.Some?)
  }

  /** Accounts are never removed, and never change their address. */
  ghost predicate KeepsAccounts(a: map<Id, User>, b: map<Id, User>) {
    forall u :: u in a ==> u in b && b[u].email == a[u].email
  }

  /** No spent row of `t` becomes usable in `u`, and only invitations in `newly` become accepted. */
  ghost predicate KeepsSpent(t: Tables, u: Tables, newly: set<Id>) {
    && t.nextId <= u.nextId
    && KeepsAccounts(t.users, u.users)
    && KeepsInvitations(t.invitations, u.invitations, t.nextId, newly)
    && KeepsResets(t.resets, u.resets, t.nextId)
    && KeepsVerifications(t.verifications, u.verifications, t.nextId)
  }

  lemma SpentStaysSpent(t: Tables, u: Tables, newly: set<Id>, kind: Kind, row: Id)
    requires KeepsSpent(t, u, newly) && Spent(t, kind, row)
    ensures Spent(u, kind, row)
  {}

  // ---------------------------------------------------------------- every transaction keeps spent rows spent

  lemma AccountAdded(users: map<Id, User>, next: nat, user: User)
    requires UsersOk(users, next)
    ensures KeepsAccounts(users, users[next := user])
  {}

  lemma AccountEdited(users: map<Id, User>, id: Id, user: User)
    requires id in users && user.email == users[id].email
    ensures KeepsAccounts(users, users[id := user])
  {}

  lemma AccountStepKeepsAccounts(t: Tables, now: Time, c: Command)
    requires UsersOk(t.users, t.nextId)
    requires c.CRegister? || c.CLogin? || c.CChangePassword? || c.CSetUserActive? || c.CSetSuperuser?
    ensures KeepsAccounts(t.users, Step(t, now, c).t.users)
  {
    hide UserSessionsRevoked, UnrevokedCount, HoldsRole, ActiveHolders, UsersOk, KeepsAccounts;
    NothingIsKept(t);
    match c
    case CRegister(email, hash, ok) => AccountAdded(t.users, t.nextId, User(email, Some(hash), false, true, None));
    case CLogin(email, _, upgrade, _) =>
      var found := UserByEmail(t.users, email);
      if found.Some? {
        AccountEdited(t.users, found.value, t.users[found.value].(passwordHash := upgrade));
      }
    case CChangePassword(id, _, hash, _) =>
      if id in t.users {
        AccountEdited(t.users, id, t.users[id].(passwordHash := Some(hash)));
      }
    case CSetUserActive(_, _, id, active) =>
      if id in t.users {
        AccountEdited(t.users, id, t.users[id].(isActive := active));
      }
    case CSetSuperuser(email, flag, _) =>
      var found := UserByEmail(t.users, email);
      if found.Some? {
        AccountEdited(t.users, found.value, t.users[found.value].(isSuperuser := flag));
      }
    case _ =>
  }

  lemma SweepKeepsRows(t: Tables, now: Time, c: Command)
    requires c.CRequestPasswordReset? || c.CSendVerification? || c.CPrune?
    ensures KeepsResets(t.resets, Step(t, now, c).t.resets, t.nextId)
    ensures KeepsVerifications(t.verifications, Step(t, now, c).t.verifications, t.nextId)
  {
    hide UserByEmail;
  }

  /** Everything but the four commands on invitations and the two that spend other tokens. */
  lemma StepKeepsSpent(t: Tables, now: Time, c: Command)
    requires Consistent(t)
    requires !WritesInvitations(c) && !c.CResetPassword? && !c.CVerifyEmail?
    ensures KeepsSpent(t, Step(t, now, c).t, {})
  {
    hide Consistent, Step, KeepsAccounts, KeepsInvitations, KeepsResets, KeepsVerifications;
    Unfolded(t);
    IdsGrow(t, now, c);
    InvitationsFrame(t, now, c);
    if WritesUsers(c) {
      AccountStepKeepsAccounts(t, now, c);
    } else {
      UsersFrame(t, now, c);
    }
    if c.CRequestPasswordReset? || c.CSendVerification? || c.CPrune? {
      SweepKeepsRows(t, now, c);
    } else {
      ResetsFrame(t, now, c);
      VerificationsFrame(t, now, c);
    }
    NothingIsKept(t);
  }

  lemma NothingIsKept(t: Tables)
    ensures KeepsAccounts(t.users, t.users) && KeepsInvitations(t.invitations, t.invitations, t.nextId, {})
    ensures KeepsResets(t.resets, t.resets, t.nextId)
    ensures KeepsVerifications(t.verifications, t.verifications, t.nextId)
  {}

  lemma OnlyInvitationsChange(t: Tables, u: Tables, newly: set<Id>)
    requires t.nextId <= u.nextId && u.users == t.users && u.resets == t.resets && u.verifications == t.verifications
    requires KeepsInvitations(t.invitations, u.invitations, t.nextId, newly)
    ensures KeepsSpent(t, u, newly)
  {
    hide KeepsInvitations;
  }

  lemma InvitationStatements(invitations: map<Id, Invitation>, next: nat, now: Time, roleId: Id, id: Id)
    ensures KeepsInvitations(invitations, invitations, next, {})
    ensures KeepsInvitations(invitations, InvitationsElsewhere(invitations, roleId), next, {})
    ensures id in invitations ==>
              KeepsInvitations(invitations, invitations[id := invitations[id].(revokedAt := Some(now))], next, {})
  {}

  lemma InvitationReplaced(invitations: map<Id, Invitation>, next: nat, now: Time, offered: Invitation)
    requires offered.Open()
    ensures KeepsInvitations(invitations, OpenInvitationsRevoked(invitations, offered.email, now)[next := offered],
                             next, {})
  {}

  lemma EditsKeepSpent(t: Tables, actor: Id, id: Id, key: string, before: set<Permission>, perms: set<Permission>)
    ensures KeepsSpent(t, RewriteRole(t, actor, id, key, before, perms).t, {})
    ensures KeepsSpent(t, RemoveRole(t, actor, id, key).t, {})
  {
    hide Paired, Without, KeepsInvitations, KeepsSpent, InvitationsElsewhere;
    InvitationStatements(t.invitations, t.nextId, 0, id, 0);
    OnlyInvitationsChange(t, RewriteRole(t, actor, id, key, before, perms).t, {});
    OnlyInvitationsChange(t, RemoveRole(t, actor, id, key).t, {});
  }

  lemma IssueKeepsSpent(t: Tables, now: Time, actor: Id, email: string, roleId: Id, key: string, ttl: int)
    ensures KeepsSpent(t, IssueInvitation(t, now, actor, email, roleId, key, ttl).t, {})
  {
    hide KeepsInvitations, KeepsSpent, OpenInvitationsRevoked;
    InvitationStatements(t.invitations, t.nextId, now, roleId, 0);
    InvitationReplaced(t.invitations, t.nextId, now,
                       Invitation(email, roleId, actor, t.nextId + 1, now + ttl, None, None));
    OnlyInvitationsChange(t, IssueInvitation(t, now, actor, email, roleId, key, ttl).t, {});
  }

  lemma FinishRoleKeepsSpent(t: Tables, now: Time, q: Request)
    requires q.RoleRead?
    ensures KeepsSpent(t, FinishRole(t, now, q).t, {})
  {
    hide RewriteRole, RemoveRole, IssueInvitation, KeepsSpent;
    match q.job
    case Rewrite(name, perms) => EditsKeepSpent(t, q.user, q.roleId, name, q.granted, perms);
    case Remove(key) => EditsKeepSpent(t, q.user, q.roleId, key, {}, {});
    case Offer(email, key, ttl) => IssueKeepsSpent(t, now, q.user, email, q.roleId, key, ttl);
  }

  lemma RevokeKeepsSpent(t: Tables, now: Time, actor: Id, id: Id)
    ensures KeepsSpent(t, RevokeInvitation(t, now, actor, id).t, {})
  {
    hide KeepsInvitations, KeepsSpent, InvitationsElsewhere, OpenInvitationsRevoked;
    InvitationStatements(t.invitations, t.nextId, now, 0, id);
    OnlyInvitationsChange(t, RevokeInvitation(t, now, actor, id).t, {});
  }

  lemma AssignKeepsSpent(t: Tables, actor: Id, target: Id, ids: set<Id>, before: set<string>, after: set<string>)
    ensures KeepsSpent(t, AssignRoles(t, actor, target, ids, before, after).t, {})
  {
    hide KeepsInvitations, KeepsSpent, InvitationsElsewhere, OpenInvitationsRevoked, Without, Paired;
    InvitationStatements(t.invitations, t.nextId, 0, 0, 0);
    OnlyInvitationsChange(t, AssignRoles(t, actor, target, ids, before, after).t, {});
  }

  lemma RedeemingSpends(t: Tables, now: Time, id: Id, hash: string)
    requires UsersOk(t.users, t.nextId) && id in t.invitations && id < t.nextId
    requires !RedeemInvitation(t, now, id, hash).reply.Failed?
    ensures var o := RedeemInvitation(t, now, id, hash);
            && KeepsSpent(t, o.t, {id}) && Spent(o.t, InvitationToken, id)
            && o.reply == NewRow(t.nextId) && t.nextId in o.t.users && t.nextId < o.t.nextId
            && id in o.t.invitations && o.t.users[t.nextId].email == o.t.invitations[id].email
  {
    hide UserByEmail, KeepsAccounts, UsersOk;
    var inv := t.invitations[id];
    AccountAdded(t.users, t.nextId, User(inv.email, Some(hash), false, true, Some(now)));
  }

  lemma ResettingSpends(t: Tables, now: Time, id: Id, hash: string)
    requires id in t.resets && id < t.nextId && !FinishReset(t, now, id, hash).reply.Failed?
    ensures KeepsSpent(t, FinishReset(t, now, id, hash).t, {}) && Spent(FinishReset(t, now, id, hash).t, ResetToken, id)
  {
    hide KeepsAccounts, KeepsInvitations, KeepsVerifications, UserSessionsRevoked, UnrevokedCount;
    var userId := t.resets[id].userId;
    AccountEdited(t.users, userId, t.users[userId].(passwordHash := Some(hash)));
    OnlyInvitationsChange(t, t, {}) by {
      InvitationStatements(t.invitations, t.nextId, 0, 0, 0);
    }
  }

  lemma VerifyingSpends(t: Tables, now: Time, id: Id)
    requires id in t.verifications && id < t.nextId && !FinishVerification(t, now, id).reply.Failed?
    ensures KeepsSpent(t, FinishVerification(t, now, id).t, {})
    ensures Spent(FinishVerification(t, now, id).t, VerificationToken, id)
  {
    hide KeepsAccounts, KeepsInvitations, KeepsResets;
    var userId := t.verifications[id].userId;
    AccountEdited(t.users, userId, t.users[userId].(verifiedAt := Some(now)));
    OnlyInvitationsChange(t, t, {}) by {
      InvitationStatements(t.invitations, t.nextId, 0, 0, 0);
    }
  }

  lemma RowWasIssued(t: Tables, kind: Kind, row: Id)
    requires Consistent(t) && Unspent(t, kind, row)
    ensures row < t.nextId
  {
    hide UsersOk, RolesOk, SeedsOk, GrantsOk, AssignmentsOk, KeysOk, SessionsOk, OneOpenInvitation;
  }

  /** A successful spending leaves its row spent; one on an invitation creates the account it was sent to. */
  lemma SpendingSpends(t: Tables, q: Request, hash: string)
    requires Consistent(t) && q.Claimed? && Unspent(t, q.kind, q.row)
    requires !FinishSpending(t, q, hash).reply.Failed?
    ensures var o := FinishSpending(t, q, hash);
            && KeepsSpent(t, o.t, if q.kind.InvitationToken? then {q.row} else {})
            && Spent(o.t, q.kind, q.row)
            && (q.kind.InvitationToken? ==>
                  && o.reply == NewRow(t.nextId) && t.nextId in o.t.users && t.nextId < o.t.nextId
                  && q.row in o.t.invitations && o.t.users[t.nextId].email == o.t.invitations[q.row].email)
  {
    hide Consistent, KeepsSpent, RedeemInvitation, FinishReset, FinishVerification, Spent, UsersOk;
    RowWasIssued(t, q.kind, q.row);
    Unfolded(t);
    match q.kind
    case InvitationToken => RedeemingSpends(t, q.startedAt, q.row, hash);
    case ResetToken => ResettingSpends(t, q.startedAt, q.row, hash);
    case VerificationToken => VerifyingSpends(t, q.startedAt, q.row);
  }

  // ---------------------------------------------------------------- every commit

  /** A step of the split machine that is one whole serial command. */
  ghost function CommandOf(s: System, now: Time, a: Action): Option<Command> {
    match a
    case Atomic(c) => Some(c)
    case CreatingRole(r, key, name, perms, ok) =>
      if r in s.requests && s.requests[r].Authorized? then
        Some(CCreateRole(s.requests[r].user, s.requests[r].access, key, name, perms, ok))
      else None
    case CreatingKey(r, name, perms, expiresAt, ok) =>
      if r in s.requests && s.requests[r].Authorized? then
        Some(CCreateApiKey(s.requests[r].user, s.requests[r].access, name, perms, expiresAt, ok))
      else None
    case SettingActive(r, target, active) =>
      if r in s.requests && s.requests[r].Authorized? then
        Some(CSetUserActive(s.requests[r].user, s.requests[r].isSuperuser, target, active))
      else None
    case RevokingKey(r, id) =>
      if r in s.requests && s.requests[r].Authorized? then Some(CRevokeApiKey(s.requests[r].user, id)) else None
    case RevokingInvitation(r, id) =>
      if r in s.requests && s.requests[r].Authorized? then Some(CRevokeInvitation(s.requests[r].user, id)) else None
    case _ => None
  }

  lemma CommitIsStep(s: System, now: Time, a: Action)
    requires CommandOf(s, now, a).Some? && Commit(s, now, a).Some?
    ensures Commit(s, now, a).value == Step(s.t, now, CommandOf(s, now, a).value)
  {
    hide CreateRole, CreateApiKey, SetUserActive, RevokeApiKey, RevokeInvitation;
  }

  lemma CommitKeepsSpent(s: System, now: Time, a: Action)
    requires Consistent(s.t) && Commits(s, now, a) && !a.Spending?
    ensures KeepsSpent(s.t, Commit(s, now, a).value.t, {})
  {
    hide Consistent, Step, KeepsSpent, FinishRole, AssignRoles, RespectsClaims, Unspent, FinishSpending;
    if CommandOf(s, now, a).Some? && !a.RevokingInvitation? {
      CommitIsStep(s, now, a);
      StepKeepsSpent(s.t, now, CommandOf(s, now, a).value);
    } else {
      match a
      case RevokingInvitation(r, id) => RevokeKeepsSpent(s.t, now, s.requests[r].user, id);
      case FinishingRole(r) => FinishRoleKeepsSpent(s.t, now, s.requests[r]);
      case FinishingAssignment(r) =>
        var q := s.requests[r];
        AssignKeepsSpent(s.t, q.user, q.target, q.ids, q.before, q.keys);
      case _ =>
    }
  }

  lemma CommitConsistent(s: System, now: Time, a: Action)
    requires Consistent(s.t) && Commits(s, now, a) && CatalogedJobs(s)
    ensures Consistent(Commit(s, now, a).value.t)
  {
    hide Consistent, Step, FinishReset, FinishVerification, RedeemInvitation, AssignRoles, RespectsClaims, RewriteRole,
         RemoveRole, IssueInvitation;
    if CommandOf(s, now, a).Some? {
      CommitIsStep(s, now, a);
      StepConsistent(s.t, now, CommandOf(s, now, a).value);
    } else {
      match a
      case FinishingRole(r) => FinishRoleConsistent(s.t, now, s.requests[r]);
      case FinishingAssignment(r) =>
        var q := s.requests[r];
        AssignRolesConsistent(s.t, q.user, q.target, q.ids, q.before, q.keys);
      case Spending(r, hash) => FinishSpendingConsistent(s.t, s.requests[r], hash);
      case _ =>
    }
  }

  /** What a pending edit will write was checked against the catalog when it was admitted. */
  ghost predicate CatalogedJobs(s: System) {
    forall r :: r in s.requests && s.requests[r].RoleRead? && s.requests[r].job.Rewrite? ==>
      s.requests[r].job.perms <= CATALOG
  }

  lemma FinishRoleConsistent(t: Tables, now: Time, q: Request)
    requires Consistent(t) && q.RoleRead? && (q.job.Rewrite? ==> q.job.perms <= CATALOG)
    ensures Consistent(FinishRole(t, now, q).t)
  {
    hide Consistent, RewriteRole, RemoveRole, IssueInvitation;
    match q.job
    case Rewrite(name, perms) => RewriteRoleConsistent(t, q.user, q.roleId, name, q.granted, perms);
    case Remove(key) => RemoveRoleConsistent(t, q.user, q.roleId, key);
    case Offer(email, key, ttl) => IssueInvitationConsistent(t, now, q.user, email, q.roleId, key, ttl);
  }

  lemma FinishSpendingConsistent(t: Tables, q: Request, hash: string)
    requires Consistent(t) && q.Claimed? && Unspent(t, q.kind, q.row)
    ensures Consistent(FinishSpending(t, q, hash).t)
  {
    hide Consistent, FinishReset, FinishVerification, RedeemInvitation;
    match q.kind
    case InvitationToken => RedeemInvitationConsistent(t, q.startedAt, q.row, hash);
    case ResetToken => FinishResetConsistent(t, q.startedAt, q.row, hash);
    case VerificationToken => FinishVerificationConsistent(t, q.startedAt, q.row);
  }

  // ---------------------------------------------------------------- the invariant

  /** Claims are exclusive, and a claimed row is still there to be spent. */
  ghost predicate ClaimsHold(s: System) {
    && (forall q :: q in s.requests && s.requests[q].Claimed? ==>
          Unspent(s.t, s.requests[q].kind, s.requests[q].row))
    && (forall q, r | q in s.requests && r in s.requests && s.requests[q].Claimed? && s.requests[r].Claimed? ::
          s.requests[q].kind == s.requests[r].kind && s.requests[q].row == s.requests[r].row ==> q == r)
  }

  ghost predicate OncePerToken(spends: seq<Spend>) {
    forall i, j | 0 <= i < |spends| && 0 <= j < |spends| ::
      spends[i].kind == spends[j].kind && spends[i].row == spends[j].row ==> i == j
  }

  ghost predicate OncePerAccount(spends: seq<Spend>) {
    forall i, j | 0 <= i < |spends| && 0 <= j < |spends| && spends[i].kind.InvitationToken? ::
      spends[j].kind.InvitationToken? && spends[i].account == spends[j].account ==> i == j
  }

  /** The account an accepted invitation created: new in this run, still there, with the invited address. */
  ghost predicate Created(t: Tables, base: nat, x: Spend) {
    && base <= x.account < t.nextId && x.account in t.users
    && (x.row in t.invitations ==> t.users[x.account].email == t.invitations[x.row].email)
  }

  ghost predicate AllSpent(t: Tables, base: nat, spends: seq<Spend>) {
    forall i :: 0 <= i < |spends| ==>
      Spent(t, spends[i].kind, spends[i].row) && (spends[i].kind.InvitationToken? ==> Created(t, base, spends[i]))
  }

  /** Every accepted invitation was accepted before the run or by a spending in it. */
  ghost predicate AcceptancesExplained(t: Tables, before: map<Id, Invitation>, spends: seq<Spend>) {
    forall i :: i in t.invitations && t.invitations[i].acceptedAt.Some? ==>
      (i in before && before[i].acceptedAt.Some?) || SpentIn(spends, InvitationToken, i)
  }

  ghost predicate SpentIn(spends: seq<Spend>, kind: Kind, row: Id) {
    exists k :: 0 <= k < |spends| && spends[k].kind == kind && spends[k].row == row
  }

  ghost predicate Sound(s: System, start: Tables) {
    && Consistent(s.t) && CatalogedJobs(s) && start.nextId <= s.t.nextId
    && ClaimsHold(s)
    && OncePerToken(s.spends) && OncePerAccount(s.spends)
    && AllSpent(s.t, start.nextId, s.spends)
    && AcceptancesExplained(s.t, start.invitations, s.spends)
  }

  lemma OthersKeepClaims(s: System, r: Option<RequestId>, after: Tables, requests: map<RequestId, Request>,
                         spends: seq<Spend>)
    requires ClaimsHold(s) && RespectsClaims(s, r, after)
    requires forall q :: q in requests ==> q in s.requests && requests[q] == s.requests[q] && Some(q) != r
    ensures ClaimsHold(System(after, requests, spends))
  {
    forall q | q in requests && requests[q].Claimed?
      ensures Unspent(after, requests[q].kind, requests[q].row)
    {
      assert SameRow(s.t, after, s.requests[q].kind, s.requests[q].row);
    }
  }

  lemma SpentStays(t: Tables, u: Tables, newly: set<Id>, base: nat, spends: seq<Spend>)
    requires KeepsSpent(t, u, newly) && AllSpent(t, base, spends)
    ensures AllSpent(u, base, spends)
  {
    hide KeepsResets, KeepsVerifications;
    forall i | 0 <= i < |spends|
      ensures Spent(u, spends[i].kind, spends[i].row)
      ensures spends[i].kind.InvitationToken? ==> Created(u, base, spends[i])
    {
      SpentStaysSpent(t, u, newly, spends[i].kind, spends[i].row);
    }
  }

  lemma CommitFacts(s: System, now: Time, a: Action)
    requires Commits(s, now, a)
    ensures Commit(s, now, a).Some? && RespectsClaims(s, Requester(a), Commit(s, now, a).value.t)
    ensures Next(s, now, a)
            == System(Commit(s, now, a).value.t, if a.Atomic? then s.requests else s.requests - {a.r},
                      s.spends + SpendOf(s, a, Commit(s, now, a).value))
  {
    hide Commit, RespectsClaims, SpendOf;
  }

  lemma QuietCommitSound(s: System, now: Time, a: Action, start: Tables)
    requires Sound(s, start) && Commits(s, now, a) && !a.Spending?
    ensures Sound(Next(s, now, a), start)
  {
    hide Consistent, Commit, KeepsAccounts, KeepsResets, KeepsVerifications, Created, Spent, Progressed, Commits,
         ClaimsHold, RespectsClaims, OncePerToken, OncePerAccount, AllSpent, Next;
    CommitFacts(s, now, a);
    var o := Commit(s, now, a).value;
    CommitConsistent(s, now, a);
    CommitKeepsSpent(s, now, a);
    SpentStays(s.t, o.t, {}, start.nextId, s.spends);
    OthersKeepClaims(s, Requester(a), o.t, Next(s, now, a).requests, Next(s, now, a).spends);
    assert s.spends + SpendOf(s, a, o) == s.spends;
  }

  lemma SpendingCommit(s: System, now: Time, a: Action)
    requires Commits(s, now, a) && a.Spending?
    ensures a.r in s.requests && s.requests[a.r].Claimed? && Unspent(s.t, s.requests[a.r].kind, s.requests[a.r].row)
    ensures Commit(s, now, a) == Some(FinishSpending(s.t, s.requests[a.r], a.hash))
    ensures !Commit(s, now, a).value.reply.Failed?
  {
    hide RespectsClaims, FinishSpending, Unspent;
  }

  lemma SpentIsNotUnspent(t: Tables, base: nat, spends: seq<Spend>, x: Spend)
    requires AllSpent(t, base, spends) && Unspent(t, x.kind, x.row) && OncePerToken(spends)
    ensures OncePerToken(spends + [x])
  {
    hide Created;
    forall i | 0 <= i < |spends| ensures !(spends[i].kind == x.kind && spends[i].row == x.row) {
      assert Spent(t, spends[i].kind, spends[i].row);
    }
  }

  lemma NewAccountIsNew(t: Tables, base: nat, spends: seq<Spend>, x: Spend)
    requires AllSpent(t, base, spends) && OncePerAccount(spends)
    requires x.kind.InvitationToken? ==> x.account == t.nextId
    ensures OncePerAccount(spends + [x])
  {
    hide Spent;
  }

  lemma SpendAppended(t: Tables, base: nat, spends: seq<Spend>, x: Spend)
    requires AllSpent(t, base, spends) && Spent(t, x.kind, x.row)
    requires x.kind.InvitationToken? ==> Created(t, base, x)
    ensures AllSpent(t, base, spends + [x])
  {
    hide Spent, Created;
  }

  lemma AcceptanceExplained(t: Tables, u: Tables, newly: set<Id>, before: map<Id, Invitation>, spends: seq<Spend>,
                            more: seq<Spend>)
    requires KeepsSpent(t, u, newly) && AcceptancesExplained(t, before, spends)
    requires forall i :: i in newly ==> SpentIn(more, InvitationToken, i)
    ensures AcceptancesExplained(u, before, spends + more)
  {
    hide KeepsAccounts, KeepsResets, KeepsVerifications;
    forall kind, i | SpentIn(spends, kind, i) ensures SpentIn(spends + more, kind, i) {
      var k :| 0 <= k < |spends| && spends[k].kind == kind && spends[k].row == i;
      assert (spends + more)[k] == spends[k];
    }
    forall kind, i | SpentIn(more, kind, i) ensures SpentIn(spends + more, kind, i) {
      var k :| 0 <= k < |more| && more[k].kind == kind && more[k].row == i;
      assert (spends + more)[|spends| + k] == more[k];
    }
  }

  lemma SpendingCommitSound(s: System, now: Time, a: Action, start: Tables)
    requires Sound(s, start) && Commits(s, now, a) && a.Spending?
    ensures Sound(Next(s, now, a), start)
  {
    hide Consistent, Commit, KeepsSpent, Spent, Unspent, Progressed, Commits, FinishSpending, AcceptancesExplained,
         ClaimsHold, RespectsClaims, OncePerToken, OncePerAccount, AllSpent, Next;
    CommitFacts(s, now, a);
    SpendingCommit(s, now, a);
    var o := Commit(s, now, a).value;
    var q := s.requests[a.r];
    var x := SpendOf(s, a, o)[0];
    var newly := if q.kind.InvitationToken? then {q.row} else {};
    CommitConsistent(s, now, a);
    SpendingSpends(s.t, q, a.hash);
    OthersKeepClaims(s, Requester(a), o.t, Next(s, now, a).requests, Next(s, now, a).spends);
    SpentStays(s.t, o.t, newly, start.nextId, s.spends);
    SpentIsNotUnspent(s.t, start.nextId, s.spends, x);
    NewAccountIsNew(s.t, start.nextId, s.spends, x);
    SpendAppended(o.t, start.nextId, s.spends, x);
    assert SpendOf(s, a, o) == [x];
    assert SpentIn([x], q.kind, q.row);
    AcceptanceExplained(s.t, o.t, newly, start.invitations, s.spends, [x]);
    assert o.t.nextId >= s.t.nextId by {
      IdsKept(s.t, o.t, newly);
    }
  }

  lemma IdsKept(t: Tables, u: Tables, newly: set<Id>)
    requires KeepsSpent(t, u, newly)
    ensures t.nextId <= u.nextId
  {}

  // ---------------------------------------------------------------- steps that only read

  /** A request can only claim a row that is unspent and that nobody else holds. */
  lemma ClaimIsExclusive(s: System, now: Time, a: Action)
    requires !a.Atomic? && Progressed(s, now, a).Some? && Progressed(s, now, a).value.Claimed?
    ensures var q := Progressed(s, now, a).value;
            Unspent(s.t, q.kind, q.row) && Unclaimed(s, a.r, q.kind, q.row)
  {
    hide AuthenticateSession, AuthenticateApiKey, Authorize, PassesRoleGuard, RolesWithIds, RolesHeld, HasRole,
         Unclaimed, UnionPermissions, Holders;
  }

  lemma JobsAreCataloged(s: System, now: Time, a: Action)
    requires !a.Atomic? && Progressed(s, now, a).Some? && Progressed(s, now, a).value.RoleRead?
    ensures var q := Progressed(s, now, a).value; q.job.Rewrite? ==> q.job.perms <= CATALOG
  {
    hide AuthenticateSession, AuthenticateApiKey, Authorize, RolesWithIds, RolesHeld, HasRole, Unclaimed,
         UnionPermissions, Holders;
  }

  lemma ReadingFacts(s: System, now: Time, a: Action)
    requires !Commits(s, now, a)
    ensures Next(s, now, a).t == s.t && Next(s, now, a).spends == s.spends
    ensures || Next(s, now, a) == s
            || (a.GivingUp? && Next(s, now, a) == s.(requests := s.requests - {a.r}))
            || (!a.Atomic? && Progressed(s, now, a).Some?
                && Next(s, now, a) == s.(requests := s.requests[a.r := Progressed(s, now, a).value]))
  {
    hide Commits, Progressed;
  }

  lemma ReadingSound(s: System, now: Time, a: Action, start: Tables)
    requires Sound(s, start) && !Commits(s, now, a)
    ensures Sound(Next(s, now, a), start)
  {
    hide Consistent, Commit, Unspent, Progressed, Commits, AcceptancesExplained, OncePerToken, OncePerAccount, AllSpent,
         Next;
    ReadingFacts(s, now, a);
    if !a.Atomic? && Progressed(s, now, a).Some? {
      if Progressed(s, now, a).value.Claimed? {
        ClaimIsExclusive(s, now, a);
      }
      if Progressed(s, now, a).value.RoleRead? {
        JobsAreCataloged(s, now, a);
      }
    }
  }

  // ---------------------------------------------------------------- the theorems

  lemma NextSound(s: System, now: Time, a: Action, start: Tables)
    requires Sound(s, start)
    ensures Sound(Next(s, now, a), start)
  {
    hide Sound, Next, Commits;
    if !Commits(s, now, a) {
      ReadingSound(s, now, a, start);
    } else if a.Spending? {
      SpendingCommitSound(s, now, a, start);
    } else {
      QuietCommitSound(s, now, a, start);
    }
  }

  lemma SoundAtStart(start: Tables)
    requires Consistent(start)
    ensures Sound(System(start, map[], []), start)
  {
    hide Consistent;
  }

  lemma SoundIsConsistent(s: System, start: Tables)
    requires Sound(s, start)
    ensures Consistent(s.t)
  {}

  lemma {:induction false} RunSound(s: System, steps: seq<Timed>, start: Tables)
    requires Sound(s, start)
    ensures Sound(RunAll(s, steps), start)
    decreases |steps|
  {
    hide Sound, Next;
    if steps != [] {
      NextSound(s, steps[0].now, steps[0].action, start);
      RunSound(Next(s, steps[0].now, steps[0].action), steps[1..], start);
    }
  }

  /** Whatever the interleaving: no token is spent by two committed transactions, a spent row is never usable again,
      and the invitations accepted during the run correspond one to one to accounts created with their address. */
  lemma TokensAreSpentOnce(start: Tables, steps: seq<Timed>)
    requires Consistent(start)
    ensures var s := RunAll(System(start, map[], []), steps);
            && Consistent(s.t)
            && OncePerToken(s.spends) && OncePerAccount(s.spends)
            && AllSpent(s.t, start.nextId, s.spends)
            && AcceptancesExplained(s.t, start.invitations, s.spends)
  {
    hide Consistent, RunAll;
    SoundAtStart(start);
    RunSound(System(start, map[], []), steps, start);
  }

  /** A claim keeps every rival out; once its request gives up the tables are as they were, the row is unspent and
      unclaimed, and a rival that was kept out of an invitation gets it. */
  lemma RolledBackStaysSpendable(s: System, start: Tables, now: Time, r: RequestId, rival: RequestId)
    requires Sound(s, start) && r in s.requests && s.requests[r].Claimed? && rival != r
    ensures var after := Next(s, now, GivingUp(r));
            && after.t == s.t && after.spends == s.spends && !Unclaimed(s, rival, s.requests[r].kind, s.requests[r].row)
            && Unspent(after.t, s.requests[r].kind, s.requests[r].row)
            && Unclaimed(after, rival, s.requests[r].kind, s.requests[r].row)
  {
    hide Consistent, AllSpent, AcceptancesExplained, OncePerToken, OncePerAccount, Unspent;
  }

  lemma RivalGetsTheInvitation(s: System, start: Tables, now: Time, r: RequestId, rival: RequestId)
    requires Sound(s, start) && r in s.requests && s.requests[r].Claimed? && s.requests[r].kind.InvitationToken?
    requires rival in s.requests && s.requests[rival].OfferRead? && s.requests[rival].row == s.requests[r].row
    requires s.requests[r].row in s.t.invitations
    requires s.t.invitations[s.requests[r].row].Pending(s.requests[rival].startedAt)
    ensures Next(s, now, ClaimingInvitation(rival)) == s
    ensures var freed := Next(s, now, GivingUp(r));
            Next(freed, now, ClaimingInvitation(rival)).requests
            == freed.requests[rival := Claimed(InvitationToken, s.requests[r].row, s.requests[rival].startedAt)]
  {
    hide Consistent, AllSpent, AcceptancesExplained, OncePerToken, OncePerAccount;
    RolledBackStaysSpendable(s, start, now, r, rival);
  }
}
