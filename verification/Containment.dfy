/** Authority containment: what a coalition of ordinary users, and every account created along the way, can ever
    reach is what the coalition held when the run began, however stale the authority each request acts on. */
module Containment {
  import opened Prelude
  import opened Permissions
  import opened Tables
  import opened Transactions
  import opened SerialMachine
  import opened Constraints
  import opened Frames
  import opened Interleaving
  import opened ExactlyOnce
  import opened RoleStructure

  /** The start of the run, when it starts, and who is in the coalition. */
  datatype Origin = Origin(start: Tables, since: Time, founders: set<Id>)

  /** The founders and every account created in the run. */
  predicate Member(b: Origin, u: Id) {
    u in b.founders || u >= b.start.nextId
  }

  /** What the coalition holds at the start: through roles, through live API keys, and through the roles that pending
      invitations offer, since accepting one brings in a member. */
  ghost function Held(b: Origin): set<Permission> {
    (set ur, g | ur in b.start.userRoles && ur.0 in b.founders && g in b.start.rolePermissions && g.0 == ur.1 :: g.1)
    + (set g | g in b.start.keyPermissions && g.0 in b.start.apiKeys
               && b.start.apiKeys[g.0].userId in b.founders && KeyLive(b.start.apiKeys[g.0], b.since) :: g.1)
    + (set i, g | i in b.start.invitations && b.start.invitations[i].Pending(b.since)
                  && g in b.start.rolePermissions && g.0 == b.start.invitations[i].roleId :: g.1)
  }

  /** Everything the row grants is held. */
  ghost predicate Low(grants: set<(Id, Permission)>, id: Id, held: set<Permission>) {
    forall p :: (id, p) in grants ==> p in held
  }

  // ---------------------------------------------------------------- the invariant on the tables

  /** Every role is as it was at the start, or within what is held. */
  ghost predicate RolesWithin(grants: set<(Id, Permission)>, roles: set<Id>, b: Origin) {
    forall r :: r in roles ==>
      || Low(grants, r, Held(b))
      || (r in b.start.roles && PermissionsOf(grants, r) == PermissionsOf(b.start.rolePermissions, r))
  }

  /** Every assignment was there at the start and is somebody else's, or is of a role within what is held. */
  ghost predicate AssignmentsWithin(userRoles: set<(Id, Id)>, grants: set<(Id, Permission)>, b: Origin) {
    forall u, r :: (u, r) in userRoles ==>
      Low(grants, r, Held(b)) || ((u, r) in b.start.userRoles && !Member(b, u))
  }

  /** Every key minted in the run, and every live key of a member, is scoped within what is held. */
  ghost predicate KeysWithin(keys: map<Id, ApiKey>, scopes: set<(Id, Permission)>, b: Origin) {
    forall k :: k in keys && (k >= b.start.nextId || (Member(b, keys[k].userId) && KeyLive(keys[k], b.since))) ==>
      Low(scopes, k, Held(b))
  }

  /** Every invitation issued in the run, and every one still pending, offers a role within what is held. */
  ghost predicate OffersWithin(invitations: map<Id, Invitation>, grants: set<(Id, Permission)>, b: Origin) {
    forall i :: i in invitations && (i >= b.start.nextId || invitations[i].Pending(b.since)) ==>
      Low(grants, invitations[i].roleId, Held(b))
  }

  ghost predicate OrdinaryMembers(users: map<Id, User>, b: Origin) {
    forall u :: u in users && Member(b, u) ==> !users[u].isSuperuser
  }

  ghost predicate Within(t: Tables, b: Origin) {
    && b.start.nextId <= t.nextId
    && RolesWithin(t.rolePermissions, t.roles.Keys, b)
    && AssignmentsWithin(t.userRoles, t.rolePermissions, b)
    && KeysWithin(t.apiKeys, t.keyPermissions, b)
    && OffersWithin(t.invitations, t.rolePermissions, b)
    && OrdinaryMembers(t.users, b)
  }

  /** A role id issued before the step that was within what is held stays so: nothing raises it. */
  ghost predicate KeepsLow(a: set<(Id, Permission)>, c: set<(Id, Permission)>, next: nat, held: set<Permission>) {
    forall r: Id | r < next && Low(a, r, held) :: Low(c, r, held)
  }

  lemma StartWithin(b: Origin)
    requires Consistent(b.start) && OrdinaryMembers(b.start.users, b)
    ensures Within(b.start, b)
  {
    hide OneOpenInvitation, SeedsOk, GrantsOk, SessionsOk, ResetsOk, VerificationsOk;
    var t := b.start;
    forall u, r | (u, r) in t.userRoles && Member(b, u) ensures Low(t.rolePermissions, r, Held(b)) {
      assert (u, r).0 in b.founders;
    }
  }

  // ---------------------------------------------------------------- what each write keeps

  /** Assignments and offers carry over when no role is raised. */
  lemma AuthorityCarries(t: Tables, grants: set<(Id, Permission)>, b: Origin)
    requires Consistent(t) && Within(t, b) && KeepsLow(t.rolePermissions, grants, t.nextId, Held(b))
    ensures AssignmentsWithin(t.userRoles, grants, b)
    ensures OffersWithin(t.invitations, grants, b)
  {
    hide OneOpenInvitation, SeedsOk, GrantsOk, SessionsOk, ResetsOk, VerificationsOk, UsersOk, KeysOk, Low, Held,
         RolesWithin, KeysWithin, OrdinaryMembers, Member;
  }

  /** Rewriting one role within what is held, or inserting it. */
  lemma RoleWritten(t: Tables, id: Id, perms: set<Permission>, b: Origin)
    requires Consistent(t) && Within(t, b) && perms <= Held(b)
    ensures var grants := Without(t.rolePermissions, id) + Paired(id, perms);
            && RolesWithin(grants, t.roles.Keys + {id}, b)
            && KeepsLow(t.rolePermissions, grants, t.nextId, Held(b))
  {
    hide Consistent, Held, AssignmentsWithin, KeysWithin, OffersWithin, OrdinaryMembers;
    var grants := Without(t.rolePermissions, id) + Paired(id, perms);
    forall r | r != id ensures PermissionsOf(grants, r) == PermissionsOf(t.rolePermissions, r) {
      assert forall p :: (r, p) in grants <==> (r, p) in t.rolePermissions;
    }
  }

  lemma RoleErased(t: Tables, id: Id, b: Origin)
    requires Consistent(t) && Within(t, b)
    ensures RolesWithin(Without(t.rolePermissions, id), t.roles.Keys - {id}, b)
    ensures KeepsLow(t.rolePermissions, Without(t.rolePermissions, id), t.nextId, Held(b))
  {
    hide Consistent, Held, AssignmentsWithin, KeysWithin, OffersWithin, OrdinaryMembers;
    var grants := Without(t.rolePermissions, id);
    forall r | r != id ensures PermissionsOf(grants, r) == PermissionsOf(t.rolePermissions, r) {
      assert forall p :: (r, p) in grants <==> (r, p) in t.rolePermissions;
    }
  }

  lemma InsertRoleWithin(t: Tables, actor: Id, key: string, name: string, perms: set<Permission>, b: Origin)
    requires Consistent(t) && Within(t, b) && perms <= Held(b)
    ensures Within(InsertRole(t, actor, key, name, perms).t, b)
    ensures KeepsLow(t.rolePermissions, InsertRole(t, actor, key, name, perms).t.rolePermissions, t.nextId, Held(b))
  {
    hide Consistent, Held, AssignmentsWithin, KeysWithin, OffersWithin, OrdinaryMembers, RolesWithin, KeepsLow, Without,
         Paired;
    NothingRaised(t, b);
    RoleWritten(t, t.nextId, perms, b);
    AuthorityCarries(t, Without(t.rolePermissions, t.nextId) + Paired(t.nextId, perms), b);
    assert t.roles[t.nextId := Role(key, name, false)].Keys == t.roles.Keys + {t.nextId};
  }

  lemma NothingRaised(t: Tables, b: Origin)
    ensures KeepsLow(t.rolePermissions, t.rolePermissions, t.nextId, Held(b))
  {
    hide Low, Held;
  }

  lemma RewriteRoleWithin(t: Tables, actor: Id, id: Id, name: string, before: set<Permission>, perms: set<Permission>,
                          b: Origin)
    requires Consistent(t) && Within(t, b) && perms <= Held(b)
    ensures Within(RewriteRole(t, actor, id, name, before, perms).t, b)
    ensures KeepsLow(t.rolePermissions, RewriteRole(t, actor, id, name, before, perms).t.rolePermissions, t.nextId,
                     Held(b))
  {
    hide Consistent, Held, AssignmentsWithin, KeysWithin, OffersWithin, OrdinaryMembers, RolesWithin, KeepsLow, Without,
         Paired;
    NothingRaised(t, b);
    if id in t.roles {
      RoleWritten(t, id, perms, b);
      AuthorityCarries(t, Without(t.rolePermissions, id) + Paired(id, perms), b);
      assert t.roles[id := t.roles[id].(name := name)].Keys == t.roles.Keys + {id};
    }
  }

  lemma RemoveRoleWithin(t: Tables, actor: Id, id: Id, key: string, b: Origin)
    requires Consistent(t) && Within(t, b)
    ensures Within(RemoveRole(t, actor, id, key).t, b)
    ensures KeepsLow(t.rolePermissions, RemoveRole(t, actor, id, key).t.rolePermissions, t.nextId, Held(b))
  {
    hide Consistent, Held, AssignmentsWithin, KeysWithin, OrdinaryMembers, RolesWithin, KeepsLow, Without, Low;
    NothingRaised(t, b);
    RoleErased(t, id, b);
    AuthorityCarries(t, Without(t.rolePermissions, id), b);
  }

  lemma AssignRolesWithin(t: Tables, actor: Id, target: Id, ids: set<Id>, before: set<string>, after: set<string>,
                          b: Origin)
    requires Within(t, b) && forall r :: r in ids ==> Low(t.rolePermissions, r, Held(b))
    ensures Within(AssignRoles(t, actor, target, ids, before, after).t, b)
    ensures AssignRoles(t, actor, target, ids, before, after).t.rolePermissions == t.rolePermissions
  {
    hide Held, KeysWithin, OffersWithin, OrdinaryMembers, RolesWithin, Low;
  }

  lemma IssueInvitationWithin(t: Tables, now: Time, actor: Id, email: string, roleId: Id, key: string, ttl: int,
                              b: Origin)
    requires Within(t, b) && Low(t.rolePermissions, roleId, Held(b))
    ensures Within(IssueInvitation(t, now, actor, email, roleId, key, ttl).t, b)
    ensures IssueInvitation(t, now, actor, email, roleId, key, ttl).t.rolePermissions == t.rolePermissions
  {
    hide Held, KeysWithin, AssignmentsWithin, OrdinaryMembers, RolesWithin, Low;
  }

  lemma RevokeInvitationWithin(t: Tables, now: Time, actor: Id, id: Id, b: Origin)
    requires Within(t, b)
    ensures Within(RevokeInvitation(t, now, actor, id).t, b)
    ensures RevokeInvitation(t, now, actor, id).t.rolePermissions == t.rolePermissions
  {
    hide Held, KeysWithin, AssignmentsWithin, OrdinaryMembers, RolesWithin, Low;
  }

  lemma CreateApiKeyWithin(t: Tables, now: Time, actor: Id, access: Access, name: string, perms: seq<Permission>,
                           expiresAt: Option<Time>, ok: bool, b: Origin)
    requires Consistent(t) && Within(t, b) && access.permissions <= Held(b)
    ensures Within(CreateApiKey(t, now, actor, access, name, perms, expiresAt, ok).t, b)
  {
    hide Held, OffersWithin, AssignmentsWithin, OrdinaryMembers, RolesWithin, UsersOk, RolesOk, SeedsOk, InvitationsOk,
         OneOpenInvitation, SessionsOk, ResetsOk, VerificationsOk, AssignmentsOk;
  }

  lemma RevokeApiKeyWithin(t: Tables, now: Time, actor: Id, id: Id, b: Origin)
    requires Within(t, b)
    ensures Within(RevokeApiKey(t, now, actor, id).t, b)
  {
    hide Held, OffersWithin, AssignmentsWithin, OrdinaryMembers, RolesWithin, Low;
  }

  /** Outside the shell nobody is made a superuser. */
  ghost predicate NoNewSuperusers(a: map<Id, User>, c: map<Id, User>) {
    forall u :: u in c && c[u].isSuperuser ==> u in a && a[u].isSuperuser
  }

  lemma OrdinaryAccounts(users: map<Id, User>, id: Id, user: User)
    requires user.isSuperuser ==> id in users && users[id].isSuperuser
    ensures NoNewSuperusers(users, users) && NoNewSuperusers(users, users[id := user])
  {}

  lemma StepMakesNoSuperusers(t: Tables, now: Time, c: Command)
    requires c.CRegister? || c.CLogin? || c.CChangePassword? || c.CSetUserActive?
    ensures NoNewSuperusers(t.users, Step(t, now, c).t.users)
  {
    hide UserSessionsRevoked, UnrevokedCount, HoldsRole, ActiveHolders, NoNewSuperusers;
    match c
    case CRegister(email, hash, ok) =>
      OrdinaryAccounts(t.users, t.nextId, User(email, Some(hash), false, true, None));
    case CLogin(email, _, upgrade, _) =>
      OrdinaryAccounts(t.users, 0, User([], None, false, true, None));
      var found := UserByEmail(t.users, email);
      if found.Some? {
        OrdinaryAccounts(t.users, found.value, t.users[found.value].(passwordHash := upgrade));
      }
    case CChangePassword(id, _, hash, _) =>
      OrdinaryAccounts(t.users, 0, User([], None, false, true, None));
      if id in t.users {
        OrdinaryAccounts(t.users, id, t.users[id].(passwordHash := Some(hash)));
      }
    case CSetUserActive(_, _, id, active) =>
      OrdinaryAccounts(t.users, 0, User([], None, false, true, None));
      if id in t.users {
        OrdinaryAccounts(t.users, id, t.users[id].(isActive := active));
      }
    case _ =>
  }

  /** A step that writes none of roles, grants, assignments, keys and invitations. */
  lemma QuietStepWithin(t: Tables, now: Time, c: Command, b: Origin)
    requires Within(t, b) && !c.FromShell()
    requires !WritesAuthority(c) && !WritesInvitations(c) && !WritesKeys(c) && !c.CResetPassword? && !c.CVerifyEmail?
    ensures Within(Step(t, now, c).t, b)
    ensures Step(t, now, c).t.rolePermissions == t.rolePermissions
  {
    hide Held, OffersWithin, AssignmentsWithin, RolesWithin, KeysWithin, Step, Member;
    IdsGrow(t, now, c);
    RolesFrame(t, now, c);
    GrantsFrame(t, now, c);
    AssignmentsFrame(t, now, c);
    KeysFrame(t, now, c);
    ScopesFrame(t, now, c);
    InvitationsFrame(t, now, c);
    if WritesUsers(c) {
      StepMakesNoSuperusers(t, now, c);
    } else {
      UsersFrame(t, now, c);
    }
  }

  lemma RedeemWithin(t: Tables, now: Time, id: Id, hash: string, b: Origin)
    requires Consistent(t) && Within(t, b) && id in t.invitations && t.invitations[id].Pending(b.since)
    ensures Within(RedeemInvitation(t, now, id, hash).t, b)
    ensures RedeemInvitation(t, now, id, hash).t.rolePermissions == t.rolePermissions
  {
    hide Held, RolesWithin, KeysWithin, Low, Consistent, UserByEmail;
  }

  lemma ResetWithin(t: Tables, now: Time, id: Id, hash: string, b: Origin)
    requires Within(t, b) && id in t.resets
    ensures Within(FinishReset(t, now, id, hash).t, b)
    ensures FinishReset(t, now, id, hash).t.rolePermissions == t.rolePermissions
  {
    hide Held, RolesWithin, KeysWithin, OffersWithin, AssignmentsWithin, Member, UserSessionsRevoked, UserResetsSpent,
         UnrevokedCount;
  }

  lemma VerificationWithin(t: Tables, now: Time, id: Id, b: Origin)
    requires Within(t, b) && id in t.verifications
    ensures Within(FinishVerification(t, now, id).t, b)
    ensures FinishVerification(t, now, id).t.rolePermissions == t.rolePermissions
  {
    hide Held, RolesWithin, KeysWithin, OffersWithin, AssignmentsWithin, Member;
  }

  // ---------------------------------------------------------------- the invariant on requests

  /** What a request carries: an ordinary member's identity and nothing beyond what is held, however old. */
  ghost predicate RequestWithin(q: Request, t: Tables, b: Origin) {
    match q
    case Authenticated(user, isSuperuser, scope) =>
      Member(b, user) && !isSuperuser && (scope.Some? ==> scope.value <= Held(b))
    case Authorized(user, isSuperuser, access) => Member(b, user) && !isSuperuser && access.permissions <= Held(b)
    case RoleRead(user, access, job, roleId, _) =>
      match job {
        case Rewrite(_, perms) => perms <= Held(b)
        case Remove(_) => true
        case Offer(_, _, _) => roleId < t.nextId && Low(t.rolePermissions, roleId, Held(b))
      }
    case RolesResolved(_, _, _, ids, _) => AllLow(ids, t, b)
    case TargetRead(_, _, _, ids, _, _, _) => AllLow(ids, t, b)
    case OfferRead(_, startedAt) => b.since <= startedAt
    case Claimed(kind, row, _) =>
      kind.InvitationToken? && row in t.invitations ==> b.since < t.invitations[row].expiresAt
  }

  ghost predicate AllLow(ids: set<Id>, t: Tables, b: Origin) {
    forall r :: r in ids ==> r < t.nextId && Low(t.rolePermissions, r, Held(b))
  }

  ghost predicate RequestsWithin(s: System, b: Origin) {
    forall q :: q in s.requests ==> RequestWithin(s.requests[q], s.t, b)
  }

  /** A commit by one request leaves what the others carry within bounds. */
  lemma RequestCarries(q: Request, t: Tables, u: Tables, newly: set<Id>, b: Origin)
    requires RequestWithin(q, t, b) && KeepsSpent(t, u, newly)
    requires KeepsLow(t.rolePermissions, u.rolePermissions, t.nextId, Held(b))
    requires q.Claimed? ==> q.row < t.nextId
    ensures RequestWithin(q, u, b)
  {
    hide Held, Low, KeepsAccounts, KeepsResets, KeepsVerifications, Member;
  }

  // ---------------------------------------------------------------- one step

  lemma SpendingWithin(t: Tables, q: Request, hash: string, b: Origin)
    requires Consistent(t) && Within(t, b) && q.Claimed? && Unspent(t, q.kind, q.row) && RequestWithin(q, t, b)
    ensures Within(FinishSpending(t, q, hash).t, b)
    ensures FinishSpending(t, q, hash).t.rolePermissions == t.rolePermissions
  {
    hide Consistent, Within, RedeemInvitation, FinishReset, FinishVerification, Held;
    match q.kind
    case InvitationToken => RedeemWithin(t, q.startedAt, q.row, hash, b);
    case ResetToken => ResetWithin(t, q.startedAt, q.row, hash, b);
    case VerificationToken => VerificationWithin(t, q.startedAt, q.row, b);
  }

  lemma FinishRoleWithin(t: Tables, now: Time, q: Request, b: Origin)
    requires Consistent(t) && Within(t, b) && q.RoleRead? && RequestWithin(q, t, b)
    ensures Within(FinishRole(t, now, q).t, b)
    ensures KeepsLow(t.rolePermissions, FinishRole(t, now, q).t.rolePermissions, t.nextId, Held(b))
  {
    hide Consistent, Within, RewriteRole, RemoveRole, IssueInvitation, Held, Low, KeepsLow;
    NothingRaised(t, b);
    match q.job
    case Rewrite(name, perms) => RewriteRoleWithin(t, q.user, q.roleId, name, q.granted, perms, b);
    case Remove(key) => RemoveRoleWithin(t, q.user, q.roleId, key, b);
    case Offer(email, key, ttl) => IssueInvitationWithin(t, now, q.user, email, q.roleId, key, ttl, b);
  }

  lemma CreateRoleWithin(t: Tables, actor: Id, access: Access, key: string, name: string, perms: seq<Permission>,
                         ok: bool, b: Origin)
    requires Consistent(t) && Within(t, b) && access.permissions <= Held(b)
    ensures Within(CreateRole(t, actor, access, key, name, perms, ok).t, b)
    ensures KeepsLow(t.rolePermissions, CreateRole(t, actor, access, key, name, perms, ok).t.rolePermissions, t.nextId,
                     Held(b))
  {
    hide Consistent, Within, InsertRole, Held, KeepsLow;
    NothingRaised(t, b);
    if PermissionSet(perms) <= access.permissions {
      InsertRoleWithin(t, actor, key, name, PermissionSet(perms), b);
    }
  }

  lemma CommandWithin(t: Tables, now: Time, c: Command, b: Origin)
    requires Consistent(t) && Within(t, b) && !c.FromShell()
    requires RunsAtomically(c) || c.CCreateRole? || c.CCreateApiKey? || c.CSetUserActive? || c.CRevokeApiKey?
             || c.CRevokeInvitation?
    requires c.CCreateRole? || c.CCreateApiKey? ==> c.access.permissions <= Held(b)
    ensures Within(Step(t, now, c).t, b)
    ensures KeepsLow(t.rolePermissions, Step(t, now, c).t.rolePermissions, t.nextId, Held(b))
  {
    hide Consistent, Within, Held, KeepsLow, CreateRole, CreateApiKey, SetUserActive, RevokeApiKey, RevokeInvitation,
         Register, Login, ChangePassword, RequestPasswordReset, SendVerification, Prune, Logout, RevokeSession;
    NothingRaised(t, b);
    match c
    case CCreateRole(actor, access, key, name, perms, ok) =>
      CreateRoleWithin(t, actor, access, key, name, perms, ok, b);
    case CCreateApiKey(actor, access, name, perms, expiresAt, ok) =>
      CreateApiKeyWithin(t, now, actor, access, name, perms, expiresAt, ok, b);
      GrantsFrame(t, now, c);
    case CRevokeApiKey(actor, id) =>
      RevokeApiKeyWithin(t, now, actor, id, b);
      GrantsFrame(t, now, c);
    case CRevokeInvitation(actor, id) => RevokeInvitationWithin(t, now, actor, id, b);
    case _ => QuietStepWithin(t, now, c, b);
  }

  lemma CommitWithin(s: System, now: Time, a: Action, b: Origin)
    requires Consistent(s.t) && Within(s.t, b) && RequestsWithin(s, b) && Commits(s, now, a)
    requires a.Atomic? ==> !a.command.FromShell()
    ensures Within(Commit(s, now, a).value.t, b)
    ensures KeepsLow(s.t.rolePermissions, Commit(s, now, a).value.t.rolePermissions, s.t.nextId, Held(b))
  {
    hide Consistent, Step, KeepsLow, FinishRole, AssignRoles, RespectsClaims, Unspent, FinishSpending, Within, Held,
         Low;
    NothingRaised(s.t, b);
    if CommandOf(s, now, a).Some? {
      CommitIsStep(s, now, a);
      CommandWithin(s.t, now, CommandOf(s, now, a).value, b);
    } else {
      match a
      case FinishingRole(r) => FinishRoleWithin(s.t, now, s.requests[r], b);
      case FinishingAssignment(r) =>
        var q := s.requests[r];
        assert RequestWithin(q, s.t, b);
        AssignRolesWithin(s.t, q.user, q.target, q.ids, q.before, q.keys, b);
      case Spending(r, hash) =>
        assert RequestWithin(s.requests[r], s.t, b);
        SpendingWithin(s.t, s.requests[r], hash, b);
      case _ =>
    }
  }

  /** Whose credentials a new request may carry: only members drive the run. */
  ghost predicate Driven(s: System, now: Time, a: Action, b: Origin) {
    && (a.Atomic? ==> !a.command.FromShell())
    && ((a.Authenticate? || a.AuthenticateWithKey?) && Progressed(s, now, a).Some? ==>
          Member(b, Progressed(s, now, a).value.user))
  }

  lemma AccessWithin(t: Tables, user: Id, b: Origin)
    requires Within(t, b) && Member(b, user)
    ensures Authorize(t, user, false).permissions <= Held(b)
  {
    hide Held, RolesWithin, KeysWithin, OffersWithin, OrdinaryMembers, Member;
    assert Authorize(t, user, false).permissions == EffectivePermissions(t, user);
    forall p | p in EffectivePermissions(t, user) ensures p in Held(b) {
      EffectiveIff(t, user, p);
    }
  }

  lemma ScopeWithin(t: Tables, now: Time, token: Digest, b: Origin)
    requires Within(t, b) && b.since <= now && AuthenticateApiKey(t, now, token).KeyAccepted?
    requires Member(b, AuthenticateApiKey(t, now, token).userId)
    ensures AuthenticateApiKey(t, now, token).scope <= Held(b)
  {
    hide Held, RolesWithin, OffersWithin, AssignmentsWithin, OrdinaryMembers, Member;
  }

  lemma GuardedRoleIsLow(t: Tables, access: Access, job: RoleJob, roleId: Id, b: Origin)
    requires Consistent(t) && access.permissions <= Held(b) && PassesRoleGuard(t, access, job, roleId)
    ensures roleId < t.nextId && Low(t.rolePermissions, roleId, Held(b))
    ensures job.Rewrite? ==> job.perms <= Held(b)
  {
    hide UsersOk, SeedsOk, GrantsOk, AssignmentsOk, InvitationsOk, OneOpenInvitation, KeysOk, SessionsOk, ResetsOk,
         VerificationsOk, Held, UserByEmail;
  }

  lemma ResolvedRolesAreLow(t: Tables, access: Access, ids: set<Id>, b: Origin)
    requires Consistent(t) && access.permissions <= Held(b) && ids <= t.roles.Keys
    requires UnionPermissions(RolesWithIds(t, ids)) <= access.permissions
    ensures AllLow(ids, t, b)
  {
    hide UsersOk, SeedsOk, GrantsOk, AssignmentsOk, InvitationsOk, OneOpenInvitation, KeysOk, SessionsOk, ResetsOk,
         VerificationsOk, Held;
    forall r, p | r in ids && (r, p) in t.rolePermissions ensures p in Held(b) {
      assert RoleAt(t, r) in RolesWithIds(t, ids) && p in RoleAt(t, r).permissions;
    }
  }

  /** Every step that only reads leaves its request within bounds. */
  lemma ProgressWithin(s: System, now: Time, a: Action, b: Origin)
    requires Consistent(s.t) && Within(s.t, b) && RequestsWithin(s, b) && b.since <= now && Driven(s, now, a, b)
    requires !a.Atomic? && Progressed(s, now, a).Some?
    ensures RequestWithin(Progressed(s, now, a).value, s.t, b)
  {
    hide Consistent, Held, RolesWithin, KeysWithin, OffersWithin, AssignmentsWithin, Low, AuthenticateSession,
         AuthenticateApiKey, Authorize, Member, PassesRoleGuard, RolesHeld, RolesWithIds, UnionPermissions, HasRole,
         Holders, Unclaimed, OfferedInvitation, SpendableReset, SpendableVerification, AllLow;
    match a
    case AuthenticateWithKey(r, token) => ScopeWithin(s.t, now, token, b);
    case Authorizing(r) =>
      assert RequestWithin(s.requests[r], s.t, b);
      if s.requests[r].scope.None? {
        AccessWithin(s.t, s.requests[r].user, b);
      }
    case ReadingRole(r, job, roleId) =>
      assert RequestWithin(s.requests[r], s.t, b);
      GuardedRoleIsLow(s.t, s.requests[r].access, job, roleId, b);
    case ResolvingRoles(r, target, ids) =>
      assert RequestWithin(s.requests[r], s.t, b);
      ResolvedRolesAreLow(s.t, s.requests[r].access, ids, b);
    case ReadingTarget(r) => assert RequestWithin(s.requests[r], s.t, b);
    case CountingAdmins(r) => assert RequestWithin(s.requests[r], s.t, b);
    case ClaimingInvitation(r) => assert RequestWithin(s.requests[r], s.t, b);
    case _ =>
  }

  lemma ClaimedRowsWereIssued(s: System, start: Tables, q: RequestId)
    requires Sound(s, start) && q in s.requests && s.requests[q].Claimed?
    ensures s.requests[q].row < s.t.nextId
  {
    hide Consistent, AllSpent, AcceptancesExplained, OncePerToken, OncePerAccount, Unspent;
    RowWasIssued(s.t, s.requests[q].kind, s.requests[q].row);
  }

  lemma CommitKeepsSomeSpent(s: System, now: Time, a: Action) returns (newly: set<Id>)
    requires Consistent(s.t) && Commits(s, now, a)
    ensures KeepsSpent(s.t, Commit(s, now, a).value.t, newly)
  {
    hide Consistent, Commit, KeepsSpent, Commits, FinishSpending, Unspent, Spent;
    newly := {};
    if a.Spending? {
      SpendingCommit(s, now, a);
      SpendingSpends(s.t, s.requests[a.r], a.hash);
      newly := if s.requests[a.r].kind.InvitationToken? then {s.requests[a.r].row} else {};
    } else {
      CommitKeepsSpent(s, now, a);
    }
    CommitFacts(s, now, a);
  }

  lemma NextWithin(s: System, now: Time, a: Action, b: Origin)
    requires Sound(s, b.start) && Within(s.t, b) && RequestsWithin(s, b) && b.since <= now && Driven(s, now, a, b)
    ensures Within(Next(s, now, a).t, b) && RequestsWithin(Next(s, now, a), b)
  {
    hide Commit, Progressed, Commits, RequestWithin, Within, Held, KeepsLow, KeepsSpent, Next, Sound, Member;
    assert Consistent(s.t) by {
      SoundIsConsistent(s, b.start);
    }
    if Commits(s, now, a) {
      CommitFacts(s, now, a);
      CommitWithin(s, now, a, b);
      var newly := CommitKeepsSomeSpent(s, now, a);
      var after := Next(s, now, a);
      forall q | q in after.requests ensures RequestWithin(after.requests[q], after.t, b) {
        if s.requests[q].Claimed? {
          ClaimedRowsWereIssued(s, b.start, q);
        }
        RequestCarries(s.requests[q], s.t, after.t, newly, b);
      }
    } else {
      ReadingFacts(s, now, a);
      if !a.Atomic? && Progressed(s, now, a).Some? {
        ProgressWithin(s, now, a, b);
      }
    }
  }

  // ---------------------------------------------------------------- the theorem

  ghost predicate DrivenRun(s: System, steps: seq<Timed>, b: Origin)
    decreases |steps|
  {
    steps == [] || (Driven(s, steps[0].now, steps[0].action, b)
                    && DrivenRun(Next(s, steps[0].now, steps[0].action), steps[1..], b))
  }

  lemma {:induction false} RunWithin(s: System, from: Time, steps: seq<Timed>, b: Origin)
    requires Sound(s, b.start) && Within(s.t, b) && RequestsWithin(s, b)
    requires b.since <= from && OrderedActions(from, steps) && DrivenRun(s, steps, b)
    ensures Within(RunAll(s, steps).t, b) && RequestsWithin(RunAll(s, steps), b)
    decreases |steps|
  {
    hide Sound, Next, Within, RequestsWithin, Driven;
    if steps != [] {
      NextWithin(s, steps[0].now, steps[0].action, b);
      NextSound(s, steps[0].now, steps[0].action, b.start);
      RunWithin(Next(s, steps[0].now, steps[0].action), steps[0].now, steps[1..], b);
    }
  }

  /** In every interleaved run driven only by a coalition of ordinary users and the accounts created along the way:
      every role is as it was or within what the coalition held at the start, and so is everything assigned, minted or
      offered; no member becomes a superuser or ever gains a permission that was not held at the start. */
  lemma AuthorityIsContained(b: Origin, steps: seq<Timed>)
    requires Consistent(b.start) && OrdinaryMembers(b.start.users, b)
    requires OrderedActions(b.since, steps) && DrivenRun(System(b.start, map[], []), steps, b)
    ensures var t := RunAll(System(b.start, map[], []), steps).t;
            && RolesWithin(t.rolePermissions, t.roles.Keys, b)
            && AssignmentsWithin(t.userRoles, t.rolePermissions, b)
            && KeysWithin(t.apiKeys, t.keyPermissions, b)
            && OffersWithin(t.invitations, t.rolePermissions, b)
            && OrdinaryMembers(t.users, b)
            && forall u :: Member(b, u) ==> EffectivePermissions(t, u) <= Held(b)
  {
    hide RunAll, Held, Consistent, Member, EffectivePermissions;
    StartWithin(b);
    SoundAtStart(b.start);
    RunWithin(System(b.start, map[], []), b.since, steps, b);
    var t := RunAll(System(b.start, map[], []), steps).t;
    forall u, p | Member(b, u) && p in EffectivePermissions(t, u) ensures p in Held(b) {
      EffectiveIff(t, u, p);
    }
  }
}
