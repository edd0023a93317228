/** The split-step machine: any number of requests in flight at once. A request reads in one step and commits in a
    later one, so what it read may be stale by then; a claimed row is held until its request commits or gives up.
    A request that is refused, fails or is rolled back at any point simply ends without effect. */
module Interleaving {
  import opened Prelude
  import opened Permissions
  import opened Tables
  import opened Transactions
  import opened SerialMachine

  type RequestId = nat

  /** What a transaction on a role will do once it has read the role. */
  datatype RoleJob =
    | Rewrite(name: string, perms: set<Permission>)
    | Remove(key: string)
    | Offer(email: string, key: string, ttl: int)

  datatype Kind = InvitationToken | ResetToken | VerificationToken

  /** Where a request has got to, with everything it has read so far. */
  datatype Request =
    | Authenticated(user: Id, isSuperuser: bool, scope: Option<set<Permission>>)
    | Authorized(user: Id, isSuperuser: bool, access: Access)
    | RoleRead(user: Id, access: Access, job: RoleJob, roleId: Id, granted: set<Permission>)
    | RolesResolved(user: Id, access: Access, target: Id, ids: set<Id>, keys: set<string>)
    | TargetRead(user: Id, access: Access, target: Id, ids: set<Id>, keys: set<string>, before: set<string>,
                 mustCount: bool)
    | OfferRead(row: Id, startedAt: Time)
    | Claimed(kind: Kind, row: Id, startedAt: Time)

  /** A committed spending of a token; `account` is the account an invitation created. */
  datatype Spend = Spend(kind: Kind, row: Id, account: Id)

  datatype System = System(t: Tables, requests: map<RequestId, Request>, spends: seq<Spend>)

  datatype Action =
    | Atomic(command: Command)
    | Authenticate(r: RequestId, token: Digest)
    | AuthenticateWithKey(r: RequestId, token: Digest)
    | Authorizing(r: RequestId)
    | CreatingRole(r: RequestId, key: string, name: string, perms: seq<Permission>, ok: bool)
    | CreatingKey(r: RequestId, name: string, perms: seq<Permission>, expiresAt: Option<Time>, ok: bool)
    | SettingActive(r: RequestId, target: Id, active: bool)
    | RevokingInvitation(r: RequestId, id: Id)
    | RevokingKey(r: RequestId, id: Id)
    | ReadingRole(r: RequestId, job: RoleJob, roleId: Id)
    | FinishingRole(r: RequestId)
    | ResolvingRoles(r: RequestId, target: Id, ids: set<Id>)
    | ReadingTarget(r: RequestId)
    | CountingAdmins(r: RequestId)
    | FinishingAssignment(r: RequestId)
    | ReadingOffer(r: RequestId, token: Digest)
    | ClaimingInvitation(r: RequestId)
    | ClaimingReset(r: RequestId, token: Digest, startedAt: Time)
    | ClaimingVerification(r: RequestId, token: Digest, startedAt: Time)
    | Spending(r: RequestId, hash: string)
    | GivingUp(r: RequestId)

  // ---------------------------------------------------------------- rows and row claims

  /** The row a token of this kind lives in is there and has not been spent or withdrawn. */
  ghost predicate Unspent(t: Tables, kind: Kind, row: Id) {
    match kind
    case InvitationToken => row in t.invitations && t.invitations[row].Open()
    case ResetToken => row in t.resets && t.resets[row].usedAt.None?
    case VerificationToken => row in t.verifications && t.verifications[row].usedAt.None?
  }

  ghost predicate SameRow(t: Tables, u: Tables, kind: Kind, row: Id) {
    match kind
    case InvitationToken => row in t.invitations && row in u.invitations && t.invitations[row] == u.invitations[row]
    case ResetToken => row in t.resets && row in u.resets && t.resets[row] == u.resets[row]
    case VerificationToken =>
      row in t.verifications && row in u.verifications && t.verifications[row] == u.verifications[row]
  }

  /** Nobody but `r` holds the row. */
  ghost predicate Unclaimed(s: System, r: RequestId, kind: Kind, row: Id) {
    forall q :: q in s.requests && q != r && s.requests[q].Claimed? ==>
      !(s.requests[q].kind == kind && s.requests[q].row == row)
  }

  /** A writer waits for rows that other requests hold: a commit leaves them as they are. */
  ghost predicate RespectsClaims(s: System, r: Option<RequestId>, after: Tables) {
    forall q :: q in s.requests && Some(q) != r && s.requests[q].Claimed? ==>
      SameRow(s.t, after, s.requests[q].kind, s.requests[q].row)
  }

  // ---------------------------------------------------------------- one action

  /** The commands that run as one step here too. The others are split. */
  predicate RunsAtomically(c: Command) {
    c.CRegister? || c.CLogin? || c.CLogout? || c.CRevokeSession? || c.CChangePassword? || c.CSetSuperuser?
    || c.CGrantRoleByKey? || c.CRequestPasswordReset? || c.CSendVerification? || c.CAuthenticate?
    || c.CAuthenticateKey? || c.CListSessions? || c.CPrune?
  }

  /** The permission requirePermission asks for on the route of each job. */
  function RoutePermission(job: RoleJob): Permission {
    match job
    case Rewrite(_, _) => RolesUpdate
    case Remove(_) => RolesDelete
    case Offer(_, _, _) => InvitationsCreate
  }

  /** What UpdateRole, DeleteRole and Invite check on the role they read. */
  ghost predicate PassesRoleGuard(t: Tables, access: Access, job: RoleJob, roleId: Id) {
    && roleId in t.roles
    && PermissionsOf(t.rolePermissions, roleId) <= access.permissions
    && match job
       case Rewrite(_, perms) => !t.roles[roleId].isSystem && perms <= CATALOG && perms <= access.permissions
       case Remove(key) => !t.roles[roleId].isSystem && key == t.roles[roleId].key
       case Offer(email, key, _) => key == t.roles[roleId].key && UserByEmail(t.users, email).None?
  }

  ghost function FinishRole(t: Tables, now: Time, q: Request): Outcome
    requires q.RoleRead?
  {
    match q.job
    case Rewrite(name, perms) => RewriteRole(t, q.user, q.roleId, name, q.granted, perms)
    case Remove(key) => RemoveRole(t, q.user, q.roleId, key)
    case Offer(email, key, ttl) => IssueInvitation(t, now, q.user, email, q.roleId, key, ttl)
  }

  ghost function FinishSpending(t: Tables, q: Request, hash: string): Outcome
    requires q.Claimed? && Unspent(t, q.kind, q.row)
  {
    match q.kind
    case InvitationToken => RedeemInvitation(t, q.startedAt, q.row, hash)
    case ResetToken => FinishReset(t, q.startedAt, q.row, hash)
    case VerificationToken => FinishVerification(t, q.startedAt, q.row)
  }

  /** What an action that commits a transaction does; None for the actions that only read. */
  ghost function Commit(s: System, now: Time, a: Action): Option<Outcome> {
    match a
    case Atomic(c) => Some(Step(s.t, now, c))
    case CreatingRole(r, key, name, perms, ok) =>
      if r in s.requests && s.requests[r].Authorized? && s.requests[r].access.Can(RolesCreate) then
        Some(CreateRole(s.t, s.requests[r].user, s.requests[r].access, key, name, perms, ok))
      else None
    case CreatingKey(r, name, perms, expiresAt, ok) =>
      if r in s.requests && s.requests[r].Authorized? && s.requests[r].access.Can(ApiKeysCreate) then
        Some(CreateApiKey(s.t, now, s.requests[r].user, s.requests[r].access, name, perms, expiresAt, ok))
      else None
    case SettingActive(r, target, active) =>
      if r in s.requests && s.requests[r].Authorized? && s.requests[r].access.Can(UsersUpdate) then
        Some(SetUserActive(s.t, now, s.requests[r].user, s.requests[r].isSuperuser, target, active))
      else None
    case RevokingInvitation(r, id) =>
      if r in s.requests && s.requests[r].Authorized? && s.requests[r].access.Can(InvitationsDelete) then
        Some(RevokeInvitation(s.t, now, s.requests[r].user, id))
      else None
    case RevokingKey(r, id) =>
      if r in s.requests && s.requests[r].Authorized? && s.requests[r].access.Can(ApiKeysDelete) then
        Some(RevokeApiKey(s.t, now, s.requests[r].user, id))
      else None
    case FinishingRole(r) =>
      if r in s.requests && s.requests[r].RoleRead? then Some(FinishRole(s.t, now, s.requests[r])) else None
    case FinishingAssignment(r) =>
      if r in s.requests && s.requests[r].TargetRead? && !s.requests[r].mustCount then
        var q := s.requests[r];
        Some(AssignRoles(s.t, q.user, q.target, q.ids, q.before, q.keys))
      else None
    case Spending(r, hash) =>
      if r in s.requests && s.requests[r].Claimed? && Unspent(s.t, s.requests[r].kind, s.requests[r].row) then
        Some(FinishSpending(s.t, s.requests[r], hash))
      else None
    case _ => None
  }

  /** Where an action that only reads leaves its request; None when it is not possible. */
  ghost function Progressed(s: System, now: Time, a: Action): Option<Request> {
    match a
    case Authenticate(r, token) =>
      var reply := AuthenticateSession(s.t, now, token);
      if r !in s.requests && reply.SignedIn? && reply.userId in s.t.users then
        Some(Authenticated(reply.userId, s.t.users[reply.userId].isSuperuser, None))
      else None
    case AuthenticateWithKey(r, token) =>
      var reply := AuthenticateApiKey(s.t, now, token);
      if r !in s.requests && reply.KeyAccepted? && reply.userId in s.t.users then
        Some(Authenticated(reply.userId, s.t.users[reply.userId].isSuperuser, Some(reply.scope)))
      else None
    case Authorizing(r) =>
      if r in s.requests && s.requests[r].Authenticated? then
        var q := s.requests[r];
        Some(Authorized(q.user, q.isSuperuser,
                        if q.scope.Some? then KeyAccess(q.scope.value) else Authorize(s.t, q.user, q.isSuperuser)))
      else None
    case ReadingRole(r, job, roleId) =>
      if r in s.requests && s.requests[r].Authorized? && s.requests[r].access.Can(RoutePermission(job))
         && PassesRoleGuard(s.t, s.requests[r].access, job, roleId) then
        Some(RoleRead(s.requests[r].user, s.requests[r].access, job, roleId,
                      PermissionsOf(s.t.rolePermissions, roleId)))
      else None
    case ResolvingRoles(r, target, ids) =>
      if r in s.requests && s.requests[r].Authorized? && s.requests[r].access.Can(UsersUpdate) && ids <= s.t.roles.Keys
         && UnionPermissions(RolesWithIds(s.t, ids)) <= s.requests[r].access.permissions then
        Some(RolesResolved(s.requests[r].user, s.requests[r].access, target, ids, RoleKeys(RolesWithIds(s.t, ids))))
      else None
    case ReadingTarget(r) =>
      if r in s.requests && s.requests[r].RolesResolved? then
        var q := s.requests[r];
        var before := RolesHeld(s.t, q.target);
        if HasRole(before, ADMIN_KEY) && !q.access.viaSuperuser && !HasRole(q.access.roles, ADMIN_KEY) then None
        else Some(TargetRead(q.user, q.access, q.target, q.ids, q.keys, RoleKeys(before),
                             HasRole(before, ADMIN_KEY) && ADMIN_ID !in q.ids))
      else None
    case CountingAdmins(r) =>
      if r in s.requests && s.requests[r].TargetRead? && |Holders(s.t, ADMIN_KEY)| > 1 then
        Some(s.requests[r].(mustCount := false))
      else None
    case ReadingOffer(r, token) =>
      var found := OfferedInvitation(s.t, token);
      if r !in s.requests && found.Some? && s.t.invitations[found.value].Pending(now) then
        Some(OfferRead(found.value, now))
      else None
    case ClaimingInvitation(r) =>
      if r in s.requests && s.requests[r].OfferRead? then
        var q := s.requests[r];
        if q.row in s.t.invitations && s.t.invitations[q.row].Pending(q.startedAt)
           && Unclaimed(s, r, InvitationToken, q.row) then
          Some(Claimed(InvitationToken, q.row, q.startedAt))
        else None
      else None
    case ClaimingReset(r, token, startedAt) =>
      var found := SpendableReset(s.t.resets, token, startedAt);
      if r !in s.requests && startedAt <= now && found.Some? && Unclaimed(s, r, ResetToken, found.value) then
        Some(Claimed(ResetToken, found.value, startedAt))
      else None
    case ClaimingVerification(r, token, startedAt) =>
      var found := SpendableVerification(s.t.verifications, token, startedAt);
      if r !in s.requests && startedAt <= now && found.Some? && Unclaimed(s, r, VerificationToken, found.value) then
        Some(Claimed(VerificationToken, found.value, startedAt))
      else None
    case _ => None
  }

  /** The request a commit belongs to. */
  function Requester(a: Action): Option<RequestId> {
    if a.Atomic? then None else Some(a.r)
  }

  /** A transaction commits only with a success, and only when the rows it writes are not held by others. */
  ghost predicate Commits(s: System, now: Time, a: Action) {
    && (a.Atomic? ==> RunsAtomically(a.command))
    && Commit(s, now, a).Some?
    && (a.Atomic? || !Commit(s, now, a).value.reply.Failed?)
    && RespectsClaims(s, Requester(a), Commit(s, now, a).value.t)
  }

  /** What a committed spending adds to the history. */
  ghost function SpendOf(s: System, a: Action, o: Outcome): seq<Spend> {
    if a.Spending? && a.r in s.requests && s.requests[a.r].Claimed? then
      [Spend(s.requests[a.r].kind, s.requests[a.r].row, if o.reply.NewRow? then o.reply.id else 0)]
    else []
  }

  ghost function Next(s: System, now: Time, a: Action): System {
    if Commits(s, now, a) then
      var o := Commit(s, now, a).value;
      System(o.t, if a.Atomic? then s.requests else s.requests - {a.r}, s.spends + SpendOf(s, a, o))
    else if Progressed(s, now, a).Some? && !a.Atomic? then
      s.(requests := s.requests[a.r := Progressed(s, now, a).value])
    else if a.GivingUp? then s.(requests := s.requests - {a.r})
    else s
  }

  datatype Timed = Timed(now: Time, action: Action)

  ghost predicate OrderedActions(start: Time, steps: seq<Timed>)
    decreases |steps|
  {
    steps == [] || (start <= steps[0].now && OrderedActions(steps[0].now, steps[1..]))
  }

  ghost function RunAll(s: System, steps: seq<Timed>): System
    decreases |steps|
  {
    if steps == [] then s else RunAll(Next(s, steps[0].now, steps[0].action), steps[1..])
  }

  lemma {:induction false} OneAfterTheOther(s: System, first: seq<Timed>, second: seq<Timed>)
    ensures RunAll(s, first + second) == RunAll(RunAll(s, first), second)
    decreases |first|
  {
    hide Next;
    if first == [] {
      assert first + second == second;
    } else {
      assert (first + second)[1..] == first[1..] + second;
      OneAfterTheOther(Next(s, first[0].now, first[0].action), first[1..], second);
    }
  }
}
