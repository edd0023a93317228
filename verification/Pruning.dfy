/** The retention sweeps cannot be observed: a run answers the same with sweeps anywhere in it as with none.
    The one answer left out is RevokeSessionByID's, which can see an expired but unrevoked row. */
module Pruning {
  import opened Prelude
  import opened Permissions
  import opened Tables
  import opened Transactions
  import opened SerialMachine
  import opened Constraints
  import opened Frames

  // ---------------------------------------------------------------- the simulation relation

  /** `a` is `b` less some sessions that are no longer live at `now`. */
  ghost predicate SessionsShadow(a: map<Id, Session>, b: map<Id, Session>, now: Time) {
    && (forall i :: i in a ==> i in b && a[i] == b[i])
    && (forall i :: i in b && i !in a ==> !Live(b[i], now))
  }

  ghost predicate ResetsShadow(a: map<Id, Reset>, b: map<Id, Reset>, now: Time) {
    && (forall i :: i in a ==> i in b && a[i] == b[i])
    && (forall i :: i in b && i !in a ==> !Spendable(b[i].usedAt, b[i].expiresAt, now))
  }

  ghost predicate VerificationsShadow(a: map<Id, Verification>, b: map<Id, Verification>, now: Time) {
    && (forall i :: i in a ==> i in b && a[i] == b[i])
    && (forall i :: i in b && i !in a ==> !Spendable(b[i].usedAt, b[i].expiresAt, now))
  }

  /** `a` is a pruned `b`: the other tables agree. */
  ghost predicate Shadow(a: Tables, b: Tables, now: Time) {
    && a == b.(sessions := a.sessions, resets := a.resets, verifications := a.verifications)
    && SessionsShadow(a.sessions, b.sessions, now)
    && ResetsShadow(a.resets, b.resets, now)
    && VerificationsShadow(a.verifications, b.verifications, now)
    && Consistent(b)
  }

  ghost predicate Alike(o: Outcome, p: Outcome, now: Time) {
    o.reply == p.reply && Shadow(o.t, p.t, now)
  }

  // ---------------------------------------------------------------- statements on shadowed tables

  lemma SessionStatements(a: map<Id, Session>, b: map<Id, Session>, userId: Id, token: Digest, now: Time)
    requires SessionsShadow(a, b, now)
    ensures SessionsShadow(UserSessionsRevoked(a, userId, now), UserSessionsRevoked(b, userId, now), now)
    ensures SessionsShadow(TokenRevoked(a, token, now), TokenRevoked(b, token, now), now)
    ensures LiveSessionsOf(a, userId, now) == LiveSessionsOf(b, userId, now)
  {}

  lemma SessionAdded(a: map<Id, Session>, b: map<Id, Session>, id: Id, s: Session, now: Time)
    requires SessionsShadow(a, b, now) && id !in b
    ensures SessionsShadow(a[id := s], b[id := s], now)
  {}

  lemma ResetStatements(a: map<Id, Reset>, b: map<Id, Reset>, userId: Id, id: Id, r: Reset, now: Time)
    requires ResetsShadow(a, b, now)
    ensures ResetsShadow(UserResetsSpent(a, userId, now), UserResetsSpent(b, userId, now), now)
    ensures id !in b ==>
              ResetsShadow(UserResetsSpent(a, userId, now)[id := r], UserResetsSpent(b, userId, now)[id := r], now)
  {}

  lemma VerificationStatements(a: map<Id, Verification>, b: map<Id, Verification>, userId: Id, id: Id, v: Verification,
                               now: Time)
    requires VerificationsShadow(a, b, now)
    ensures id !in b ==> VerificationsShadow(UserVerificationsSpent(a, userId, now)[id := v],
                                             UserVerificationsSpent(b, userId, now)[id := v], now)
    ensures id in a ==> VerificationsShadow(a[id := v], b[id := v], now)
  {}

  /** The same live row answers a token lookup in both. */
  lemma SameLookups(a: Tables, b: Tables, token: Digest, now: Time)
    requires Shadow(a, b, now)
    ensures LiveSession(a.sessions, token, now) == LiveSession(b.sessions, token, now)
    ensures SpendableReset(a.resets, token, now) == SpendableReset(b.resets, token, now)
    ensures SpendableVerification(a.verifications, token, now) == SpendableVerification(b.verifications, token, now)
  {
    hide UsersOk, RolesOk, SeedsOk, GrantsOk, AssignmentsOk, InvitationsOk, OneOpenInvitation, KeysOk;
  }

  /** Everything the services read about roles agrees. */
  lemma SameRoleReads(a: Tables, b: Tables, userId: Id, ids: set<Id>)
    requires a.roles == b.roles && a.rolePermissions == b.rolePermissions && a.userRoles == b.userRoles
    requires a.users == b.users
    ensures RolesWithIds(a, ids) == RolesWithIds(b, ids)
    ensures RolesHeld(a, userId) == RolesHeld(b, userId)
    ensures HoldsRole(a, userId, ADMIN_KEY) == HoldsRole(b, userId, ADMIN_KEY)
    ensures Holders(a, ADMIN_KEY) == Holders(b, ADMIN_KEY)
    ensures ActiveHolders(a, ADMIN_KEY) == ActiveHolders(b, ADMIN_KEY)
  {
    assert forall id | id in a.roles :: RoleAt(a, id) == RoleAt(b, id);
    assert forall s :: RolesWithIds(a, s) == RolesWithIds(b, s);
    assert RoleIdsOf(a, userId) == RoleIdsOf(b, userId);
    assert forall u :: HoldsRole(a, u, ADMIN_KEY) == HoldsRole(b, u, ADMIN_KEY);
    assert Holders(a, ADMIN_KEY) == Holders(b, ADMIN_KEY);
  }

  lemma FreshInShadow(a: Tables, b: Tables, now: Time)
    requires Shadow(a, b, now)
    ensures b.nextId !in b.sessions && b.nextId !in b.resets && b.nextId !in b.verifications && a.nextId == b.nextId
  {}

  /** Time passing never revives a row that was left out. */
  lemma ShadowLater(a: Tables, b: Tables, now: Time, later: Time)
    requires Shadow(a, b, now) && now <= later
    ensures Shadow(a, b, later)
  {
    hide Consistent;
  }

  // ---------------------------------------------------------------- commands on shadowed tables

  /** The commands that neither read nor write the three swept tables. */
  predicate Unswept(c: Command) {
    c.CRegister? || c.CSetSuperuser? || c.CGrantRoleByKey? || c.CInvite? || c.CRevokeInvitation? || c.CAcceptInvitation?
    || c.CCreateRole? || c.CUpdateRole? || c.CDeleteRole? || c.CSetUserRoles? || c.CCreateApiKey? || c.CRevokeApiKey?
    || c.CAuthenticateKey?
  }

  /** What a command does on `a`, up to the swept tables, it does on `b`. */
  ghost predicate Commutes(o: Outcome, p: Outcome) {
    && o.reply == p.reply
    && o.t == p.t.(sessions := o.t.sessions, resets := o.t.resets, verifications := o.t.verifications)
  }

  lemma AssignCommutes(a: Tables, b: Tables, actor: Id, access: Access, target: Id, ids: seq<Id>)
    requires a == b.(sessions := a.sessions, resets := a.resets, verifications := a.verifications)
    ensures Commutes(SetUserRoles(a, actor, access, target, ids), SetUserRoles(b, actor, access, target, ids))
  {
    hide HasRole, UnionPermissions, RoleKeys, RolesHeld, RolesWithIds, Holders, AssignRoles, Commutes, Distinct;
    SameRoleReads(a, b, target, Distinct(ids));
    var before, after := RoleKeys(RolesHeld(b, target)), RoleKeys(RolesWithIds(b, Distinct(ids)));
    WriteCommutes(a, b, actor, target, Distinct(ids), before, after);
    RefusalCommutes(a, b);
  }

  lemma WriteCommutes(a: Tables, b: Tables, actor: Id, target: Id, ids: set<Id>, before: set<string>,
                      after: set<string>)
    requires a == b.(sessions := a.sessions, resets := a.resets, verifications := a.verifications)
    ensures Commutes(AssignRoles(a, actor, target, ids, before, after),
                     AssignRoles(b, actor, target, ids, before, after))
  {
    hide Without, Paired;
  }

  lemma RefusalCommutes(a: Tables, b: Tables)
    requires a == b.(sessions := a.sessions, resets := a.resets, verifications := a.verifications)
    ensures forall e :: Commutes(Refused(a, e), Refused(b, e))
  {}

  lemma InviteCommutes(a: Tables, b: Tables, now: Time, actor: Id, access: Access, email: string, roleId: Id, ttl: int,
                       ok: bool, id: Id)
    requires a == b.(sessions := a.sessions, resets := a.resets, verifications := a.verifications)
    ensures Commutes(Invite(a, now, actor, access, email, roleId, ttl, ok),
                     Invite(b, now, actor, access, email, roleId, ttl, ok))
    ensures Commutes(RevokeInvitation(a, now, actor, id), RevokeInvitation(b, now, actor, id))
  {
    hide UserByEmail, OpenInvitationsRevoked, PermissionsOf;
  }

  lemma AcceptCommutes(a: Tables, b: Tables, now: Time, token: Digest, hash: string, ok: bool)
    requires a == b.(sessions := a.sessions, resets := a.resets, verifications := a.verifications)
    ensures Commutes(AcceptInvitation(a, now, token, hash, ok), AcceptInvitation(b, now, token, hash, ok))
  {
    hide UserByEmail, InvitationByToken;
  }

  lemma AccountsCommute(a: Tables, b: Tables, now: Time, c: Command)
    requires a == b.(sessions := a.sessions, resets := a.resets, verifications := a.verifications)
    requires c.CRegister? || c.CSetSuperuser? || c.CGrantRoleByKey? || c.CAuthenticateKey?
    ensures Commutes(Step(a, now, c), Step(b, now, c))
  {
    hide UserByEmail, RoleByKey, LiveKey, PermissionsOf;
  }

  lemma CreationCommutes(a: Tables, b: Tables, actor: Id, access: Access, key: string, name: string,
                         perms: seq<Permission>, ok: bool)
    requires a == b.(sessions := a.sessions, resets := a.resets, verifications := a.verifications)
    ensures Commutes(CreateRole(a, actor, access, key, name, perms, ok),
                     CreateRole(b, actor, access, key, name, perms, ok))
  {
    hide RoleByKey, AllCatalogued, PermissionSet, Without, Paired;
  }

  lemma UpdateCommutes(a: Tables, b: Tables, actor: Id, access: Access, id: Id, name: string, perms: seq<Permission>,
                       ok: bool)
    requires a == b.(sessions := a.sessions, resets := a.resets, verifications := a.verifications)
    ensures Commutes(UpdateRole(a, actor, access, id, name, perms, ok),
                     UpdateRole(b, actor, access, id, name, perms, ok))
  {
    hide PermissionsOf, AllCatalogued, PermissionSet, Without, Paired;
  }

  lemma RolesCommute(a: Tables, b: Tables, actor: Id, access: Access, id: Id, key: string, name: string,
                     perms: seq<Permission>, ok: bool)
    requires a == b.(sessions := a.sessions, resets := a.resets, verifications := a.verifications)
    ensures Commutes(CreateRole(a, actor, access, key, name, perms, ok),
                     CreateRole(b, actor, access, key, name, perms, ok))
    ensures Commutes(UpdateRole(a, actor, access, id, name, perms, ok),
                     UpdateRole(b, actor, access, id, name, perms, ok))
  {
    hide CreateRole, UpdateRole, Commutes;
    CreationCommutes(a, b, actor, access, key, name, perms, ok);
    UpdateCommutes(a, b, actor, access, id, name, perms, ok);
  }

  lemma DeletionCommutes(a: Tables, b: Tables, actor: Id, access: Access, id: Id)
    requires a == b.(sessions := a.sessions, resets := a.resets, verifications := a.verifications)
    ensures Commutes(DeleteRole(a, actor, access, id), DeleteRole(b, actor, access, id))
  {
    hide PermissionsOf, Without, InvitationsElsewhere;
  }

  lemma KeysCommute(a: Tables, b: Tables, now: Time, actor: Id, access: Access, name: string, perms: seq<Permission>,
                    expiresAt: Option<Time>, ok: bool, id: Id)
    requires a == b.(sessions := a.sessions, resets := a.resets, verifications := a.verifications)
    ensures Commutes(CreateApiKey(a, now, actor, access, name, perms, expiresAt, ok),
                     CreateApiKey(b, now, actor, access, name, perms, expiresAt, ok))
    ensures Commutes(RevokeApiKey(a, now, actor, id), RevokeApiKey(b, now, actor, id))
  {
    hide AllCatalogued, PermissionSet, Paired;
  }

  lemma UnsweptAlike(a: Tables, b: Tables, now: Time, c: Command)
    requires Shadow(a, b, now) && Unswept(c)
    ensures Alike(Step(a, now, c), Step(b, now, c), now)
  {
    hide Consistent, Step, SessionsShadow, ResetsShadow, VerificationsShadow;
    StepConsistent(b, now, c);
    SweptTablesKept(a, now, c);
    SweptTablesKept(b, now, c);
    CustomsCommute(a, b, now, c);
    if c.CRegister? || c.CSetSuperuser? || c.CGrantRoleByKey? || c.CAuthenticateKey? {
      AccountsCommute(a, b, now, c);
    }
  }

  lemma CustomsCommute(a: Tables, b: Tables, now: Time, c: Command)
    requires a == b.(sessions := a.sessions, resets := a.resets, verifications := a.verifications)
    ensures c.CCreateRole? || c.CUpdateRole? || c.CDeleteRole? || c.CSetUserRoles? || c.CCreateApiKey?
            || c.CRevokeApiKey?
            || c.CInvite? || c.CRevokeInvitation? || c.CAcceptInvitation?
            ==> Commutes(Step(a, now, c), Step(b, now, c))
  {
    hide Commutes, CreateRole, UpdateRole, DeleteRole, SetUserRoles, CreateApiKey, RevokeApiKey, Invite,
         RevokeInvitation, AcceptInvitation;
    match c
    case CCreateRole(actor, access, key, name, perms, ok) => RolesCommute(a, b, actor, access, 0, key, name, perms, ok);
    case CUpdateRole(actor, access, id, name, perms, ok) => RolesCommute(a, b, actor, access, id, [], name, perms, ok);
    case CDeleteRole(actor, access, id) => DeletionCommutes(a, b, actor, access, id);
    case CSetUserRoles(actor, access, target, ids) => AssignCommutes(a, b, actor, access, target, ids);
    case CCreateApiKey(actor, access, name, perms, expiresAt, ok) =>
      KeysCommute(a, b, now, actor, access, name, perms, expiresAt, ok, 0);
    case CRevokeApiKey(actor, id) => KeysCommute(a, b, now, actor, SuperuserAccess(), [], [], None, false, id);
    case CInvite(actor, access, email, roleId, ttl, ok) =>
      InviteCommutes(a, b, now, actor, access, email, roleId, ttl, ok, 0);
    case CRevokeInvitation(actor, id) => InviteCommutes(a, b, now, actor, SuperuserAccess(), [], 0, 0, false, id);
    case CAcceptInvitation(token, hash, ok) => AcceptCommutes(a, b, now, token, hash, ok);
    case _ =>
  }

  lemma SweptTablesKept(t: Tables, now: Time, c: Command)
    requires Unswept(c)
    ensures Step(t, now, c).t.sessions == t.sessions
    ensures Step(t, now, c).t.resets == t.resets
    ensures Step(t, now, c).t.verifications == t.verifications
  {
    hide Step;
    SessionsFrame(t, now, c);
    ResetsFrame(t, now, c);
    VerificationsFrame(t, now, c);
  }

  // ---------------------------------------------------------------- commands that use the swept tables

  lemma LoginAlike(a: Tables, b: Tables, now: Time, email: string, verdict: Verdict, upgrade: Option<string>, ttl: int)
    requires Shadow(a, b, now)
    ensures Alike(Login(a, now, email, verdict, upgrade, ttl), Login(b, now, email, verdict, upgrade, ttl), now)
  {
    hide Consistent, SessionsShadow, ResetsShadow, VerificationsShadow;
    FreshInShadow(a, b, now);
    LoginConsistent(b, now, email, verdict, upgrade, ttl);
    var found := UserByEmail(b.users, email);
    if found.Some? {
      SessionAdded(a.sessions, b.sessions, b.nextId, Session(found.value, b.nextId + 1, now + ttl, None), now);
    }
  }

  lemma LogoutAlike(a: Tables, b: Tables, now: Time, token: Digest, userId: Id)
    requires Shadow(a, b, now)
    ensures Alike(Logout(a, now, token, userId), Logout(b, now, token, userId), now)
  {
    hide Consistent, SessionsShadow, ResetsShadow, VerificationsShadow, TokenRevoked;
    SessionStatements(a.sessions, b.sessions, userId, token, now);
    SessionsRevokedConsistent(b, now, userId, token, 0);
  }

  /** Only the state is claimed here: the answer may differ on an expired row. */
  lemma RevokeSessionShadowed(a: Tables, b: Tables, now: Time, actor: Id, id: Id)
    requires Shadow(a, b, now)
    ensures Shadow(RevokeSession(a, now, actor, id).t, RevokeSession(b, now, actor, id).t, now)
  {
    hide Consistent, ResetsShadow, VerificationsShadow;
    SessionsRevokedConsistent(b, now, actor, 0, id);
  }

  lemma ChangePasswordAlike(a: Tables, b: Tables, now: Time, userId: Id, verdict: Verdict, hash: string, ok: bool)
    requires Shadow(a, b, now)
    ensures Alike(ChangePassword(a, now, userId, verdict, hash, ok), ChangePassword(b, now, userId, verdict, hash, ok),
                  now)
  {
    hide Consistent, SessionsShadow, ResetsShadow, VerificationsShadow, UserSessionsRevoked, UnrevokedCount;
    SessionStatements(a.sessions, b.sessions, userId, 0, now);
    ChangePasswordConsistent(b, now, userId, verdict, hash, ok);
  }

  lemma ActiveCommutes(a: Tables, b: Tables, now: Time, actor: Id, superuser: bool, target: Id, active: bool)
    requires a == b.(sessions := a.sessions, resets := a.resets, verifications := a.verifications)
    ensures Commutes(SetUserActive(a, now, actor, superuser, target, active),
                     SetUserActive(b, now, actor, superuser, target, active))
  {
    hide HoldsRole, ActiveHolders, UserSessionsRevoked, UnrevokedCount;
    SameRoleReads(a, b, target, {});
  }

  lemma ActiveSessions(t: Tables, now: Time, actor: Id, superuser: bool, target: Id, active: bool)
    ensures var o := SetUserActive(t, now, actor, superuser, target, active);
            && o.t.resets == t.resets && o.t.verifications == t.verifications
            && o.t.sessions == if o.reply == Done && !active then UserSessionsRevoked(t.sessions, target, now)
                               else t.sessions
  {
    hide HoldsRole, ActiveHolders, UserSessionsRevoked, UnrevokedCount;
  }

  lemma SetUserActiveAlike(a: Tables, b: Tables, now: Time, actor: Id, superuser: bool, target: Id, active: bool)
    requires Shadow(a, b, now)
    ensures Alike(SetUserActive(a, now, actor, superuser, target, active),
                  SetUserActive(b, now, actor, superuser, target, active), now)
  {
    hide Consistent, SessionsShadow, ResetsShadow, VerificationsShadow, UserSessionsRevoked, SetUserActive;
    SessionStatements(a.sessions, b.sessions, target, 0, now);
    ActiveCommutes(a, b, now, actor, superuser, target, active);
    ActiveSessions(a, now, actor, superuser, target, active);
    ActiveSessions(b, now, actor, superuser, target, active);
    SetUserActiveConsistent(b, now, actor, superuser, target, active);
  }

  lemma RequestPasswordResetAlike(a: Tables, b: Tables, now: Time, email: string, ttl: int)
    requires Shadow(a, b, now)
    ensures Alike(RequestPasswordReset(a, now, email, ttl), RequestPasswordReset(b, now, email, ttl), now)
  {
    hide Consistent, SessionsShadow, ResetsShadow, VerificationsShadow, UserResetsSpent;
    FreshInShadow(a, b, now);
    RequestPasswordResetConsistent(b, now, email, ttl);
    var found := UserByEmail(b.users, email);
    if found.Some? {
      ResetStatements(a.resets, b.resets, found.value, b.nextId, Reset(found.value, b.nextId + 1, now + ttl, None),
                      now);
    }
  }

  lemma ResetPasswordAlike(a: Tables, b: Tables, now: Time, token: Digest, hash: string, ok: bool)
    requires Shadow(a, b, now)
    ensures Alike(ResetPassword(a, now, token, hash, ok), ResetPassword(b, now, token, hash, ok), now)
  {
    hide Consistent, SessionsShadow, VerificationsShadow, UserResetsSpent, UserSessionsRevoked, UnrevokedCount,
         SpendableReset;
    SameLookups(a, b, token, now);
    TokenFlowConsistent(b, now, token, hash, ok);
    var found := SpendableReset(b.resets, token, now);
    if found.Some? {
      var userId := b.resets[found.value].userId;
      SessionStatements(a.sessions, b.sessions, userId, 0, now);
      ResetStatements(a.resets, b.resets, userId, found.value, b.resets[found.value], now);
    }
  }

  lemma SendVerificationAlike(a: Tables, b: Tables, now: Time, userId: Id, ttl: int)
    requires Shadow(a, b, now)
    ensures Alike(SendVerification(a, now, userId, ttl), SendVerification(b, now, userId, ttl), now)
  {
    hide Consistent, SessionsShadow, ResetsShadow, VerificationsShadow, UserVerificationsSpent;
    FreshInShadow(a, b, now);
    SendVerificationConsistent(b, now, userId, ttl);
    if userId in b.users {
      var row := Verification(userId, b.users[userId].email, b.nextId + 1, now + ttl, None);
      VerificationStatements(a.verifications, b.verifications, userId, b.nextId, row, now);
    }
  }

  lemma VerifyEmailAlike(a: Tables, b: Tables, now: Time, token: Digest)
    requires Shadow(a, b, now)
    ensures Alike(VerifyEmail(a, now, token), VerifyEmail(b, now, token), now)
  {
    hide Consistent, SessionsShadow, ResetsShadow, SpendableVerification;
    SameLookups(a, b, token, now);
    TokenFlowConsistent(b, now, token, [], true);
    var found := SpendableVerification(b.verifications, token, now);
    if found.Some? {
      var v := b.verifications[found.value];
      VerificationStatements(a.verifications, b.verifications, v.userId, found.value, v.(usedAt := Some(now)), now);
    }
  }

  lemma ReadsAlike(a: Tables, b: Tables, now: Time, c: Command)
    requires Shadow(a, b, now) && (c.CAuthenticate? || c.CListSessions?)
    ensures Alike(Step(a, now, c), Step(b, now, c), now)
  {
    hide Consistent, ResetsShadow, VerificationsShadow, LiveSession, LiveSessionsOf;
    match c
    case CAuthenticate(token) => SameLookups(a, b, token, now);
    case CListSessions(userId) => SessionStatements(a.sessions, b.sessions, userId, 0, now);
  }

  /** One command on a pruned and on an unpruned state: the states stay related and the answers agree. */
  lemma StepAlike(a: Tables, b: Tables, now: Time, c: Command)
    requires Shadow(a, b, now) && !c.CPrune?
    ensures Shadow(Step(a, now, c).t, Step(b, now, c).t, now)
    ensures !c.CRevokeSession? ==> Step(a, now, c).reply == Step(b, now, c).reply
  {
    hide Shadow, Login, Logout, RevokeSession, ChangePassword, SetUserActive, RequestPasswordReset, ResetPassword,
         SendVerification, VerifyEmail;
    if Unswept(c) {
      hide Step;
      UnsweptAlike(a, b, now, c);
    } else {
      match c
      case CLogin(email, verdict, upgrade, ttl) => LoginAlike(a, b, now, email, verdict, upgrade, ttl);
      case CLogout(token, userId) => LogoutAlike(a, b, now, token, userId);
      case CRevokeSession(actor, id) => RevokeSessionShadowed(a, b, now, actor, id);
      case CChangePassword(userId, verdict, hash, ok) => ChangePasswordAlike(a, b, now, userId, verdict, hash, ok);
      case CSetUserActive(actor, superuser, target, active) =>
        SetUserActiveAlike(a, b, now, actor, superuser, target, active);
      case CRequestPasswordReset(email, ttl) => RequestPasswordResetAlike(a, b, now, email, ttl);
      case CResetPassword(token, hash, ok) => ResetPasswordAlike(a, b, now, token, hash, ok);
      case CSendVerification(userId, ttl) => SendVerificationAlike(a, b, now, userId, ttl);
      case CVerifyEmail(token) => VerifyEmailAlike(a, b, now, token);
      case _ => ReadsAlike(a, b, now, c);
    }
  }

  /** A sweep with a non-negative retention only drops rows that are already dead. */
  lemma PruneShadowed(a: Tables, b: Tables, now: Time, retain: int)
    requires Shadow(a, b, now) && retain >= 0
    ensures Shadow(Prune(a, now, retain), b, now)
  {
    hide Consistent;
  }

  // ---------------------------------------------------------------- whole runs

  /** What a caller sees of a run: every answer but those of sweeps and of RevokeSessionByID. */
  ghost function Answers(t: Tables, es: seq<Event>): seq<Reply>
    decreases |es|
  {
    if es == [] then []
    else
      var o := Step(t, es[0].now, es[0].command);
      (if es[0].command.CPrune? || es[0].command.CRevokeSession? then [] else [o.reply]) + Answers(o.t, es[1..])
  }

  ghost function WithoutSweeps(es: seq<Event>): seq<Event>
    decreases |es|
  {
    if es == [] then []
    else (if es[0].command.CPrune? then [] else [es[0]]) + WithoutSweeps(es[1..])
  }

  ghost predicate SweepsRetain(es: seq<Event>) {
    forall i :: 0 <= i < |es| && es[i].command.CPrune? ==> es[i].command.retain >= 0
  }

  lemma {:induction false} ShadowedRuns(a: Tables, b: Tables, now: Time, es: seq<Event>)
    requires Shadow(a, b, now) && Ordered(now, es) && SweepsRetain(es)
    ensures Answers(a, es) == Answers(b, WithoutSweeps(es))
    decreases |es|
  {
    hide Shadow, Step, Prune;
    if es != [] {
      var e := es[0];
      ShadowLater(a, b, now, e.now);
      assert forall i :: 0 <= i < |es[1..]| ==> es[1..][i] == es[i + 1];
      if e.command.CPrune? {
        PruneIsStep(a, e.now, e.command);
        PruneShadowed(a, b, e.now, e.command.retain);
        ShadowedRuns(Step(a, e.now, e.command).t, b, e.now, es[1..]);
        assert WithoutSweeps(es) == WithoutSweeps(es[1..]);
      } else {
        StepAlike(a, b, e.now, e.command);
        ShadowedRuns(Step(a, e.now, e.command).t, Step(b, e.now, e.command).t, e.now, es[1..]);
        assert WithoutSweeps(es) == [e] + WithoutSweeps(es[1..]);
      }
    }
  }

  lemma PruneIsStep(t: Tables, now: Time, c: Command)
    requires c.CPrune?
    ensures Step(t, now, c).t == Prune(t, now, c.retain)
  {
    hide Prune;
  }

  /** Sweeps inserted anywhere in any run change none of its answers. */
  lemma SweepsAreUnobservable(t: Tables, now: Time, es: seq<Event>)
    requires Consistent(t) && Ordered(now, es) && SweepsRetain(es)
    ensures Answers(t, es) == Answers(t, WithoutSweeps(es))
  {
    hide Consistent;
    ShadowedRuns(t, t, now, es);
  }

  /** No row that could still be used at `now` falls to the sweep. */
  ghost predicate SparesUsable(t: Tables, now: Time, retain: int) {
    && (forall i :: i in t.sessions && Live(t.sessions[i], now) ==> t.sessions[i].expiresAt >= now - retain)
    && (forall i :: i in t.resets && Spendable(t.resets[i].usedAt, t.resets[i].expiresAt, now) ==>
          t.resets[i].expiresAt >= now - retain)
    && (forall i :: i in t.verifications && Spendable(t.verifications[i].usedAt, t.verifications[i].expiresAt, now) ==>
          t.verifications[i].expiresAt >= now - retain)
  }

  /** A single sweep leaves every token's answers as they were exactly when every usable row outlives it; a retention
      that is not negative sees to that. */
  lemma SweepUnseenExactly(t: Tables, now: Time, retain: int)
    requires Consistent(t)
    ensures SparesUsable(t, now, retain) <==>
            && (forall k :: LiveSession(Prune(t, now, retain).sessions, k, now) == LiveSession(t.sessions, k, now))
            && (forall k :: SpendableReset(Prune(t, now, retain).resets, k, now) == SpendableReset(t.resets, k, now))
            && (forall k :: SpendableVerification(Prune(t, now, retain).verifications, k, now)
                            == SpendableVerification(t.verifications, k, now))
    ensures retain >= 0 ==> SparesUsable(t, now, retain)
  {
    hide UsersOk, RolesOk, SeedsOk, GrantsOk, AssignmentsOk, InvitationsOk, OneOpenInvitation, KeysOk;
    SessionsUnseen(t, now, retain);
    ResetsUnseen(t, now, retain);
    VerificationsUnseen(t, now, retain);
  }

  lemma SessionsUnseen(t: Tables, now: Time, retain: int)
    requires SessionsOk(t.sessions, t.users.Keys, t.nextId)
    ensures (forall k ::
               LiveSession(SessionsPruned(t.sessions, now, retain), k, now) == LiveSession(t.sessions, k, now))
            <==> forall i :: i in t.sessions && Live(t.sessions[i], now) ==> t.sessions[i].expiresAt >= now - retain
  {
    var kept := SessionsPruned(t.sessions, now, retain);
    if i :| i in t.sessions && Live(t.sessions[i], now) && t.sessions[i].expiresAt < now - retain {
      assert LiveSession(t.sessions, t.sessions[i].token, now) == Some(i) && i !in kept;
    } else {
      forall k ensures LiveSession(kept, k, now) == LiveSession(t.sessions, k, now) {
        var found := LiveSession(t.sessions, k, now);
        assert found.Some? ==> found.value in kept && kept[found.value] == t.sessions[found.value];
      }
    }
  }

  lemma ResetsUnseen(t: Tables, now: Time, retain: int)
    requires ResetsOk(t.resets, t.users.Keys, t.nextId)
    ensures (forall k ::
               SpendableReset(ResetsPruned(t.resets, now, retain), k, now) == SpendableReset(t.resets, k, now))
            <==> forall i :: i in t.resets && Spendable(t.resets[i].usedAt, t.resets[i].expiresAt, now) ==>
                   t.resets[i].expiresAt >= now - retain
  {
    var kept := ResetsPruned(t.resets, now, retain);
    if i :| i in t.resets && Spendable(t.resets[i].usedAt, t.resets[i].expiresAt, now)
            && t.resets[i].expiresAt < now - retain {
      assert SpendableReset(t.resets, t.resets[i].token, now) == Some(i) && i !in kept;
    } else {
      forall k ensures SpendableReset(kept, k, now) == SpendableReset(t.resets, k, now) {
        var found := SpendableReset(t.resets, k, now);
        assert found.Some? ==> found.value in kept && kept[found.value] == t.resets[found.value];
      }
    }
  }

  lemma VerificationsUnseen(t: Tables, now: Time, retain: int)
    requires VerificationsOk(t.verifications, t.users.Keys, t.nextId)
    ensures (forall k :: SpendableVerification(VerificationsPruned(t.verifications, now, retain), k, now)
                         == SpendableVerification(t.verifications, k, now))
            <==> forall i :: i in t.verifications
                             && Spendable(t.verifications[i].usedAt, t.verifications[i].expiresAt, now) ==>
                   t.verifications[i].expiresAt >= now - retain
  {
    var kept := VerificationsPruned(t.verifications, now, retain);
    if i :| i in t.verifications && Spendable(t.verifications[i].usedAt, t.verifications[i].expiresAt, now)
            && t.verifications[i].expiresAt < now - retain {
      assert SpendableVerification(t.verifications, t.verifications[i].token, now) == Some(i) && i !in kept;
    } else {
      forall k ensures SpendableVerification(kept, k, now) == SpendableVerification(t.verifications, k, now) {
        var found := SpendableVerification(t.verifications, k, now);
        assert found.Some? ==> found.value in kept && kept[found.value] == t.verifications[found.value];
      }
    }
  }
}
