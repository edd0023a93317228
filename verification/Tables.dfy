/** The identity tables as one value, the SELECTs the service runs on them, and the effects of its
    set-at-a-time UPDATE and DELETE statements. */
module Tables {
  import opened Prelude
  import opened Permissions

  datatype User = User(email: string, passwordHash: Option<string>, isSuperuser: bool, isActive: bool,
                       verifiedAt: Option<Time>)
  datatype Role = Role(key: string, name: string, isSystem: bool)
  datatype Session = Session(userId: Id, token: Digest, expiresAt: Time, revokedAt: Option<Time>)
  datatype Reset = Reset(userId: Id, token: Digest, expiresAt: Time, usedAt: Option<Time>)
  datatype Verification = Verification(userId: Id, email: string, token: Digest, expiresAt: Time,
                                       usedAt: Option<Time>)
  datatype Invitation = Invitation(email: string, roleId: Id, invitedBy: Id, token: Digest, expiresAt: Time,
                                   acceptedAt: Option<Time>, revokedAt: Option<Time>)
  {
    predicate Open() {
      acceptedAt.None? && revokedAt.None?
    }

    predicate Pending(now: Time) {
      Open() && expiresAt > now
    }
  }
  datatype ApiKey = ApiKey(userId: Id, name: string, token: Digest, expiresAt: Option<Time>, revokedAt: Option<Time>)

  /** Why a login or a reset request was turned away. */
  datatype Reason = UnknownEmail | NoPasswordSet | Deactivated | WrongPassword | CorruptHash

  /** Audit entries: the action, its actor or target, and the metadata the service records with it. */
  datatype Entry =
    | UserRegistered(userId: Id, email: string)
    | UserLoggedIn(userId: Id)
    | LoginFailed(claimed: Option<Id>, email: string, reason: Reason)
    | UserLoggedOut(userId: Id)
    | SessionRevoked(actor: Id, sessionId: Id)
    | PasswordChanged(userId: Id, sessionsRevoked: nat)
    | PasswordResetRequested(userId: Id, email: string)
    | PasswordResetRejected(claimed: Option<Id>, email: string, reason: Reason)
    | PasswordReset(userId: Id, sessionsRevoked: nat)
    | EmailVerified(userId: Id, email: string)
    | UserDeactivated(actor: Id, userId: Id, sessionsRevoked: nat)
    | UserReactivated(actor: Id, userId: Id)
    | RolesUpdated(actor: Id, userId: Id, from: set<string>, to: set<string>)
    | RoleGranted(userId: Id, key: string)
    | InvitationCreated(actor: Id, invitationId: Id, email: string, key: string)
    | InvitationRevoked(actor: Id, invitationId: Id)
    | InvitationAccepted(userId: Id, invitationId: Id, email: string, key: string)
    | RoleCreated(actor: Id, roleId: Id, key: string, name: string, permissions: set<Permission>)
    | RoleUpdated(actor: Id, roleId: Id, key: string, before: set<Permission>, after: set<Permission>)
    | RoleDeleted(actor: Id, roleId: Id, key: string)
    | ApiKeyCreated(actor: Id, keyId: Id, name: string, permissions: set<Permission>)
    | ApiKeyRevoked(actor: Id, keyId: Id, name: string)
    | SuperuserGranted(userId: Id)
    | SuperuserRevoked(userId: Id)

  datatype Tables = Tables(
    users: map<Id, User>,
    roles: map<Id, Role>,
    rolePermissions: set<(Id, Permission)>,
    userRoles: set<(Id, Id)>,
    invitations: map<Id, Invitation>,
    apiKeys: map<Id, ApiKey>,
    keyPermissions: set<(Id, Permission)>,
    sessions: map<Id, Session>,
    resets: map<Id, Reset>,
    verifications: map<Id, Verification>,
    nextId: nat)

  const ADMIN_ID: Id := 1
  const MEMBER_ID: Id := 2

  /** The tables the baseline migration leaves behind. */
  const SEED: Tables := Tables(
    map[],
    map[ADMIN_ID := Role(ADMIN_KEY, "Admin", true), MEMBER_ID := Role(MEMBER_KEY, "Member", true)],
    (set p | p in CATALOG :: (ADMIN_ID, p)) + {(MEMBER_ID, UsersRead)},
    {}, map[], map[], {}, map[], map[], map[], 3)

  // ---------------------------------------------------------------- SELECT

  function PermissionsOf(grants: set<(Id, Permission)>, id: Id): (perms: set<Permission>)
    ensures forall p :: p in perms <==> (id, p) in grants
  {
    var perms := set g | g in grants && g.0 == id :: g.1;
    assert forall p :: (id, p) in grants ==> (id, p).1 in perms;
    perms
  }

  function RoleAt(t: Tables, id: Id): RoleView
    requires id in t.roles
  {
    RoleView(id, t.roles[id].key, t.roles[id].name, t.roles[id].isSystem, PermissionsOf(t.rolePermissions, id))
  }

  function RolesWithIds(t: Tables, ids: set<Id>): set<RoleView> {
    set id | id in ids && id in t.roles :: RoleAt(t, id)
  }

  function RoleIdsOf(t: Tables, userId: Id): (ids: set<Id>)
    ensures forall id :: id in ids <==> (userId, id) in t.userRoles
  {
    var ids := set ur | ur in t.userRoles && ur.0 == userId :: ur.1;
    assert forall id :: (userId, id) in t.userRoles ==> (userId, id).1 in ids;
    ids
  }

  function Distinct(ids: seq<Id>): set<Id> {
    set id | id in ids
  }

  /** LoadUserRoles: the roles a user holds, with their permissions. */
  function RolesHeld(t: Tables, userId: Id): set<RoleView> {
    RolesWithIds(t, RoleIdsOf(t, userId))
  }

  predicate HoldsRole(t: Tables, userId: Id, key: string) {
    exists id :: (userId, id) in t.userRoles && id in t.roles && t.roles[id].isSystem && t.roles[id].key == key
  }

  /** The users counted by CountUsersWithRole. */
  function Holders(t: Tables, key: string): set<Id> {
    set ur | ur in t.userRoles && HoldsRole(t, ur.0, key) :: ur.0
  }

  /** The users counted by CountActiveUsersWithRole. */
  function ActiveHolders(t: Tables, key: string): set<Id> {
    set u | u in Holders(t, key) && u in t.users && t.users[u].isActive
  }

  /** Authorize: a superuser holds the catalog, anyone else the union of their roles. */
  ghost function Authorize(t: Tables, userId: Id, isSuperuser: bool): Access {
    if isSuperuser then SuperuserAccess()
    else Access(RolesHeld(t, userId), UnionPermissions(RolesHeld(t, userId)), false, false)
  }

  ghost function UserByEmail(users: map<Id, User>, email: string): (r: Option<Id>)
    ensures r.Some? ==> r.value in users && users[r.value].email == email
    ensures r.None? ==> forall u :: u in users ==> users[u].email != email
  {
    if u :| u in users && users[u].email == email then Some(u) else None
  }

  ghost function RoleByKey(roles: map<Id, Role>, key: string): (r: Option<Id>)
    ensures r.Some? ==> r.value in roles && roles[r.value].key == key
    ensures r.None? ==> forall id :: id in roles ==> roles[id].key != key
  {
    if id :| id in roles && roles[id].key == key then Some(id) else None
  }

  ghost function InvitationByToken(invitations: map<Id, Invitation>, token: Digest): (r: Option<Id>)
    ensures r.Some? ==> r.value in invitations && invitations[r.value].token == token
    ensures r.None? ==> forall i :: i in invitations ==> invitations[i].token != token
  {
    if i :| i in invitations && invitations[i].token == token then Some(i) else None
  }

  predicate Live(s: Session, now: Time) {
    s.revokedAt.None? && s.expiresAt > now
  }

  /** The one live session row with this token. */
  ghost function LiveSession(sessions: map<Id, Session>, token: Digest, now: Time): (r: Option<Id>)
    ensures r.Some? ==> r.value in sessions && sessions[r.value].token == token && Live(sessions[r.value], now)
    ensures r.None? ==> forall i :: i in sessions && sessions[i].token == token ==> !Live(sessions[i], now)
  {
    if i :| i in sessions && sessions[i].token == token && Live(sessions[i], now) then Some(i) else None
  }

  /** ListUserSessions, as the set of its rows. */
  function LiveSessionsOf(sessions: map<Id, Session>, userId: Id, now: Time): map<Id, Session> {
    map i | i in sessions && sessions[i].userId == userId && Live(sessions[i], now) :: sessions[i]
  }

  predicate KeyLive(k: ApiKey, now: Time) {
    k.revokedAt.None? && (k.expiresAt.Some? ==> k.expiresAt.value > now)
  }

  ghost function LiveKey(keys: map<Id, ApiKey>, users: map<Id, User>, token: Digest, now: Time): (r: Option<Id>)
    ensures r.Some? ==> r.value in keys && keys[r.value].token == token && KeyLive(keys[r.value], now)
                        && keys[r.value].userId in users && users[keys[r.value].userId].isActive
    ensures r.None? ==> forall i ::
      i in keys && keys[i].token == token && KeyLive(keys[i], now) ==>
        keys[i].userId !in users || !users[keys[i].userId].isActive
  {
    if i :| i in keys && keys[i].token == token && KeyLive(keys[i], now) && keys[i].userId in users
            && users[keys[i].userId].isActive
    then Some(i) else None
  }

  predicate Spendable(usedAt: Option<Time>, expiresAt: Time, now: Time) {
    usedAt.None? && expiresAt > now
  }

  ghost function SpendableReset(resets: map<Id, Reset>, token: Digest, now: Time): (r: Option<Id>)
    ensures r.Some? ==> r.value in resets && resets[r.value].token == token
                        && Spendable(resets[r.value].usedAt, resets[r.value].expiresAt, now)
    ensures r.None? ==> forall i ::
      i in resets && resets[i].token == token ==> !Spendable(resets[i].usedAt, resets[i].expiresAt, now)
  {
    if i :| i in resets && resets[i].token == token && Spendable(resets[i].usedAt, resets[i].expiresAt, now)
    then Some(i) else None
  }

  ghost function SpendableVerification(vs: map<Id, Verification>, token: Digest, now: Time): (r: Option<Id>)
    ensures r.Some? ==> r.value in vs && vs[r.value].token == token
                        && Spendable(vs[r.value].usedAt, vs[r.value].expiresAt, now)
    ensures r.None? ==> forall i :: i in vs && vs[i].token == token ==> !Spendable(vs[i].usedAt, vs[i].expiresAt, now)
  {
    if i :| i in vs && vs[i].token == token && Spendable(vs[i].usedAt, vs[i].expiresAt, now) then Some(i) else None
  }

  // ---------------------------------------------------------------- UPDATE and DELETE

  function Stamp(at: Option<Time>, now: Time): Option<Time> {
    if at.None? then Some(now) else at
  }

  function UserSessionsRevoked(sessions: map<Id, Session>, userId: Id, now: Time): map<Id, Session> {
    map i | i in sessions :: if sessions[i].userId == userId
                             then sessions[i].(revokedAt := Stamp(sessions[i].revokedAt, now)) else sessions[i]
  }

  function TokenRevoked(sessions: map<Id, Session>, token: Digest, now: Time): map<Id, Session> {
    map i | i in sessions :: if sessions[i].token == token
                             then sessions[i].(revokedAt := Stamp(sessions[i].revokedAt, now)) else sessions[i]
  }

  /** How many rows RevokeUserSessions touches. */
  function UnrevokedCount(sessions: map<Id, Session>, userId: Id): nat {
    |set i | i in sessions && sessions[i].userId == userId && sessions[i].revokedAt.None?|
  }

  function UserResetsSpent(resets: map<Id, Reset>, userId: Id, now: Time): map<Id, Reset> {
    map i | i in resets :: if resets[i].userId == userId
                           then resets[i].(usedAt := Stamp(resets[i].usedAt, now)) else resets[i]
  }

  function UserVerificationsSpent(vs: map<Id, Verification>, userId: Id, now: Time): map<Id, Verification> {
    map i | i in vs :: if vs[i].userId == userId then vs[i].(usedAt := Stamp(vs[i].usedAt, now)) else vs[i]
  }

  function OpenInvitationsRevoked(invitations: map<Id, Invitation>, email: string, now: Time): map<Id, Invitation> {
    map i | i in invitations :: if invitations[i].email == email && invitations[i].Open()
                                then invitations[i].(revokedAt := Some(now)) else invitations[i]
  }

  /** What the CASCADE on invitations.role_id leaves. */
  function InvitationsElsewhere(invitations: map<Id, Invitation>, roleId: Id): map<Id, Invitation> {
    map i | i in invitations && invitations[i].roleId != roleId :: invitations[i]
  }

  /** The WHERE clause of the three retention sweeps. */
  predicate Dead(endedAt: Option<Time>, expiresAt: Time, now: Time, retain: int) {
    expiresAt < now - retain || (endedAt.Some? && endedAt.value < now - retain)
  }

  function SessionsPruned(sessions: map<Id, Session>, now: Time, retain: int): map<Id, Session> {
    map i | i in sessions && !Dead(sessions[i].revokedAt, sessions[i].expiresAt, now, retain) :: sessions[i]
  }

  function ResetsPruned(resets: map<Id, Reset>, now: Time, retain: int): map<Id, Reset> {
    map i | i in resets && !Dead(resets[i].usedAt, resets[i].expiresAt, now, retain) :: resets[i]
  }

  function VerificationsPruned(vs: map<Id, Verification>, now: Time, retain: int): map<Id, Verification> {
    map i | i in vs && !Dead(vs[i].usedAt, vs[i].expiresAt, now, retain) :: vs[i]
  }

  /** Deleting from a two-column table, and inserting the rows that pair `id` with each of `values`. */
  function Without<T(==)>(rel: set<(Id, T)>, id: Id): set<(Id, T)> {
    set x | x in rel && x.0 != id
  }

  function Paired<T(==)>(id: Id, values: set<T>): set<(Id, T)> {
    set v | v in values :: (id, v)
  }
}
