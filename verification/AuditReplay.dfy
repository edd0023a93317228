/** The audit log fully explains the authority state: folding it from the seeded installation rebuilds every
    account, role and assignment, and every recorded "from" is what the entries before it say. */
module AuditReplay {
  import opened Prelude
  import opened Permissions
  import opened Tables
  import opened Transactions
  import opened SerialMachine
  import opened Constraints
  import opened Frames

  datatype Account = Account(email: string, isActive: bool, isSuperuser: bool)
  datatype RoleFact = RoleFact(key: string, permissions: set<Permission>)

  /** The authority state as a reader of the audit log knows it; assignments are (user, role key) pairs. */
  datatype View = View(accounts: map<Id, Account>, roles: map<Id, RoleFact>, holdings: set<(Id, string)>)

  // ---------------------------------------------------------------- what the tables say

  function AccountsOf(users: map<Id, User>): map<Id, Account> {
    map u | u in users :: Account(users[u].email, users[u].isActive, users[u].isSuperuser)
  }

  function FactsOf(roles: map<Id, Role>, grants: set<(Id, Permission)>): map<Id, RoleFact> {
    map r | r in roles :: RoleFact(roles[r].key, PermissionsOf(grants, r))
  }

  function HoldingsOf(userRoles: set<(Id, Id)>, roles: map<Id, Role>): set<(Id, string)> {
    set ur | ur in userRoles && ur.1 in roles :: (ur.0, roles[ur.1].key)
  }

  function ViewOf(t: Tables): View {
    View(AccountsOf(t.users), FactsOf(t.roles, t.rolePermissions), HoldingsOf(t.userRoles, t.roles))
  }

  // ---------------------------------------------------------------- what the log says

  function KeysHeld(holdings: set<(Id, string)>, userId: Id): set<string> {
    set h | h in holdings && h.0 == userId :: h.1
  }

  function Apply(v: View, e: Entry): View {
    match e
    case UserRegistered(u, email) => v.(accounts := v.accounts[u := Account(email, true, false)])
    case InvitationAccepted(u, _, email, key) =>
      v.(accounts := v.accounts[u := Account(email, true, false)], holdings := v.holdings + {(u, key)})
    case UserDeactivated(_, u, _) =>
      if u in v.accounts then v.(accounts := v.accounts[u := v.accounts[u].(isActive := false)]) else v
    case UserReactivated(_, u) =>
      if u in v.accounts then v.(accounts := v.accounts[u := v.accounts[u].(isActive := true)]) else v
    case SuperuserGranted(u) =>
      if u in v.accounts then v.(accounts := v.accounts[u := v.accounts[u].(isSuperuser := true)]) else v
    case SuperuserRevoked(u) =>
      if u in v.accounts then v.(accounts := v.accounts[u := v.accounts[u].(isSuperuser := false)]) else v
    case RoleCreated(_, r, key, _, permissions) => v.(roles := v.roles[r := RoleFact(key, permissions)])
    case RoleUpdated(_, r, key, _, after) => v.(roles := v.roles[r := RoleFact(key, after)])
    case RoleDeleted(_, r, _) => v.(roles := v.roles - {r})
    case RolesUpdated(_, u, _, to) => v.(holdings := Without(v.holdings, u) + Paired(u, to))
    case RoleGranted(u, key) => v.(holdings := v.holdings + {(u, key)})
    case _ => v
  }

  /** What an entry claims about the state before it agrees with that state. */
  ghost predicate Truthful(v: View, e: Entry) {
    match e
    case RolesUpdated(_, u, from, _) => from == KeysHeld(v.holdings, u)
    case RoleUpdated(_, r, key, before, _) => r in v.roles && v.roles[r] == RoleFact(key, before)
    case RoleDeleted(_, r, key) => r in v.roles && v.roles[r].key == key
    case RoleCreated(_, r, key, _, _) => r !in v.roles && forall q :: q in v.roles ==> v.roles[q].key != key
    case UserRegistered(u, _) => u !in v.accounts
    case InvitationAccepted(u, _, _, _) => u !in v.accounts
    case UserDeactivated(_, u, _) => u in v.accounts
    case UserReactivated(_, u) => u in v.accounts
    case _ => true
  }

  /** The fold of a log, starting from the seeded installation. */
  ghost function Replay(log: seq<Entry>): View
    decreases |log|
  {
    if log == [] then ViewOf(SEED) else Apply(Replay(log[..|log| - 1]), log[|log| - 1])
  }

  ghost function Appended(log: seq<Entry>, entry: Option<Entry>): seq<Entry> {
    if entry.Some? then log + [entry.value] else log
  }

  /** The audit log after a run that starts with `log`. */
  ghost function Trail(t: Tables, log: seq<Entry>, es: seq<Event>): seq<Entry>
    decreases |es|
  {
    if es == [] then log
    else
      var o := Step(t, es[0].now, es[0].command);
      Trail(o.t, Appended(log, o.entry), es[1..])
  }

  // ---------------------------------------------------------------- one transaction

  /** A transaction's entry tells exactly what it did to the authority state. */
  ghost predicate Recorded(t: Tables, o: Outcome) {
    && ViewOf(o.t) == (if o.entry.Some? then Apply(ViewOf(t), o.entry.value) else ViewOf(t))
    && (o.entry.Some? ==> Truthful(ViewOf(t), o.entry.value))
  }

  lemma HoldingAdded(userRoles: set<(Id, Id)>, roles: map<Id, Role>, u: Id, r: Id)
    requires r in roles
    ensures HoldingsOf(userRoles + {(u, r)}, roles) == HoldingsOf(userRoles, roles) + {(u, roles[r].key)}
  {
    var after := HoldingsOf(userRoles + {(u, r)}, roles);
    assert ((u, r).0, roles[(u, r).1].key) in after;
  }

  lemma HoldingsReplaced(t: Tables, u: Id, ids: set<Id>)
    requires ids <= t.roles.Keys
    ensures HoldingsOf(Without(t.userRoles, u) + Paired(u, ids), t.roles)
            == Without(HoldingsOf(t.userRoles, t.roles), u) + Paired(u, RoleKeys(RolesWithIds(t, ids)))
  {
    var rel := Without(t.userRoles, u) + Paired(u, ids);
    var left, right := HoldingsOf(rel, t.roles),
                       Without(HoldingsOf(t.userRoles, t.roles), u) + Paired(u, RoleKeys(RolesWithIds(t, ids)));
    forall h | h in left ensures h in right {
      var ur :| ur in rel && ur.1 in t.roles && h == (ur.0, t.roles[ur.1].key);
      if ur.0 == u {
        assert RoleAt(t, ur.1) in RolesWithIds(t, ids);
        assert RoleAt(t, ur.1).key in RoleKeys(RolesWithIds(t, ids));
      } else {
        assert ur in t.userRoles;
      }
    }
    forall h | h in right ensures h in left {
      if h.0 == u {
        assert h.1 in RoleKeys(RolesWithIds(t, ids));
        var r :| r in ids && r in t.roles && RoleAt(t, r).key == h.1;
        assert (u, r) in rel && ((u, r).0, t.roles[(u, r).1].key) in left;
      } else {
        var ur :| ur in t.userRoles && ur.1 in t.roles && h == (ur.0, t.roles[ur.1].key);
        assert ur in rel;
      }
    }
  }

  lemma KeysHeldAre(t: Tables, u: Id)
    ensures KeysHeld(HoldingsOf(t.userRoles, t.roles), u) == RoleKeys(RolesHeld(t, u))
  {
    var left, right := KeysHeld(HoldingsOf(t.userRoles, t.roles), u), RoleKeys(RolesHeld(t, u));
    forall k | k in left ensures k in right {
      var ur :| ur in t.userRoles && ur.1 in t.roles && (u, k) == (ur.0, t.roles[ur.1].key);
      assert RoleAt(t, ur.1) in RolesHeld(t, u);
    }
    forall k | k in right ensures k in left {
      var r :| r in RoleIdsOf(t, u) && r in t.roles && RoleAt(t, r).key == k;
      assert ((u, r).0, t.roles[(u, r).1].key) in HoldingsOf(t.userRoles, t.roles);
    }
  }

  lemma AccountUpdated(users: map<Id, User>, id: Id, user: User)
    ensures AccountsOf(users[id := user])
            == AccountsOf(users)[id := Account(user.email, user.isActive, user.isSuperuser)]
  {}

  lemma AccountUntouched(users: map<Id, User>, id: Id, user: User)
    requires id in users && user.email == users[id].email && user.isActive == users[id].isActive
    requires user.isSuperuser == users[id].isSuperuser
    ensures AccountsOf(users[id := user]) == AccountsOf(users)
  {}

  lemma RegisterRecorded(t: Tables, email: string, hash: string, ok: bool)
    requires Consistent(t)
    ensures Recorded(t, Register(t, email, hash, ok))
  {
    hide Consistent, FactsOf, HoldingsOf;
    FreshUser(t);
    AccountUpdated(t.users, t.nextId, User(email, Some(hash), false, true, None));
  }

  lemma FreshUser(t: Tables)
    requires Consistent(t)
    ensures t.nextId !in t.users && t.nextId !in t.roles
  {}

  lemma SetUserActiveRecorded(t: Tables, now: Time, actor: Id, superuser: bool, target: Id, active: bool)
    ensures Recorded(t, SetUserActive(t, now, actor, superuser, target, active))
  {
    hide HoldsRole, ActiveHolders, FactsOf, HoldingsOf, UserSessionsRevoked, UnrevokedCount, AccountsOf;
    if target in t.users {
      AccountAt(t.users, target);
      AccountUpdated(t.users, target, t.users[target].(isActive := active));
    }
  }

  lemma SetSuperuserRecorded(t: Tables, email: string, flag: bool, ok: bool)
    ensures Recorded(t, SetSuperuser(t, email, flag, ok))
  {
    hide FactsOf, HoldingsOf, AccountsOf;
    var found := UserByEmail(t.users, email);
    if found.Some? {
      AccountAt(t.users, found.value);
      AccountUpdated(t.users, found.value, t.users[found.value].(isSuperuser := flag));
    }
  }

  lemma AccountAt(users: map<Id, User>, id: Id)
    requires id in users
    ensures id in AccountsOf(users)
    ensures AccountsOf(users)[id] == Account(users[id].email, users[id].isActive, users[id].isSuperuser)
  {}

  lemma GrantRecorded(t: Tables, email: string, key: string, ok: bool)
    requires Consistent(t)
    ensures Recorded(t, GrantRoleByKey(t, email, key, ok))
  {
    hide Consistent, FactsOf, HoldingsOf, AccountsOf;
    var found, role := UserByEmail(t.users, email), RoleByKey(t.roles, key);
    if found.Some? && role.Some? {
      HoldingAdded(t.userRoles, t.roles, found.value, role.value);
    }
  }

  lemma AcceptRecorded(t: Tables, now: Time, token: Digest, hash: string, ok: bool)
    requires Consistent(t)
    ensures Recorded(t, AcceptInvitation(t, now, token, hash, ok))
  {
    hide Consistent, FactsOf, HoldingsOf;
    FreshUser(t);
    var found := OfferedInvitation(t, token);
    if found.Some? {
      var inv := t.invitations[found.value];
      HoldingAdded(t.userRoles, t.roles, t.nextId, inv.roleId);
      AccountUpdated(t.users, t.nextId, User(inv.email, Some(hash), false, true, Some(now)));
    }
  }

  lemma AssignRecorded(t: Tables, actor: Id, access: Access, target: Id, ids: seq<Id>)
    requires Consistent(t)
    ensures Recorded(t, SetUserRoles(t, actor, access, target, ids))
  {
    hide Consistent, FactsOf, HoldingsOf, AccountsOf, HasRole, UnionPermissions, RoleKeys, RolesHeld, RolesWithIds,
         Holders, KeysHeld;
    var wanted := Distinct(ids);
    KeysHeldAre(t, target);
    if wanted <= t.roles.Keys {
      HoldingsReplaced(t, target, wanted);
    }
  }

  lemma FactsInserted(t: Tables, id: Id, key: string, name: string, perms: set<Permission>, isSystem: bool)
    ensures FactsOf(t.roles[id := Role(key, name, isSystem)], Without(t.rolePermissions, id) + Paired(id, perms))
            == FactsOf(t.roles, t.rolePermissions)[id := RoleFact(key, perms)]
  {
    var grants := Without(t.rolePermissions, id) + Paired(id, perms);
    assert PermissionsOf(grants, id) == perms;
    forall r | r != id ensures PermissionsOf(grants, r) == PermissionsOf(t.rolePermissions, r) {
      assert forall p :: (r, p) in grants <==> (r, p) in t.rolePermissions;
    }
  }

  lemma InsertRecorded(t: Tables, actor: Id, key: string, name: string, perms: set<Permission>)
    requires Consistent(t)
    ensures Recorded(t, InsertRole(t, actor, key, name, perms))
  {
    hide Consistent, AccountsOf;
    assert t.nextId !in t.roles && AssignmentsOk(t.userRoles, t.users.Keys, t.roles.Keys) by {
      Unfolded(t);
    }
    FactsInserted(t, t.nextId, key, name, perms, false);
    assert HoldingsOf(t.userRoles, t.roles[t.nextId := Role(key, name, false)]) == HoldingsOf(t.userRoles, t.roles);
  }

  lemma RewriteRecorded(t: Tables, actor: Id, id: Id, name: string, perms: set<Permission>)
    requires Consistent(t)
    ensures Recorded(t, RewriteRole(t, actor, id, name, PermissionsOf(t.rolePermissions, id), perms))
  {
    hide Consistent, AccountsOf;
    if id in t.roles {
      FactsInserted(t, id, t.roles[id].key, name, perms, t.roles[id].isSystem);
      assert HoldingsOf(t.userRoles, t.roles[id := t.roles[id].(name := name)]) == HoldingsOf(t.userRoles, t.roles);
    }
  }

  lemma RemoveRecorded(t: Tables, actor: Id, id: Id)
    requires Consistent(t) && id in t.roles
    ensures Recorded(t, RemoveRole(t, actor, id, t.roles[id].key))
  {
    hide Consistent, AccountsOf;
    if !exists u :: (u, id) in t.userRoles {
      assert HoldingsOf(t.userRoles, t.roles - {id}) == HoldingsOf(t.userRoles, t.roles);
      var grants := Without(t.rolePermissions, id);
      forall r | r != id ensures PermissionsOf(grants, r) == PermissionsOf(t.rolePermissions, r) {
        assert forall p :: (r, p) in grants <==> (r, p) in t.rolePermissions;
      }
      assert FactsOf(t.roles - {id}, grants) == FactsOf(t.roles, t.rolePermissions) - {id};
    }
  }

  /** The commands whose entries do not touch the authority view. */
  predicate Quiet(c: Command) {
    !WritesAuthority(c) && !c.CRegister? && !c.CSetUserActive? && !c.CSetSuperuser?
  }

  lemma QuietRecorded(t: Tables, now: Time, c: Command)
    requires Quiet(c)
    ensures Recorded(t, Step(t, now, c))
  {
    hide FactsOf, HoldingsOf;
    RolesFrame(t, now, c);
    GrantsFrame(t, now, c);
    AssignmentsFrame(t, now, c);
    QuietAccounts(t, now, c);
    QuietEntries(t, now, c);
  }

  lemma QuietAccounts(t: Tables, now: Time, c: Command)
    requires Quiet(c)
    ensures AccountsOf(Step(t, now, c).t.users) == AccountsOf(t.users)
  {
    hide AccountsOf, UserSessionsRevoked, UserResetsSpent, UnrevokedCount, SetUserActive, SetSuperuser, Register,
         Invite, CreateApiKey, RequestPasswordReset, SendVerification, Prune, AuthenticateSession, AuthenticateApiKey;
    if !WritesUsers(c) {
      UsersFrame(t, now, c);
    } else if c.CLogin? {
      var found := UserByEmail(t.users, c.email);
      if found.Some? {
        AccountUntouched(t.users, found.value, t.users[found.value].(passwordHash := c.upgrade));
      }
    } else if c.CChangePassword? {
      if c.userId in t.users {
        AccountUntouched(t.users, c.userId, t.users[c.userId].(passwordHash := Some(c.hash)));
      }
    } else {
      TokensKeepAccounts(t, now, c);
    }
  }

  lemma ResetKeepsAccounts(t: Tables, now: Time, id: Id, hash: string)
    requires id in t.resets
    ensures AccountsOf(FinishReset(t, now, id, hash).t.users) == AccountsOf(t.users)
  {
    hide AccountsOf, UserSessionsRevoked, UserResetsSpent, UnrevokedCount;
    var u := t.resets[id].userId;
    if u in t.users {
      AccountUntouched(t.users, u, t.users[u].(passwordHash := Some(hash)));
    }
  }

  lemma VerificationKeepsAccounts(t: Tables, now: Time, id: Id)
    requires id in t.verifications
    ensures AccountsOf(FinishVerification(t, now, id).t.users) == AccountsOf(t.users)
  {
    hide AccountsOf;
    var u := t.verifications[id].userId;
    if u in t.users {
      AccountUntouched(t.users, u, t.users[u].(verifiedAt := Some(now)));
    }
  }

  lemma TokensKeepAccounts(t: Tables, now: Time, c: Command)
    requires c.CResetPassword? || c.CVerifyEmail?
    ensures AccountsOf(Step(t, now, c).t.users) == AccountsOf(t.users)
  {
    hide AccountsOf, FinishReset, FinishVerification;
    match c
    case CResetPassword(token, hash, ok) =>
      var row := SpendableReset(t.resets, token, now);
      if row.Some? {
        ResetKeepsAccounts(t, now, row.value, hash);
      }
    case CVerifyEmail(token) =>
      var row := SpendableVerification(t.verifications, token, now);
      if row.Some? {
        VerificationKeepsAccounts(t, now, row.value);
      }
    case _ =>
  }

  lemma QuietEntries(t: Tables, now: Time, c: Command)
    requires Quiet(c)
    ensures var e := Step(t, now, c).entry;
            e.Some? ==> Apply(ViewOf(t), e.value) == ViewOf(t) && Truthful(ViewOf(t), e.value)
  {
    hide ViewOf;
  }

  lemma StepRecorded(t: Tables, now: Time, c: Command)
    requires Consistent(t)
    ensures Recorded(t, Step(t, now, c))
  {
    hide Consistent, Recorded;
    if Quiet(c) {
      QuietRecorded(t, now, c);
    } else {
      match c
      case CGrantRoleByKey(email, key, ok) => GrantRecorded(t, email, key, ok);
      case CAcceptInvitation(token, hash, ok) => AcceptRecorded(t, now, token, hash, ok);
      case CSetUserRoles(actor, access, target, ids) => AssignRecorded(t, actor, access, target, ids);
      case CCreateRole(actor, _, key, name, perms, _) =>
        InsertRecorded(t, actor, key, name, PermissionSet(perms));
        RefusalRecorded(t, Validation);
        RefusalRecorded(t, Escalation);
      case CUpdateRole(actor, _, id, name, perms, _) =>
        RewriteRecorded(t, actor, id, name, PermissionSet(perms));
        RefusalsRecorded(t);
      case CDeleteRole(actor, _, id) =>
        if id in t.roles {
          RemoveRecorded(t, actor, id);
        }
        RefusalsRecorded(t);
      case CRegister(email, hash, ok) => RegisterRecorded(t, email, hash, ok);
      case CSetUserActive(actor, superuser, target, active) =>
        SetUserActiveRecorded(t, now, actor, superuser, target, active);
      case CSetSuperuser(email, flag, ok) => SetSuperuserRecorded(t, email, flag, ok);
    }
  }

  lemma RefusalRecorded(t: Tables, e: Error)
    ensures Recorded(t, Refused(t, e))
  {}

  lemma RefusalsRecorded(t: Tables)
    ensures forall e :: Recorded(t, Refused(t, e))
  {}

  // ---------------------------------------------------------------- whole runs

  /** Every entry is truthful about the fold of the entries before it. */
  ghost predicate AllTruthful(log: seq<Entry>) {
    forall i :: 0 <= i < |log| ==> Truthful(Replay(log[..i]), log[i])
  }

  lemma AppendReplays(t: Tables, log: seq<Entry>, o: Outcome)
    requires Replay(log) == ViewOf(t) && AllTruthful(log) && Recorded(t, o)
    ensures Replay(Appended(log, o.entry)) == ViewOf(o.t) && AllTruthful(Appended(log, o.entry))
  {
    hide ViewOf, Apply, Truthful;
    if o.entry.Some? {
      var longer := log + [o.entry.value];
      assert longer[..|log|] == log;
      assert forall i :: 0 <= i < |log| ==> longer[..i] == log[..i];
    }
  }

  lemma {:induction false} TrailReplays(t: Tables, log: seq<Entry>, es: seq<Event>)
    requires Consistent(t) && Replay(log) == ViewOf(t) && AllTruthful(log)
    ensures Replay(Trail(t, log, es)) == ViewOf(Run(t, es)) && AllTruthful(Trail(t, log, es))
    decreases |es|
  {
    hide Consistent, Step, ViewOf, Recorded, AllTruthful, Replay;
    if es != [] {
      var o := Step(t, es[0].now, es[0].command);
      StepRecorded(t, es[0].now, es[0].command);
      StepConsistent(t, es[0].now, es[0].command);
      AppendReplays(t, log, o);
      TrailReplays(o.t, Appended(log, o.entry), es[1..]);
    }
  }

  /** From the seeded installation, the log rebuilds the authority state of any reachable state. */
  lemma LogExplainsAuthority(es: seq<Event>)
    ensures Replay(Trail(SEED, [], es)) == ViewOf(Run(SEED, es))
    ensures AllTruthful(Trail(SEED, [], es))
  {
    SeedConsistent();
    TrailReplays(SEED, [], es);
  }
}
