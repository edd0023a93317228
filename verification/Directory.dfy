/** The user directory: the fold of GET /users over the rows of its three-way LEFT JOIN, and its paging. */
module Directory {
  import opened Prelude
  import opened Permissions
  import opened Tables
  import opened Constraints
  import opened Keyset

  // ---------------------------------------------------------------- display order of roles

  predicate StringLess(a: string, b: string)
    decreases |a|
  {
    if b == [] then false
    else if a == [] then true
    else if a[0] != b[0] then a[0] < b[0]
    else StringLess(a[1..], b[1..])
  }

  /** System roles first, then by key. */
  predicate Before(a: RoleView, b: RoleView) {
    if a.isSystem != b.isSystem then a.isSystem else StringLess(a.key, b.key)
  }

  lemma {:induction false} StringLessTotal(a: string, b: string)
    ensures StringLess(a, b) || StringLess(b, a) || a == b
    ensures !(StringLess(a, b) && StringLess(b, a))
    decreases |a|
  {
    if a != [] && b != [] {
      StringLessTotal(a[1..], b[1..]);
      assert a == [a[0]] + a[1..] && b == [b[0]] + b[1..];
    }
  }

  lemma {:induction false} StringLessTransitive(a: string, b: string, c: string)
    requires StringLess(a, b) && StringLess(b, c)
    ensures StringLess(a, c)
    decreases |a|
  {
    if a != [] && b != [] && c != [] && a[0] == b[0] == c[0] {
      StringLessTransitive(a[1..], b[1..], c[1..]);
    }
  }

  predicate InOrder(s: seq<RoleView>) {
    forall i, j :: 0 <= i < j < |s| ==> Before(s[i], s[j])
  }

  predicate KeysDiffer(roles: set<RoleView>) {
    forall a, b :: a in roles && b in roles && a.key == b.key ==> a == b
  }

  lemma BeforeTransitive(a: RoleView, b: RoleView, c: RoleView)
    requires Before(a, b) && Before(b, c)
    ensures Before(a, c)
  {
    if a.isSystem == b.isSystem == c.isSystem {
      StringLessTransitive(a.key, b.key, c.key);
    }
  }

  lemma PutBetween(s: seq<RoleView>, r: RoleView, i: nat)
    requires InOrder(s) && i <= |s| && forall j :: 0 <= j < i ==> Before(s[j], r)
    requires i < |s| ==> Before(r, s[i])
    ensures InOrder(s[..i] + [r] + s[i..])
    ensures forall x :: x in s[..i] + [r] + s[i..] <==> x in s || x == r
  {
    forall j | i < j < |s| ensures Before(r, s[j]) {
      BeforeTransitive(r, s[i], s[j]);
    }
    assert s == s[..i] + s[i..];
  }

  lemma OneComesFirst(a: RoleView, b: RoleView)
    requires a.key != b.key
    ensures Before(a, b) || Before(b, a)
  {
    StringLessTotal(a.key, b.key);
  }

  /** Puts one role where it belongs. */
  method Insert(s: seq<RoleView>, r: RoleView) returns (out: seq<RoleView>)
    requires InOrder(s) && forall x :: x in s ==> x.key != r.key
    ensures InOrder(out) && forall x :: x in out <==> x in s || x == r
    ensures |out| == |s| + 1
  {
    hide Before, InOrder;
    var i := 0;
    while i < |s| && Before(s[i], r)
      invariant 0 <= i <= |s|
      invariant forall j :: 0 <= j < i ==> Before(s[j], r)
    {
      i := i + 1;
    }
    if i < |s| {
      assert s[i] in s;
      OneComesFirst(s[i], r);
    }
    PutBetween(s, r, i);
    out := s[..i] + [r] + s[i..];
  }

  /** sortRoles: any order the map is walked in, one result. */
  method SortRoles(roles: set<RoleView>) returns (out: seq<RoleView>)
    requires KeysDiffer(roles)
    ensures InOrder(out) && |out| == |roles|
    ensures forall r :: r in out <==> r in roles
    ensures forall i, j :: 0 <= i < j < |out| && out[j].isSystem ==> out[i].isSystem
    ensures forall i, j :: 0 <= i < j < |out| && out[i].isSystem == out[j].isSystem ==>
              StringLess(out[i].key, out[j].key)
  {
    out := [];
    var rest := roles;
    while rest != {}
      invariant rest <= roles && |out| + |rest| == |roles|
      invariant InOrder(out) && forall r :: r in out <==> r in roles - rest
      decreases rest
    {
      var r :| r in rest;
      out := Insert(out, r);
      rest := rest - {r};
    }
  }

  /** The order determines the list. */
  lemma {:induction false} SortedIsUnique(s: seq<RoleView>, t: seq<RoleView>)
    requires InOrder(s) && InOrder(t) && forall r :: r in s <==> r in t
    ensures s == t
    decreases |s|
  {
    assert t != [] ==> t[0] in t;
    if s != [] {
      assert s[0] in t && t != [] && t[0] in s;
      var i :| 0 <= i < |t| && t[i] == s[0];
      var j :| 0 <= j < |s| && s[j] == t[0];
      if i > 0 && j > 0 {
        StringLessTotal(s[0].key, t[0].key);
        assert false;
      }
      NotBeforeItself(s[0]);
      SameTails(s, t);
      SortedIsUnique(s[1..], t[1..]);
      assert s == [s[0]] + s[1..] && t == [t[0]] + t[1..];
    }
  }

  lemma NotBeforeItself(r: RoleView)
    ensures !Before(r, r)
  {
    StringLessTotal(r.key, r.key);
  }

  lemma SameTails(s: seq<RoleView>, t: seq<RoleView>)
    requires InOrder(s) && InOrder(t) && s != [] && t != [] && s[0] == t[0] && forall r :: r in s <==> r in t
    ensures forall r :: r in s[1..] <==> r in t[1..]
  {
    NotBeforeItself(s[0]);
    assert forall r :: r in s[1..] ==> r in s && r != s[0];
    assert forall r :: r in t[1..] ==> r in t && r != t[0];
    assert s == [s[0]] + s[1..] && t == [t[0]] + t[1..];
  }

  // ---------------------------------------------------------------- the join

  datatype RoleColumns = RoleColumns(id: Id, role: Role)

  /** One row: the user's columns, then a role's columns or NULL, then one of its permissions or NULL. */
  datatype JoinRow = JoinRow(userId: Id, user: User, role: Option<RoleColumns>, perm: Option<Permission>)

  datatype Summary = Summary(id: Id, user: User, roles: seq<RoleView>, permissions: set<Permission>)

  ghost predicate FromTables(row: JoinRow, t: Tables) {
    && row.userId in t.users && row.user == t.users[row.userId]
    && match row.role
       case None => row.perm.None?
       case Some(c) =>
         && (row.userId, c.id) in t.userRoles && c.id in t.roles && c.role == t.roles[c.id]
         && (row.perm.Some? ==> (c.id, row.perm.value) in t.rolePermissions)
  }

  ghost predicate HasUser(rows: seq<JoinRow>, u: Id) {
    exists i :: 0 <= i < |rows| && rows[i].userId == u
  }

  ghost predicate HasRoleRow(rows: seq<JoinRow>, u: Id, r: Id) {
    exists i :: 0 <= i < |rows| && rows[i].userId == u && rows[i].role.Some? && rows[i].role.value.id == r
  }

  ghost predicate HasPermRow(rows: seq<JoinRow>, u: Id, r: Id, p: Permission) {
    exists i :: 0 <= i < |rows| && rows[i].userId == u && rows[i].role.Some? && rows[i].role.value.id == r
                && rows[i].perm == Some(p)
  }

  /** The rows of users LEFT JOIN user_roles LEFT JOIN roles LEFT JOIN role_permissions below the cursor, by user id
      descending. How the rows of one user are ordered does not matter. */
  ghost predicate IsDirectoryJoin(rows: seq<JoinRow>, t: Tables, before: Option<Id>) {
    && (forall i :: 0 <= i < |rows| ==> FromTables(rows[i], t) && rows[i].userId in Below(t.users.Keys, before))
    && (forall i, j :: 0 <= i < j < |rows| ==> rows[i].userId >= rows[j].userId)
    && (forall u :: u in Below(t.users.Keys, before) ==> HasUser(rows, u))
    && (forall u, r :: u in Below(t.users.Keys, before) && (u, r) in t.userRoles && r in t.roles ==>
          HasRoleRow(rows, u, r))
    && (forall u, r, p ::
          u in Below(t.users.Keys, before) && (u, r) in t.userRoles && r in t.roles && (r, p) in t.rolePermissions ==>
            HasPermRow(rows, u, r, p))
  }

  // ---------------------------------------------------------------- one row

  /** What has been gathered about one user. */
  datatype Partial = Partial(user: User, roles: map<Id, RoleView>, permissions: set<Permission>)

  function Absorb(a: Partial, row: JoinRow): Partial {
    if row.role.None? then a
    else
      var c := row.role.value;
      var role := if c.id in a.roles then a.roles[c.id]
                  else RoleView(c.id, c.role.key, c.role.name, c.role.isSystem, {});
      if row.perm.None? then a.(roles := a.roles[c.id := role])
      else a.(roles := a.roles[c.id := role.(permissions := role.permissions + {row.perm.value})],
              permissions := a.permissions + {row.perm.value})
  }

  ghost predicate Absorbed(row: JoinRow, a: Partial) {
    row.role.Some? ==>
      && row.role.value.id in a.roles
      && (row.perm.Some? ==>
            row.perm.value in a.roles[row.role.value.id].permissions && row.perm.value in a.permissions)
  }

  ghost predicate SoundRole(t: Tables, u: Id, r: Id, view: RoleView) {
    && (u, r) in t.userRoles && r in t.roles
    && view == RoleAt(t, r).(permissions := view.permissions)
    && view.permissions <= PermissionsOf(t.rolePermissions, r)
  }

  ghost predicate Sound(t: Tables, u: Id, a: Partial) {
    && u in t.users && a.user == t.users[u]
    && (forall r :: r in a.roles ==> SoundRole(t, u, r, a.roles[r]))
    && (forall p :: p in a.permissions ==> exists r :: r in a.roles && p in a.roles[r].permissions)
  }

  lemma AbsorbKeeps(a: Partial, row: JoinRow, earlier: JoinRow)
    requires Absorbed(earlier, a)
    ensures Absorbed(earlier, Absorb(a, row)) && Absorbed(row, Absorb(a, row))
  {}

  lemma AbsorbSound(t: Tables, u: Id, a: Partial, row: JoinRow)
    requires Sound(t, u, a) && FromTables(row, t) && row.userId == u
    ensures Sound(t, u, Absorb(a, row)) && Absorbed(row, Absorb(a, row))
  {
    var b := Absorb(a, row);
    forall p | p in b.permissions ensures exists r :: r in b.roles && p in b.roles[r].permissions {
      if p in a.permissions {
        var r :| r in a.roles && p in a.roles[r].permissions;
        assert r in b.roles && p in b.roles[r].permissions;
      } else {
        assert p in b.roles[row.role.value.id].permissions;
      }
    }
  }

  // ---------------------------------------------------------------- the fold

  /** The first `n` rows have been folded; users appear in `order` as they were first seen. */
  ghost predicate Folded(rows: seq<JoinRow>, n: nat, t: Tables, byUser: map<Id, Partial>, order: seq<Id>)
    requires n <= |rows|
  {
    && Descending(order)
    && (forall u :: u in order <==> u in byUser)
    && (forall u :: u in byUser ==> HasUser(rows[..n], u) && Sound(t, u, byUser[u]))
    && (forall i :: 0 <= i < n ==> rows[i].userId in byUser && Absorbed(rows[i], byUser[rows[i].userId]))
  }

  lemma NewUserIsOlder(rows: seq<JoinRow>, n: nat, t: Tables, byUser: map<Id, Partial>, order: seq<Id>)
    requires n < |rows| && Folded(rows, n, t, byUser, order) && rows[n].userId !in byUser
    requires forall i, j :: 0 <= i < j < |rows| ==> rows[i].userId >= rows[j].userId
    ensures forall x :: x in order ==> x > rows[n].userId
    ensures Descending(order + [rows[n].userId])
  {
    forall x | x in order ensures x > rows[n].userId {
      assert HasUser(rows[..n], x);
      var i :| 0 <= i < n && rows[..n][i].userId == x;
      assert rows[i].userId == x;
    }
    DescendingAppend(order, [rows[n].userId]);
  }

  lemma RowFolded(rows: seq<JoinRow>, n: nat, t: Tables, byUser: map<Id, Partial>, order: seq<Id>, old': Partial,
                  order': seq<Id>)
    requires n < |rows| && Folded(rows, n, t, byUser, order) && FromTables(rows[n], t)
    requires var u := rows[n].userId;
             if u in byUser then old' == byUser[u] && order' == order
             else old' == Partial(rows[n].user, map[], {}) && order' == order + [u] && Descending(order')
    ensures Folded(rows, n + 1, t, byUser[rows[n].userId := Absorb(old', rows[n])], order')
  {
    var u := rows[n].userId;
    AbsorbSound(t, u, old', rows[n]);
    var byUser' := byUser[u := Absorb(old', rows[n])];
    forall i | 0 <= i < n + 1 ensures rows[i].userId in byUser' && Absorbed(rows[i], byUser'[rows[i].userId]) {
      if i < n && rows[i].userId == u {
        AbsorbKeeps(old', rows[n], rows[i]);
      }
    }
    forall x | x in byUser' ensures HasUser(rows[..n + 1], x) {
      if x in byUser {
        var i :| 0 <= i < n && rows[..n][i].userId == x;
        assert rows[..n + 1][i].userId == x;
      } else {
        assert rows[..n + 1][n].userId == x;
      }
    }
  }

  /** The fold stops at the first row of a user that would not fit on the page: the rows of one user are contiguous. */
  method Fold(rows: seq<JoinRow>, limit: nat, ghost t: Tables, ghost before: Option<Id>)
    returns (byUser: map<Id, Partial>, order: seq<Id>, ghost done: nat)
    requires limit > 0 && IsDirectoryJoin(rows, t, before)
    ensures done <= |rows| && Folded(rows, done, t, byUser, order) && |order| <= limit
    ensures done < |rows| ==> |order| == limit && rows[done].userId !in byUser
  {
    hide Sound, Absorb, Absorbed, FromTables, Below, Folded;
    byUser, order := map[], [];
    var n := 0;
    done := 0;
    assert Folded(rows, 0, t, byUser, order) by {
      NothingFolded(rows, t);
    }
    while n < |rows|
      invariant done == n <= |rows| && |order| <= limit
      invariant Folded(rows, n, t, byUser, order)
    {
      var row := rows[n];
      ghost var order0, byUser0 := order, byUser;
      var partial := Partial(row.user, map[], {});
      if row.userId in byUser {
        partial := byUser[row.userId];
      } else {
        if |order| == limit {
          return;
        }
        NewUserIsOlder(rows, n, t, byUser, order);
        order := order + [row.userId];
      }
      byUser := byUser[row.userId := Absorb(partial, row)];
      RowFolded(rows, n, t, byUser0, order0, partial, order);
      n := n + 1;
      done := n;
    }
  }

  lemma NothingFolded(rows: seq<JoinRow>, t: Tables)
    ensures Folded(rows, 0, t, map[], [])
  {}

  // ---------------------------------------------------------------- the page

  /** Every row of a user on the page has been folded, since what is left belongs to older users. */
  lemma PageUsersAreDone(rows: seq<JoinRow>, done: nat, t: Tables, before: Option<Id>, byUser: map<Id, Partial>,
                         order: seq<Id>, i: nat)
    requires IsDirectoryJoin(rows, t, before) && done <= i < |rows| && Folded(rows, done, t, byUser, order)
    requires done < |rows| ==> rows[done].userId !in byUser
    ensures forall x :: x in order ==> x > rows[i].userId
  {
    NewUserIsOlder(rows, done, t, byUser, order);
  }

  lemma PermissionsComplete(rows: seq<JoinRow>, done: nat, t: Tables, before: Option<Id>, byUser: map<Id, Partial>,
                            order: seq<Id>, u: Id, r: Id, p: Permission)
    requires IsDirectoryJoin(rows, t, before) && done <= |rows| && Folded(rows, done, t, byUser, order)
    requires done < |rows| ==> rows[done].userId !in byUser
    requires u in byUser && (u, r) in t.userRoles && r in t.roles && (r, p) in t.rolePermissions
    ensures r in byUser[u].roles && p in byUser[u].roles[r].permissions && p in byUser[u].permissions
  {
    FoldedUserIsBelow(rows, done, t, before, byUser, order, u);
    assert HasPermRow(rows, u, r, p);
    var i :| 0 <= i < |rows| && rows[i].userId == u && rows[i].role.Some? && rows[i].role.value.id == r
             && rows[i].perm == Some(p);
    if i >= done {
      PageUsersAreDone(rows, done, t, before, byUser, order, i);
      assert false;
    }
  }

  lemma RolesComplete(rows: seq<JoinRow>, done: nat, t: Tables, before: Option<Id>, byUser: map<Id, Partial>,
                      order: seq<Id>, u: Id, r: Id)
    requires IsDirectoryJoin(rows, t, before) && done <= |rows| && Folded(rows, done, t, byUser, order)
    requires done < |rows| ==> rows[done].userId !in byUser
    requires u in byUser && (u, r) in t.userRoles && r in t.roles
    ensures r in byUser[u].roles
  {
    FoldedUserIsBelow(rows, done, t, before, byUser, order, u);
    assert HasRoleRow(rows, u, r);
    var i :| 0 <= i < |rows| && rows[i].userId == u && rows[i].role.Some? && rows[i].role.value.id == r;
    if i >= done {
      PageUsersAreDone(rows, done, t, before, byUser, order, i);
      assert false;
    }
  }

  lemma FoldedUserIsBelow(rows: seq<JoinRow>, done: nat, t: Tables, before: Option<Id>, byUser: map<Id, Partial>,
                          order: seq<Id>, u: Id)
    requires IsDirectoryJoin(rows, t, before) && done <= |rows| && Folded(rows, done, t, byUser, order) && u in byUser
    ensures u in Below(t.users.Keys, before) && u in order
  {
    var i :| 0 <= i < done && rows[..done][i].userId == u;
    assert rows[i].userId == u;
  }

  /** What was gathered about a user on the page is exactly their row, their roles and their permissions. */
  lemma GatheredExactly(rows: seq<JoinRow>, done: nat, t: Tables, before: Option<Id>, byUser: map<Id, Partial>,
                        order: seq<Id>, u: Id)
    requires IsDirectoryJoin(rows, t, before) && done <= |rows| && Folded(rows, done, t, byUser, order)
    requires done < |rows| ==> rows[done].userId !in byUser
    requires u in byUser
    ensures byUser[u].user == t.users[u]
    ensures byUser[u].roles.Values == RolesHeld(t, u)
    ensures byUser[u].permissions == UnionPermissions(RolesHeld(t, u))
  {
    hide IsDirectoryJoin;
    var a := byUser[u];
    forall r | (u, r) in t.userRoles && r in t.roles ensures r in a.roles && a.roles[r] == RoleAt(t, r) {
      RolesComplete(rows, done, t, before, byUser, order, u, r);
      forall p | (r, p) in t.rolePermissions ensures p in a.roles[r].permissions {
        PermissionsComplete(rows, done, t, before, byUser, order, u, r, p);
      }
    }
    forall v | v in RolesHeld(t, u) ensures v in a.roles.Values {
      assert a.roles[v.id] == v;
    }
    forall p | p in UnionPermissions(RolesHeld(t, u)) ensures p in a.permissions {
      var v :| v in RolesHeld(t, u) && p in v.permissions;
      PermissionsComplete(rows, done, t, before, byUser, order, u, v.id, p);
    }
    forall p | p in a.permissions ensures p in UnionPermissions(RolesHeld(t, u)) {
      var r :| r in a.roles && p in a.roles[r].permissions;
      assert a.roles[r] in RolesHeld(t, u);
    }
  }

  lemma HeldKeysDiffer(t: Tables, u: Id)
    requires RolesOk(t.roles, t.nextId)
    ensures KeysDiffer(RolesHeld(t, u))
  {}

  lemma OrderIsPage(rows: seq<JoinRow>, done: nat, t: Tables, before: Option<Id>, byUser: map<Id, Partial>,
                    order: seq<Id>, limit: nat)
    requires IsDirectoryJoin(rows, t, before) && done <= |rows| && Folded(rows, done, t, byUser, order)
    requires done < |rows| ==> |order| == limit && rows[done].userId !in byUser
    requires |order| <= limit
    ensures order == Page(t.users.Keys, before, limit)
  {
    hide Sound, Absorbed, FromTables;
    forall u | u in order ensures u in Below(t.users.Keys, before) {
      FoldedUserIsBelow(rows, done, t, before, byUser, order, u);
    }
    forall u | u in Below(t.users.Keys, before) && u !in order
      ensures |order| == limit && forall y :: y in order ==> u < y
    {
      assert HasUser(rows, u);
      var i :| 0 <= i < |rows| && rows[i].userId == u;
      PageUsersAreDone(rows, done, t, before, byUser, order, i);
    }
    PageIsUnique(order, t.users.Keys, before, limit);
  }

  function IdsOf(out: seq<Summary>): seq<Id> {
    seq(|out|, k requires 0 <= k < |out| => out[k].id)
  }

  /** A row of the directory: the user, exactly their roles in display order, and what those roles grant. */
  ghost predicate Faithful(s: Summary, t: Tables) {
    && s.id in t.users && s.user == t.users[s.id]
    && InOrder(s.roles) && |s.roles| == |RolesHeld(t, s.id)| && (forall r :: r in s.roles <==> r in RolesHeld(t, s.id))
    && s.permissions == UnionPermissions(RolesHeld(t, s.id))
  }

  /** ListUsers returns the first users below the cursor in descending id, each with exactly their roles and
      permissions. */
  method ListUsers(rows: seq<JoinRow>, limit: int, ghost t: Tables, ghost before: Option<Id>)
    returns (out: seq<Summary>)
    requires IsDirectoryJoin(rows, t, before) && RolesOk(t.roles, t.nextId)
    ensures IdsOf(out) == Page(t.users.Keys, before, EffectiveLimit(limit))
    ensures forall k :: 0 <= k < |out| ==> Faithful(out[k], t)
  {
    hide IsDirectoryJoin, Page, RolesHeld, UnionPermissions, RolesOk;
    var byUser, order, done := Fold(rows, EffectiveLimit(limit), t, before);
    OrderIsPage(rows, done, t, before, byUser, order, EffectiveLimit(limit));
    out := [];
    for k := 0 to |order|
      invariant |out| == k
      invariant forall j :: 0 <= j < k ==> out[j].id == order[j] && Faithful(out[j], t)
    {
      var id := order[k];
      assert id in order;
      GatheredExactly(rows, done, t, before, byUser, order, id);
      HeldKeysDiffer(t, id);
      var roles := SortRoles(byUser[id].roles.Values);
      out := out + [Summary(id, byUser[id].user, roles, byUser[id].permissions)];
    }
    assert IdsOf(out) == order;
  }

  /** The permissions shown are those Authorize computes, except that a superuser's catalog is not shown: the two agree
      exactly when the user is no superuser or their roles happen to grant the whole catalog. */
  lemma ShownPermissions(t: Tables, s: Summary)
    requires Faithful(s, t)
    ensures s.permissions == Authorize(t, s.id, t.users[s.id].isSuperuser).permissions
            <==> !s.user.isSuperuser || UnionPermissions(RolesHeld(t, s.id)) == CATALOG
  {}
}
