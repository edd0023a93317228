/** Folding the rows of a LEFT JOIN back into parents with their permission sets. collectRoles, collectInvitations and
    collectAPIKeys are this one loop over different parent columns. */
module JoinFolds {
  import opened Prelude
  import opened Permissions
  import opened Tables

  /** One row of the join: the parent's columns, and one permission or NULL. */
  datatype Row<H> = Row(id: Id, head: H, perm: Option<Permission>)

  datatype Parent<H> = Parent(id: Id, head: H, permissions: set<Permission>)

  // ---------------------------------------------------------------- what a prefix of the rows says

  /** The parents' ids in order of first appearance. */
  function FirstSeen<H>(rows: seq<Row<H>>): (ids: seq<Id>)
    decreases |rows|
  {
    if rows == [] then []
    else
      var before := FirstSeen(rows[..|rows| - 1]);
      if rows[|rows| - 1].id in before then before else before + [rows[|rows| - 1].id]
  }

  function Granted<H>(rows: seq<Row<H>>, id: Id): set<Permission> {
    set i | 0 <= i < |rows| && rows[i].id == id && rows[i].perm.Some? :: rows[i].perm.value
  }

  ghost predicate NoRepeats<T(!new)>(s: seq<T>) {
    forall i, j :: 0 <= i < j < |s| ==> s[i] != s[j]
  }

  lemma {:induction false} FirstSeenFacts<H>(rows: seq<Row<H>>)
    ensures NoRepeats(FirstSeen(rows))
    ensures forall i :: 0 <= i < |rows| ==> rows[i].id in FirstSeen(rows)
    ensures forall id :: id in FirstSeen(rows) ==> exists i :: 0 <= i < |rows| && rows[i].id == id
    decreases |rows|
  {
    if rows != [] {
      var n := |rows| - 1;
      FirstSeenFacts(rows[..n]);
      forall i | 0 <= i < |rows| ensures rows[i].id in FirstSeen(rows) {
        if i < n {
          assert rows[..n][i] == rows[i];
        }
      }
      forall id | id in FirstSeen(rows) ensures exists i :: 0 <= i < |rows| && rows[i].id == id {
        if id in FirstSeen(rows[..n]) {
          var i :| 0 <= i < n && rows[..n][i].id == id;
          assert rows[i].id == id;
        } else {
          assert rows[n].id == id;
        }
      }
    }
  }

  // ---------------------------------------------------------------- the fold

  /** Keeps a map from id to parent and the order in which ids were first seen. */
  method Collect<H>(rows: seq<Row<H>>) returns (out: seq<Parent<H>>)
    ensures |out| == |FirstSeen(rows)|
    ensures forall k :: 0 <= k < |out| ==>
              && out[k].id == FirstSeen(rows)[k]
              && out[k].permissions == Granted(rows, out[k].id)
              && exists i :: 0 <= i < |rows| && rows[i].id == out[k].id && rows[i].head == out[k].head
  {
    var byId: map<Id, Parent<H>> := map[];
    var order := [];
    for n := 0 to |rows|
      invariant order == FirstSeen(rows[..n])
      invariant forall id :: id in order <==> id in byId
      invariant forall id :: id in byId ==>
                  byId[id].id == id && byId[id].permissions == Granted(rows[..n], id) && HeadFrom(rows, n, byId[id])
    {
      var row := rows[n];
      assert rows[..n + 1][..n] == rows[..n] && rows[..n + 1][n] == row;
      GrantedGrows(rows, n);
      if row.id !in byId {
        FirstSeenFacts(rows[..n]);
        NothingGranted(rows[..n], row.id);
        byId := byId[row.id := Parent(row.id, row.head, {})];
        order := order + [row.id];
        assert HeadFrom(rows, n + 1, byId[row.id]);
      }
      if row.perm.Some? {
        var parent := byId[row.id];
        byId := byId[row.id := parent.(permissions := parent.permissions + {row.perm.value})];
      }
    }
    assert rows[..|rows|] == rows;
    out := [];
    for k := 0 to |order|
      invariant |out| == k
      invariant forall j :: 0 <= j < k ==> order[j] in byId && out[j] == byId[order[j]]
    {
      assert order[k] in order;
      out := out + [byId[order[k]]];
    }
    forall k | 0 <= k < |out|
      ensures exists i :: 0 <= i < |rows| && rows[i].id == out[k].id && rows[i].head == out[k].head
    {
      assert HeadFrom(rows, |rows|, byId[order[k]]);
    }
  }

  ghost predicate HeadFrom<H>(rows: seq<Row<H>>, n: nat, parent: Parent<H>) {
    exists i :: 0 <= i < n && i < |rows| && rows[i].id == parent.id && rows[i].head == parent.head
  }

  lemma GrantedGrows<H>(rows: seq<Row<H>>, n: nat)
    requires n < |rows|
    ensures forall id ::
      Granted(rows[..n + 1], id)
      == Granted(rows[..n], id) + if rows[n].id == id && rows[n].perm.Some? then {rows[n].perm.value} else {}
  {
    forall id
      ensures Granted(rows[..n + 1], id)
              == Granted(rows[..n], id) + if rows[n].id == id && rows[n].perm.Some? then {rows[n].perm.value} else {}
    {
      forall p | p in Granted(rows[..n], id) ensures p in Granted(rows[..n + 1], id) {
        var i :| 0 <= i < n && rows[..n][i].id == id && rows[..n][i].perm == Some(p);
        assert rows[..n + 1][i] == rows[..n][i];
      }
      forall p | p in Granted(rows[..n + 1], id) && !(rows[n].id == id && rows[n].perm == Some(p))
        ensures p in Granted(rows[..n], id)
      {
        var i :| 0 <= i < n + 1 && rows[..n + 1][i].id == id && rows[..n + 1][i].perm == Some(p);
        assert rows[..n][i] == rows[..n + 1][i];
      }
      if rows[n].id == id && rows[n].perm.Some? {
        assert rows[..n + 1][n] == rows[n];
      }
    }
  }

  lemma NothingGranted<H>(rows: seq<Row<H>>, id: Id)
    requires forall i :: 0 <= i < |rows| ==> rows[i].id != id
    ensures Granted(rows, id) == {}
  {}

  // ---------------------------------------------------------------- the fold inverts the join

  /** `rows` is a LEFT JOIN of these parents with their permissions, in any order: one row per permission, and one row
      with NULL for a parent that has none. */
  ghost predicate IsJoin<H>(rows: seq<Row<H>>, heads: map<Id, H>, grants: set<(Id, Permission)>) {
    && (forall i :: 0 <= i < |rows| ==>
          && rows[i].id in heads && rows[i].head == heads[rows[i].id]
          && (rows[i].perm.Some? ==> (rows[i].id, rows[i].perm.value) in grants)
          && (rows[i].perm.None? ==> PermissionsOf(grants, rows[i].id) == {}))
    && (forall id :: id in heads && PermissionsOf(grants, id) == {} ==> HasRow(rows, id, None))
    && (forall id, p :: id in heads && (id, p) in grants ==> HasRow(rows, id, Some(p)))
  }

  ghost predicate HasRow<H>(rows: seq<Row<H>>, id: Id, perm: Option<Permission>) {
    exists i :: 0 <= i < |rows| && rows[i].id == id && rows[i].perm == perm
  }

  lemma EveryParentHasARow<H>(rows: seq<Row<H>>, heads: map<Id, H>, grants: set<(Id, Permission)>, id: Id)
    requires IsJoin(rows, heads, grants)
    ensures id in heads <==> id in FirstSeen(rows)
  {
    FirstSeenFacts(rows);
    if id in heads {
      if PermissionsOf(grants, id) == {} {
        assert HasRow(rows, id, None);
      } else {
        var p :| p in PermissionsOf(grants, id);
        assert HasRow(rows, id, Some(p));
      }
    }
  }

  lemma GrantedIsExact<H>(rows: seq<Row<H>>, heads: map<Id, H>, grants: set<(Id, Permission)>, id: Id)
    requires IsJoin(rows, heads, grants) && id in heads
    ensures Granted(rows, id) == PermissionsOf(grants, id)
  {
    forall p | (id, p) in grants ensures p in Granted(rows, id) {
      assert HasRow(rows, id, Some(p));
    }
  }

  /** Whatever the order of the rows, the fold returns every parent once, in order of first appearance, with its own
      columns and exactly its permissions, empty sets included. */
  method CollectJoin<H>(rows: seq<Row<H>>, ghost heads: map<Id, H>, ghost grants: set<(Id, Permission)>)
    returns (out: seq<Parent<H>>)
    requires IsJoin(rows, heads, grants)
    ensures |out| == |heads| == |FirstSeen(rows)|
    ensures NoRepeats(seq(|out|, k requires 0 <= k < |out| => out[k].id))
    ensures forall k :: 0 <= k < |out| ==> out[k].id in heads && out[k].id == FirstSeen(rows)[k]
    ensures forall k :: 0 <= k < |out| ==>
              out[k].head == heads[out[k].id] && out[k].permissions == PermissionsOf(grants, out[k].id)
    ensures forall id :: id in heads ==> exists k :: 0 <= k < |out| && out[k].id == id
  {
    out := Collect(rows);
    FirstSeenFacts(rows);
    forall id ensures id in heads <==> id in FirstSeen(rows) {
      EveryParentHasARow(rows, heads, grants, id);
    }
    forall k | 0 <= k < |out| ensures out[k].permissions == PermissionsOf(grants, out[k].id) {
      GrantedIsExact(rows, heads, grants, out[k].id);
    }
    CountDistinct(FirstSeen(rows), heads.Keys);
    assert |heads| == |heads.Keys|;
  }

  lemma {:induction false} CountDistinct(s: seq<Id>, ids: set<Id>)
    requires NoRepeats(s) && forall id :: id in s <==> id in ids
    ensures |s| == |ids|
    decreases |s|
  {
    if s == [] {
      assert ids == {};
    } else {
      var x := s[|s| - 1];
      var init := s[..|s| - 1];
      assert s == init + [x];
      CountDistinct(init, ids - {x});
    }
  }

  // ---------------------------------------------------------------- the database's side

  /** The rows of the LEFT JOIN, in whatever order the database picks. */
  method LeftJoin<H>(heads: map<Id, H>, grants: set<(Id, Permission)>) returns (rows: seq<Row<H>>)
    ensures IsJoin(rows, heads, grants)
  {
    rows := [];
    var rest := heads.Keys;
    ghost var done: map<Id, H> := map[];
    while rest != {}
      invariant rest <= heads.Keys && done == heads - rest
      invariant IsJoin(rows, done, grants)
      decreases rest
    {
      var id :| id in rest;
      var more := RowsOf(id, heads[id], grants);
      JoinGrows(rows, done, more, id, heads[id], grants);
      rows, rest := rows + more, rest - {id};
      done := done[id := heads[id]];
    }
    assert done == heads;
  }

  /** The rows of one parent. */
  method RowsOf<H>(id: Id, head: H, grants: set<(Id, Permission)>) returns (rows: seq<Row<H>>)
    ensures IsJoin(rows, map[id := head], grants)
  {
    var perms := PermissionsOf(grants, id);
    if perms == {} {
      rows := [Row(id, head, None)];
      assert rows[0].perm == None;
      return;
    }
    rows := [];
    var rest := perms;
    while rest != {}
      invariant rest <= perms
      invariant forall i :: 0 <= i < |rows| ==>
                  rows[i].id == id && rows[i].head == head && rows[i].perm.Some? && rows[i].perm.value in perms
      invariant forall p :: p in perms - rest ==> HasRow(rows, id, Some(p))
      decreases rest
    {
      var p :| p in rest;
      RowAdded(rows, Row(id, head, Some(p)));
      rows, rest := rows + [Row(id, head, Some(p))], rest - {p};
    }
  }

  lemma RowAdded<H>(rows: seq<Row<H>>, row: Row<H>)
    ensures HasRow(rows + [row], row.id, row.perm)
    ensures forall id, perm :: HasRow(rows, id, perm) ==> HasRow(rows + [row], id, perm)
  {
    assert (rows + [row])[|rows|] == row;
    forall id, perm | HasRow(rows, id, perm) ensures HasRow(rows + [row], id, perm) {
      var i :| 0 <= i < |rows| && rows[i].id == id && rows[i].perm == perm;
      assert (rows + [row])[i] == rows[i];
    }
  }

  lemma JoinGrows<H>(rows: seq<Row<H>>, heads: map<Id, H>, more: seq<Row<H>>, id: Id, head: H,
                     grants: set<(Id, Permission)>)
    requires IsJoin(rows, heads, grants) && IsJoin(more, map[id := head], grants) && id !in heads
    ensures IsJoin(rows + more, heads[id := head], grants)
  {
    forall x, perm | HasRow(rows, x, perm) ensures HasRow(rows + more, x, perm) {
      var i :| 0 <= i < |rows| && rows[i].id == x && rows[i].perm == perm;
      assert (rows + more)[i] == rows[i];
    }
    forall x, perm | HasRow(more, x, perm) ensures HasRow(rows + more, x, perm) {
      var i :| 0 <= i < |more| && more[i].id == x && more[i].perm == perm;
      assert (rows + more)[|rows| + i] == more[i];
    }
  }

  // ---------------------------------------------------------------- roles

  /** The columns of the roles with these ids. */
  function RoleHeads(roles: map<Id, Role>, ids: set<Id>): map<Id, Role> {
    map id | id in roles && id in ids :: roles[id]
  }

  function ViewOfParent(p: Parent<Role>): RoleView {
    RoleView(p.id, p.head.key, p.head.name, p.head.isSystem, p.permissions)
  }

  /** One entry per role of the table with one of these ids. */
  ghost predicate ListsRoles(views: seq<RoleView>, t: Tables, ids: set<Id>) {
    |views| == |ids * t.roles.Keys| && forall v :: v in views <==> v in RolesWithIds(t, ids)
  }

  lemma ParentsAreRoles(t: Tables, ids: set<Id>, parents: seq<Parent<Role>>, views: seq<RoleView>)
    requires |views| == |parents| == |RoleHeads(t.roles, ids)|
    requires forall k :: 0 <= k < |parents| ==>
               && parents[k].id in RoleHeads(t.roles, ids) && parents[k].head == t.roles[parents[k].id]
               && parents[k].permissions == PermissionsOf(t.rolePermissions, parents[k].id)
               && views[k] == ViewOfParent(parents[k])
    requires forall id :: id in RoleHeads(t.roles, ids) ==> exists k :: 0 <= k < |parents| && parents[k].id == id
    ensures ListsRoles(views, t, ids)
  {
    hide PermissionsOf;
    forall id | id in ids && id in t.roles ensures RoleAt(t, id) in views {
      assert id in RoleHeads(t.roles, ids);
      var k :| 0 <= k < |parents| && parents[k].id == id;
      assert views[k] == RoleAt(t, id);
    }
    assert RoleHeads(t.roles, ids).Keys == ids * t.roles.Keys;
    assert |RoleHeads(t.roles, ids)| == |RoleHeads(t.roles, ids).Keys|;
  }

  /** The join of the roles with these ids, folded: each that exists, once. */
  method QueryRoles(t: Tables, ids: set<Id>) returns (views: seq<RoleView>)
    ensures ListsRoles(views, t, ids)
  {
    hide ListsRoles, PermissionsOf, IsJoin;
    var heads := RoleHeads(t.roles, ids);
    var rows := LeftJoin(heads, t.rolePermissions);
    var parents := CollectJoin(rows, heads, t.rolePermissions);
    views := [];
    for k := 0 to |parents|
      invariant |views| == k && forall i :: 0 <= i < k ==> views[i] == ViewOfParent(parents[i])
    {
      views := views + [ViewOfParent(parents[k])];
    }
    ParentsAreRoles(t, ids, parents, views);
  }
}
