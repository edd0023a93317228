/** Keyset paging by descending id: what one page holds, and what following next_before to the end collects while rows
    keep arriving. Ids are time-ordered (section 5.7 of RFC 9562), so a later row has a larger id. */
module Keyset {
  import opened Prelude

  /** What both queries make of the limit they are given. */
  function EffectiveLimit(limit: int): nat {
    if limit <= 0 || limit > 200 then 50 else limit
  }

  function Below(ids: set<Id>, before: Option<Id>): set<Id> {
    set x | x in ids && (before.Some? ==> x < before.value)
  }

  predicate Descending(s: seq<Id>) {
    forall i, j :: 0 <= i < j < |s| ==> s[i] > s[j]
  }

  lemma DescendingAppend(s: seq<Id>, t: seq<Id>)
    requires Descending(s) && Descending(t) && forall x, y :: x in s && y in t ==> x > y
    ensures Descending(s + t)
  {
    forall i, j | 0 <= i < j < |s + t| ensures (s + t)[i] > (s + t)[j] {
      if i < |s| <= j {
        assert s[i] in s && t[j - |s|] in t;
      }
    }
  }

  predicate IsNewest(x: Id, ids: set<Id>) {
    x in ids && forall y :: y in ids ==> y <= x
  }

  lemma {:induction false} NewestExists(ids: set<Id>)
    requires ids != {}
    ensures exists x :: IsNewest(x, ids)
    decreases |ids|
  {
    var z :| z in ids;
    var rest := ids - {z};
    assert forall y :: y in ids ==> y == z || y in rest;
    if rest == {} {
      assert IsNewest(z, ids);
    } else {
      NewestExists(rest);
      var x :| IsNewest(x, rest);
      assert IsNewest(if z > x then z else x, ids);
    }
  }

  ghost function Newest(ids: set<Id>): (x: Id)
    requires ids != {}
    ensures x in ids && forall y :: y in ids ==> y <= x
  {
    NewestExists(ids);
    var x :| IsNewest(x, ids);
    x
  }

  /** ORDER BY id DESC. */
  method SortDescending(ids: set<Id>) returns (order: seq<Id>)
    ensures Descending(order) && forall x :: x in order <==> x in ids
  {
    order := [];
    var rest := ids;
    while rest != {}
      invariant rest <= ids && Descending(order)
      invariant forall x :: x in order <==> x in ids - rest
      invariant forall x, y :: x in order && y in rest ==> x > y
      decreases rest
    {
      NewestExists(rest);
      var x :| x in rest && IsNewest(x, rest);
      DescendingAppend(order, [x]);
      order, rest := order + [x], rest - {x};
    }
  }

  /** WHERE id < before ORDER BY id DESC LIMIT n. */
  ghost function Page(ids: set<Id>, before: Option<Id>, n: nat): seq<Id>
    decreases n
  {
    if n == 0 || Below(ids, before) == {} then []
    else [Newest(Below(ids, before))] + Page(ids, Some(Newest(Below(ids, before))), n - 1)
  }

  /** `s` lists the newest rows below the cursor, all of them unless it is full. */
  ghost predicate IsPage(s: seq<Id>, ids: set<Id>, before: Option<Id>, n: nat) {
    && Descending(s) && |s| <= n
    && (forall x :: x in s ==> x in Below(ids, before))
    && (forall x :: x in Below(ids, before) && x !in s ==> |s| == n && forall y :: y in s ==> x < y)
  }

  lemma {:induction false} PageIsPage(ids: set<Id>, before: Option<Id>, n: nat)
    ensures IsPage(Page(ids, before, n), ids, before, n)
    decreases n
  {
    if n > 0 && Below(ids, before) != {} {
      var top := Newest(Below(ids, before));
      PageIsPage(ids, Some(top), n - 1);
      var rest := Page(ids, Some(top), n - 1);
      assert forall x :: x in rest ==> x in Below(ids, Some(top));
      assert forall x :: x in Below(ids, before) && x != top ==> x in Below(ids, Some(top));
      DescendingAppend([top], rest);
    }
  }

  lemma FirstIsNewest(s: seq<Id>, ids: set<Id>, before: Option<Id>, n: nat)
    requires IsPage(s, ids, before, n) && s != []
    ensures s[0] in Below(ids, before) && forall x :: x in Below(ids, before) ==> x <= s[0]
  {
    assert s[0] in s;
    forall x | x in Below(ids, before) ensures x <= s[0] {
      if x in s {
        var j :| 0 <= j < |s| && s[j] == x;
      }
    }
  }

  lemma RestIsPage(s: seq<Id>, ids: set<Id>, before: Option<Id>, n: nat)
    requires IsPage(s, ids, before, n) && s != []
    ensures IsPage(s[1..], ids, Some(s[0]), n - 1)
  {
    assert forall x :: x in s[1..] ==> x in s;
    forall x | x in Below(ids, Some(s[0])) && x !in s[1..]
      ensures |s[1..]| == n - 1 && forall y :: y in s[1..] ==> x < y
    {
      FirstIsNewest(s, ids, before, n);
      assert s == [s[0]] + s[1..];
      assert x in Below(ids, before) && x !in s;
    }
  }

  lemma NoRowsToList(ids: set<Id>, before: Option<Id>, n: nat)
    requires IsPage([], ids, before, n)
    ensures Page(ids, before, n) == []
  {
    assert n == 0 || forall x :: x !in Below(ids, before);
  }

  lemma PageHasRows(s: seq<Id>, ids: set<Id>, before: Option<Id>, n: nat)
    requires IsPage(s, ids, before, n) && s != []
    ensures n > 0
  {}

  /** There is only one such list. */
  lemma {:induction false} PageIsUnique(s: seq<Id>, ids: set<Id>, before: Option<Id>, n: nat)
    requires IsPage(s, ids, before, n)
    ensures s == Page(ids, before, n)
    decreases n
  {
    hide IsPage, Below;
    if s == [] {
      NoRowsToList(ids, before, n);
    } else {
      PageHasRows(s, ids, before, n);
      FirstIsNewest(s, ids, before, n);
      RestIsPage(s, ids, before, n);
      PageIsUnique(s[1..], ids, Some(s[0]), n - 1);
      assert s == [s[0]] + s[1..];
    }
  }

  // ---------------------------------------------------------------- following the cursor

  /** next_before: the last id of a page that came back full, else nothing. */
  function NextBefore(page: seq<Id>, size: int): Option<Id>
    requires size >= 1
  {
    if |page| == size then Some(page[|page| - 1]) else None
  }

  /** Everything a reader collects by following the cursor until it is empty, page `i` read from `tables(i)`. It ends,
      because the cursor moves strictly down. */
  ghost function Walk(tables: nat -> set<Id>, i: nat, before: Option<Id>, size: int): seq<Id>
    requires size >= 1
    decreases if before.None? then 1 else 0, if before.None? then 0 else before.value
  {
    var page := Page(tables(i), before, EffectiveLimit(size));
    PageIsPage(tables(i), before, EffectiveLimit(size));
    var next := NextBefore(page, size);
    if next.None? then page
    else
      assert next.value in page;
      page + Walk(tables, i + 1, next, size)
  }

  /** Rows present at the start stay, and every row that arrives gets a larger id. */
  ghost predicate GrowsAbove(tables: nat -> set<Id>) {
    && (forall i: nat :: tables(0) <= tables(i))
    && (forall i: nat, x, y :: x in tables(i) && x !in tables(0) && y in tables(0) ==> y < x)
  }

  lemma SameBelow(tables: nat -> set<Id>, i: nat, before: Option<Id>)
    requires GrowsAbove(tables) && (before.None? ==> i == 0) && (before.Some? ==> before.value in tables(0))
    ensures Below(tables(i), before) == Below(tables(0), before)
  {
    assert tables(0) <= tables(i);
  }

  lemma {:induction false} SamePage(a: set<Id>, b: set<Id>, before: Option<Id>, n: nat)
    requires Below(a, before) == Below(b, before)
    ensures Page(a, before, n) == Page(b, before, n)
    decreases n
  {
    if n > 0 && Below(a, before) != {} {
      var top := Newest(Below(a, before));
      assert forall x :: x in Below(a, Some(top)) <==> x in Below(a, before) && x < top;
      assert forall x :: x in Below(b, Some(top)) <==> x in Below(b, before) && x < top;
      SamePage(a, b, Some(top), n - 1);
    }
  }

  lemma {:induction false} WalkFrom(tables: nat -> set<Id>, i: nat, before: Option<Id>, size: int)
    requires 1 <= size <= 200 && GrowsAbove(tables)
    requires (before.None? ==> i == 0) && (before.Some? ==> before.value in tables(0))
    ensures var w := Walk(tables, i, before, size);
            Descending(w) && forall x :: x in w <==> x in Below(tables(0), before)
    decreases if before.None? then 1 else 0, if before.None? then 0 else before.value
  {
    hide Page;
    SameBelow(tables, i, before);
    SamePage(tables(i), tables(0), before, size);
    PageIsPage(tables(0), before, size);
    var page := Page(tables(0), before, size);
    if |page| == size {
      var last := page[size - 1];
      assert last in page;
      WalkFrom(tables, i + 1, Some(last), size);
      FullPageAndRest(page, Walk(tables, i + 1, Some(last), size), tables(0), before, size);
    }
  }

  /** A full page followed by everything below its last row is everything below the page's own cursor. */
  lemma FullPageAndRest(page: seq<Id>, rest: seq<Id>, ids: set<Id>, before: Option<Id>, n: nat)
    requires n > 0 && IsPage(page, ids, before, n) && |page| == n
    requires Descending(rest) && forall x :: x in rest <==> x in Below(ids, Some(page[n - 1]))
    ensures Descending(page + rest) && forall x :: x in page + rest <==> x in Below(ids, before)
  {
    var last := page[n - 1];
    assert last in page;
    forall x | x in page ensures x >= last {
      var i :| 0 <= i < n && page[i] == x;
    }
    DescendingAppend(page, rest);
  }

  /** Following the cursor collects exactly the rows present at the start, each once, newest first, even while rows keep
      arriving between the pages. */
  lemma WalkCollectsTheStart(tables: nat -> set<Id>, size: int)
    requires 1 <= size <= 200 && GrowsAbove(tables)
    ensures var w := Walk(tables, 0, None, size); Descending(w) && forall x :: x in w <==> x in tables(0)
  {
    WalkFrom(tables, 0, None, size);
  }

  lemma {:induction false} SizeOfMembers(ids: set<Id>, s: seq<Id>)
    requires forall x :: x in ids ==> x in s
    ensures |ids| <= |s|
    decreases |s|
  {
    if s != [] {
      SizeOfMembers(ids - {s[0]}, s[1..]);
      assert s == [s[0]] + s[1..];
    } else {
      assert ids == {};
    }
  }

  lemma {:induction false} DistinctMembers(ids: set<Id>, s: seq<Id>)
    requires Descending(s) && forall x :: x in s ==> x in ids
    ensures |s| <= |ids|
    decreases |s|
  {
    if s != [] {
      assert s[0] in s;
      forall x | x in s[1..] ensures x in ids - {s[0]} {
        assert x in s;
      }
      DistinctMembers(ids - {s[0]}, s[1..]);
    }
  }

  /** The cursor rule compares with the size asked for, the query with the one it settles on: beyond 200 that is 50, the
      page never looks full, and the walk ends after it. So the walk is complete exactly for sizes up to 200 and for
      tables that fit on the one page. */
  lemma WalkCompleteExactly(tables: nat -> set<Id>, size: int)
    requires size >= 1 && GrowsAbove(tables)
    ensures var w := Walk(tables, 0, None, size);
            (Descending(w) && forall x :: x in w <==> x in tables(0)) <==> size <= 200 || |tables(0)| <= 50
  {
    if size <= 200 {
      WalkFrom(tables, 0, None, size);
    } else {
      var page := Page(tables(0), None, 50);
      PageIsPage(tables(0), None, 50);
      if forall x :: x in tables(0) ==> x in page {
        SizeOfMembers(tables(0), page);
      } else {
        var x :| x in tables(0) && x !in page;
        assert x in Below(tables(0), None);
        DistinctMembers(tables(0) - {x}, page);
      }
    }
  }

  // ---------------------------------------------------------------- the filtered audit log

  datatype LogRow = LogRow(actor: Option<Id>, action: string, createdAt: Time)

  datatype Filter = Filter(action: Option<string>, actor: Option<Id>, since: Option<Time>, until: Option<Time>)

  predicate Matches(row: LogRow, f: Filter) {
    && (f.action.Some? ==> row.action == f.action.value)
    && (f.actor.Some? ==> row.actor == f.actor)
    && (f.since.Some? ==> row.createdAt >= f.since.value)
    && (f.until.Some? ==> row.createdAt <= f.until.value)
  }

  function Matching(log: map<Id, LogRow>, f: Filter): set<Id> {
    set x | x in log && Matches(log[x], f)
  }

  /** The log only grows, its rows never change, and later rows have larger ids. */
  ghost predicate AppendOnly(logs: nat -> map<Id, LogRow>) {
    && (forall i: nat, x :: x in logs(0) ==> x in logs(i) && logs(i)[x] == logs(0)[x])
    && (forall i: nat, x, y :: x in logs(i) && x !in logs(0) && y in logs(0) ==> y < x)
  }

  /** Paging through the filtered log collects exactly the matching entries of the start, each once, newest first. */
  lemma AuditWalkCollectsTheStart(logs: nat -> map<Id, LogRow>, f: Filter, size: int)
    requires 1 <= size <= 200 && AppendOnly(logs)
    ensures var w := Walk(i => Matching(logs(i), f), 0, None, size);
            Descending(w) && forall x :: x in w <==>
              && x in logs(0)
              && (f.action == None || logs(0)[x].action == f.action.value)
              && (f.actor == None || logs(0)[x].actor == f.actor)
              && (f.since == None || logs(0)[x].createdAt >= f.since.value)
              && (f.until == None || logs(0)[x].createdAt <= f.until.value)
  {
    var tables := (i: nat) => Matching(logs(i), f);
    WalkCollectsTheStart(tables, size);
  }
}
