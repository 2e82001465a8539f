/**
 * Listing users by keyset and by offset: a page-at-a-time walk serves exactly the sorted, filtered list,
 * and stays correct while rows come and go between its pages.
 */
module Pagination {
  import opened Common
  import opened UserEntity
  import opened KeysetOrder

  /** The rows of the table; `id` is its primary key. */
  type Table = set<UserSnapshot>

  ghost predicate PrimaryKey(t: Table) {
    forall a, b :: a in t && b in t && a.id == b.id ==> a == b
  }

  ghost predicate Ordered(s: seq<UserSnapshot>, d: Direction) {
    forall i, j :: 0 <= i < j < |s| ==> Before(d, KeyOf(s[i]), KeyOf(s[j]))
  }

  ghost predicate Lists(s: seq<UserSnapshot>, rows: Table) {
    (forall r :: r in s ==> r in rows) && (forall r :: r in rows ==> r in s)
  }

  // ----- What an ordered query returns -----

  ghost predicate IsLeast(f: UserSnapshot, rows: Table, d: Direction) {
    f in rows && forall r :: r in rows && r != f ==> Before(d, KeyOf(f), KeyOf(r))
  }

  lemma LeastOfMore(f: UserSnapshot, x: UserSnapshot, rest: Table, d: Direction)
    requires IsLeast(f, rest, d) && x !in rest && PrimaryKey(rest + {x})
    ensures IsLeast(f, rest + {x}, d) || IsLeast(x, rest + {x}, d)
  {
    assert KeyOf(x) != KeyOf(f);
    TotalOrder(d, KeyOf(x), KeyOf(f), KeyOf(x));
    hide Before;
    if Before(d, KeyOf(x), KeyOf(f)) {
      forall r | r in rest + {x} && r != x ensures Before(d, KeyOf(x), KeyOf(r)) {
        TotalOrder(d, KeyOf(x), KeyOf(f), KeyOf(r));
      }
    }
  }

  lemma LeastExists(rows: Table, d: Direction)
    requires rows != {} && PrimaryKey(rows)
    ensures exists f :: IsLeast(f, rows, d)
    decreases rows
  {
    var x :| x in rows;
    var rest := rows - {x};
    assert rows == rest + {x};
    if rest == {} {
      assert IsLeast(x, rows, d);
    } else {
      LeastExists(rest, d);
      var f :| IsLeast(f, rest, d);
      LeastOfMore(f, x, rest, d);
    }
  }

  /** `SELECT … ORDER BY created_at, id`. */
  ghost function Sorted(rows: Table, d: Direction): (s: seq<UserSnapshot>)
    requires PrimaryKey(rows)
    ensures Ordered(s, d) && Lists(s, rows)
    decreases rows
  {
    if rows == {} then []
    else
      LeastExists(rows, d);
      var f :| IsLeast(f, rows, d);
      [f] + Sorted(rows - {f}, d)
  }

  /** There is only one such list, so a query's answer is determined by its rows. */
  lemma {:induction false} OrderedListIsUnique(a: seq<UserSnapshot>, b: seq<UserSnapshot>, rows: Table, d: Direction)
    requires Ordered(a, d) && Ordered(b, d) && Lists(a, rows) && Lists(b, rows)
    ensures a == b
    decreases |a|
  {
    EmptyList(a, rows);
    EmptyList(b, rows);
    if a != [] {
      HeadsAgree(a, b, rows, d);
      TailLists(a, rows, d);
      TailLists(b, rows, d);
      OrderedListIsUnique(a[1..], b[1..], rows - {a[0]}, d);
      assert a == [a[0]] + a[1..] && b == [b[0]] + b[1..];
    }
  }

  lemma EmptyList(s: seq<UserSnapshot>, rows: Table)
    requires Lists(s, rows)
    ensures s == [] <==> rows == {}
  {
    if s != [] { assert s[0] in rows; }
  }

  lemma HeadsAgree(a: seq<UserSnapshot>, b: seq<UserSnapshot>, rows: Table, d: Direction)
    requires a != [] && b != [] && Ordered(a, d) && Ordered(b, d) && Lists(a, rows) && Lists(b, rows)
    ensures a[0] == b[0]
  {
    assert a[0] in rows && b[0] in rows;
    var i :| 0 <= i < |b| && b[i] == a[0];
    var j :| 0 <= j < |a| && a[j] == b[0];
    TotalOrder(d, KeyOf(a[0]), KeyOf(b[0]), KeyOf(a[0]));
  }

  lemma TailLists(a: seq<UserSnapshot>, rows: Table, d: Direction)
    requires a != [] && Ordered(a, d) && Lists(a, rows)
    ensures Ordered(a[1..], d) && Lists(a[1..], rows - {a[0]})
  {
    forall r | r in a[1..] ensures r in rows - {a[0]} {
      var i :| 0 <= i < |a[1..]| && a[1..][i] == r;
      assert a[i + 1] == r;
      TotalOrder(d, KeyOf(r), KeyOf(r), KeyOf(r));
    }
    forall r | r in rows - {a[0]} ensures r in a[1..] {
      var i :| 0 <= i < |a| && a[i] == r;
      assert a[1..][i - 1] == r;
    }
  }

  // ----- Keyset pages -----

  /** The seek condition: one arm for earlier or later instants, one to break ties on the instant. */
  predicate Seek(d: Direction, cursor: Key, r: UserSnapshot) {
    if d == Desc
    then r.createdAt < cursor.createdAt || (r.createdAt == cursor.createdAt && TextBefore(r.id, cursor.id))
    else r.createdAt > cursor.createdAt || (r.createdAt == cursor.createdAt && TextBefore(cursor.id, r.id))
  }

  /** The two arms together are exactly "strictly after the last row seen". */
  lemma SeekIsAfter(d: Direction, cursor: Key, r: UserSnapshot)
    ensures Seek(d, cursor, r) <==> Before(d, cursor, KeyOf(r))
  {
  }

  ghost function Remaining(t: Table, where: UserSnapshot -> bool, d: Direction, cursor: Option<Key>): (rest: Table)
    ensures PrimaryKey(t) ==> PrimaryKey(rest)
  {
    set r | r in t && where(r) && (cursor.None? || Seek(d, cursor.value, r))
  }

  datatype Page = Page(items: seq<UserSnapshot>, next: Option<Key>)

  /** `findManyByCursor`: one row more than asked for tells whether there is a next page. */
  ghost function FindPage(t: Table, where: UserSnapshot -> bool, d: Direction, cursor: Option<Key>, limit: nat): Page
    requires PrimaryKey(t)
  {
    var rows := Take(Sorted(Remaining(t, where, d, cursor), d), limit + 1);
    var hasMore := |rows| > limit;
    var items := if hasMore then rows[..limit] else rows;
    Page(items, if hasMore && items != [] then Some(KeyOf(items[|items| - 1])) else None)
  }

  /** A page is the next stretch of the list, and the cursor it hands out seeks to exactly what is left. */
  lemma PageSplitsList(t: Table, where: UserSnapshot -> bool, d: Direction, cursor: Option<Key>, limit: nat)
    requires PrimaryKey(t)
    ensures var all, p := Sorted(Remaining(t, where, d, cursor), d), FindPage(t, where, d, cursor, limit);
            && p.items == Take(all, limit)
            && (p.next.Some? <==> 0 < limit < |all|)
            && (p.next.Some? ==> p.items != [] && p.next.value == KeyOf(p.items[limit - 1])
                                 && Sorted(Remaining(t, where, d, p.next), d) == all[limit..])
  {
    hide Remaining, Sorted, Ordered, Lists, Seek, Before, PrimaryKey;
    var all, p := Sorted(Remaining(t, where, d, cursor), d), FindPage(t, where, d, cursor, limit);
    if 0 < limit < |all| {
      assert all[..limit + 1][..limit] == all[..limit];
      assert p.next == Some(KeyOf(all[limit - 1]));
      hide FindPage;
      SeekLeavesTail(t, where, d, cursor, all, limit);
      OrderedListIsUnique(Sorted(Remaining(t, where, d, p.next), d), all[limit..], Remaining(t, where, d, p.next), d);
    }
  }

  lemma SeekLeavesTail(t: Table, where: UserSnapshot -> bool, d: Direction, cursor: Option<Key>,
                       all: seq<UserSnapshot>, n: nat)
    requires 0 < n < |all| && Ordered(all, d) && Lists(all, Remaining(t, where, d, cursor))
    ensures Ordered(all[n..], d) && Lists(all[n..], Remaining(t, where, d, Some(KeyOf(all[n - 1]))))
  {
    var last := KeyOf(all[n - 1]);
    forall r | r in all[n..] ensures r in Remaining(t, where, d, Some(last)) {
      var i :| 0 <= i < |all[n..]| && all[n..][i] == r;
      assert all[n + i] == r && r in all;
      SeekIsAfter(d, last, r);
    }
    forall r | r in Remaining(t, where, d, Some(last)) ensures r in all[n..] {
      SeekIsAfter(d, last, r);
      if cursor.Some? {
        assert all[n - 1] in Remaining(t, where, d, cursor);
        TotalOrder(d, cursor.value, last, KeyOf(r));
      }
      assert r in Remaining(t, where, d, cursor);
      var i :| 0 <= i < |all| && all[i] == r;
      TotalOrder(d, last, KeyOf(r), last);
      assert i >= n;
      assert all[n..][i - n] == r;
    }
  }

  // ----- The walk over a table at rest -----

  /** Following `nextCursor` until it is null. */
  ghost function Walk(t: Table, where: UserSnapshot -> bool, d: Direction, cursor: Option<Key>,
                      limit: nat): seq<UserSnapshot>
    requires PrimaryKey(t)
    decreases |Sorted(Remaining(t, where, d, cursor), d)|
  {
    var p := FindPage(t, where, d, cursor, limit);
    PageSplitsList(t, where, d, cursor, limit);
    if p.next.None? then p.items else p.items + Walk(t, where, d, p.next, limit)
  }

  lemma {:induction false} WalkServesRemaining(t: Table, where: UserSnapshot -> bool, d: Direction,
                                               cursor: Option<Key>, limit: nat)
    requires PrimaryKey(t) && 0 < limit
    ensures Walk(t, where, d, cursor, limit) == Sorted(Remaining(t, where, d, cursor), d)
    decreases |Sorted(Remaining(t, where, d, cursor), d)|
  {
    hide FindPage, Sorted, Remaining;
    var p := FindPage(t, where, d, cursor, limit);
    PageSplitsList(t, where, d, cursor, limit);
    hide PrimaryKey, Ordered, Lists;
    if p.next.Some? { WalkServesRemaining(t, where, d, p.next, limit); }
  }

  ghost function Matching(t: Table, where: UserSnapshot -> bool): Table {
    set r | r in t && where(r)
  }

  /**
   * On a table at rest the walk terminates and its pages are the sorted, filtered list, in either
   * direction and for every page size; asking for pages of no rows serves nothing.
   */
  lemma WalkIsTheList(t: Table, where: UserSnapshot -> bool, d: Direction, limit: nat)
    requires PrimaryKey(t)
    ensures Walk(t, where, d, None, limit) == if limit == 0 then [] else Sorted(Matching(t, where), d)
  {
    assert Remaining(t, where, d, None) == Matching(t, where);
    PageSplitsList(t, where, d, None, limit);
    if limit > 0 { WalkServesRemaining(t, where, d, None, limit); }
  }

  // ----- The walk while the table changes -----

  datatype Served = Served(rows: seq<UserSnapshot>, finished: bool)

  /** One page from each state of the table in turn, until a page hands out no cursor. */
  ghost function WalkOver(ts: seq<Table>, where: UserSnapshot -> bool, d: Direction, cursor: Option<Key>,
                          limit: nat): Served
    requires forall t :: t in ts ==> PrimaryKey(t)
    decreases |ts|
  {
    if ts == [] then Served([], false)
    else
      var p := FindPage(ts[0], where, d, cursor, limit);
      if p.next.None? then Served(p.items, true)
      else
        var rest := WalkOver(ts[1..], where, d, p.next, limit);
        Served(p.items + rest.rows, rest.finished)
  }

  lemma TakeKeepsOrder(s: seq<UserSnapshot>, n: nat, d: Direction)
    requires Ordered(s, d)
    ensures Ordered(Take(s, n), d) && forall r :: r in Take(s, n) ==> r in s
  {
    hide Before;
  }

  lemma PageRows(t: Table, where: UserSnapshot -> bool, d: Direction, cursor: Option<Key>, limit: nat)
    requires PrimaryKey(t)
    ensures var p := FindPage(t, where, d, cursor, limit);
            && Ordered(p.items, d)
            && (forall r :: r in p.items ==> r in t && where(r) && (cursor.Some? ==> Before(d, cursor.value, KeyOf(r))))
            && (p.next.Some? ==> p.items != [] && p.next.value == KeyOf(p.items[|p.items| - 1]))
  {
    hide FindPage, Sorted, Before;
    var all, p := Sorted(Remaining(t, where, d, cursor), d), FindPage(t, where, d, cursor, limit);
    PageSplitsList(t, where, d, cursor, limit);
    TakeKeepsOrder(all, limit, d);
    hide Ordered, Take;
    forall r | r in p.items ensures r in t && where(r) && (cursor.Some? ==> Before(d, cursor.value, KeyOf(r))) {
      assert r in all && r in Remaining(t, where, d, cursor);
      if cursor.Some? { SeekIsAfter(d, cursor.value, r); }
    }
  }

  /** What a page does not serve lies past the cursor it hands out. */
  lemma PageRest(t: Table, where: UserSnapshot -> bool, d: Direction, cursor: Option<Key>, limit: nat, r: UserSnapshot)
    requires PrimaryKey(t) && 0 < limit && r in Remaining(t, where, d, cursor)
    ensures var p := FindPage(t, where, d, cursor, limit);
            r in p.items || (p.next.Some? && Before(d, p.next.value, KeyOf(r)))
  {
    var all, p := Sorted(Remaining(t, where, d, cursor), d), FindPage(t, where, d, cursor, limit);
    PageSplitsList(t, where, d, cursor, limit);
    hide FindPage, Sorted, Before, Remaining;
    assert r in all;
    var i :| 0 <= i < |all| && all[i] == r;
    if i < limit { assert p.items[i] == r; }
  }

  /** No row is served twice, whatever happens between the pages: the keys only ever move on. */
  lemma {:induction false} WalkMovesOn(ts: seq<Table>, where: UserSnapshot -> bool, d: Direction,
                                       cursor: Option<Key>, limit: nat)
    requires forall t :: t in ts ==> PrimaryKey(t)
    ensures var rows := WalkOver(ts, where, d, cursor, limit).rows;
            && Ordered(rows, d)
            && forall r :: r in rows ==> where(r) && (cursor.Some? ==> Before(d, cursor.value, KeyOf(r)))
    decreases |ts|
  {
    if ts != [] {
      var p := FindPage(ts[0], where, d, cursor, limit);
      PageRows(ts[0], where, d, cursor, limit);
      if p.next.Some? {
        WalkMovesOn(ts[1..], where, d, p.next, limit);
        var rest := WalkOver(ts[1..], where, d, p.next, limit);
        hide FindPage, Before;
        Joined(p.items, rest.rows, p.next.value, d);
        var last := p.items[|p.items| - 1];
        assert last in p.items;
        forall r | r in rest.rows ensures where(r) && (cursor.Some? ==> Before(d, cursor.value, KeyOf(r))) {
          if cursor.Some? { TotalOrder(d, cursor.value, p.next.value, KeyOf(r)); }
        }
      }
    }
  }

  lemma Joined(a: seq<UserSnapshot>, b: seq<UserSnapshot>, k: Key, d: Direction)
    requires Ordered(a, d) && Ordered(b, d) && a != [] && k == KeyOf(a[|a| - 1])
    requires forall r :: r in b ==> Before(d, k, KeyOf(r))
    ensures Ordered(a + b, d)
  {
    hide Before;
    forall i, j | 0 <= i < j < |a + b| ensures Before(d, KeyOf((a + b)[i]), KeyOf((a + b)[j])) {
      if i < |a| <= j {
        assert b[j - |a|] in b;
        TotalOrder(d, KeyOf(a[i]), k, KeyOf(b[j - |a|]));
      }
    }
  }

  /** A row that is there, and matches, in every state of the table the walk meets; its other columns may change. */
  ghost predicate Stays(ts: seq<Table>, where: UserSnapshot -> bool, k: Key) {
    forall t :: t in ts ==> exists r :: r in t && where(r) && KeyOf(r) == k
  }

  lemma {:induction false} WalkMissesNothing(ts: seq<Table>, where: UserSnapshot -> bool, d: Direction,
                                             cursor: Option<Key>, limit: nat, k: Key)
    requires (forall t :: t in ts ==> PrimaryKey(t)) && 0 < limit && Stays(ts, where, k)
    requires cursor.Some? ==> Before(d, cursor.value, k)
    requires WalkOver(ts, where, d, cursor, limit).finished
    ensures exists r :: r in WalkOver(ts, where, d, cursor, limit).rows && KeyOf(r) == k
    decreases |ts|
  {
    hide FindPage, Before;
    assert ts[0] in ts;
    PageMissesNothing(ts[0], where, d, cursor, limit, k);
    var p := FindPage(ts[0], where, d, cursor, limit);
    if r :| r in p.items && KeyOf(r) == k {
      assert r in WalkOver(ts, where, d, cursor, limit).rows;
    } else {
      assert Stays(ts[1..], where, k) by { StaysLater(ts, where, k); }
      WalkMissesNothing(ts[1..], where, d, p.next, limit, k);
    }
  }

  lemma StaysLater(ts: seq<Table>, where: UserSnapshot -> bool, k: Key)
    requires Stays(ts, where, k) && ts != []
    ensures Stays(ts[1..], where, k)
  {
    forall t | t in ts[1..] ensures exists r :: r in t && where(r) && KeyOf(r) == k { assert t in ts; }
  }

  lemma PageMissesNothing(t: Table, where: UserSnapshot -> bool, d: Direction, cursor: Option<Key>, limit: nat, k: Key)
    requires PrimaryKey(t) && 0 < limit && (cursor.Some? ==> Before(d, cursor.value, k))
    requires exists r :: r in t && where(r) && KeyOf(r) == k
    ensures var p := FindPage(t, where, d, cursor, limit);
            (exists r :: r in p.items && KeyOf(r) == k) || (p.next.Some? && Before(d, p.next.value, k))
  {
    hide FindPage, Before;
    var r :| r in t && where(r) && KeyOf(r) == k;
    if cursor.Some? { SeekIsAfter(d, cursor.value, r); }
    PageRest(t, where, d, cursor, limit, r);
  }

  /**
   * The keyset promise under concurrent change: whatever is inserted, deleted or edited between pages,
   * the served keys are strictly monotone, and every row that is there and matches throughout a finished
   * walk is served exactly once.
   */
  lemma WalkUnderChange(ts: seq<Table>, where: UserSnapshot -> bool, d: Direction, limit: nat, k: Key)
    requires (forall t :: t in ts ==> PrimaryKey(t)) && 0 < limit
    ensures var s := WalkOver(ts, where, d, None, limit);
            && Ordered(s.rows, d)
            && (forall i, j :: 0 <= i < j < |s.rows| ==> KeyOf(s.rows[i]) != KeyOf(s.rows[j]))
            && (s.finished && Stays(ts, where, k) ==>
                  exists i :: 0 <= i < |s.rows| && KeyOf(s.rows[i]) == k
                              && forall j :: 0 <= j < |s.rows| && KeyOf(s.rows[j]) == k ==> j == i)
  {
    var s := WalkOver(ts, where, d, None, limit);
    WalkMovesOn(ts, where, d, None, limit);
    forall i, j | 0 <= i < j < |s.rows| ensures KeyOf(s.rows[i]) != KeyOf(s.rows[j]) {
      TotalOrder(d, KeyOf(s.rows[i]), KeyOf(s.rows[j]), KeyOf(s.rows[i]));
    }
    hide WalkOver, Before, Ordered;
    if s.finished && Stays(ts, where, k) {
      WalkMissesNothing(ts, where, d, None, limit, k);
      var r :| r in s.rows && KeyOf(r) == k;
      var i :| 0 <= i < |s.rows| && s.rows[i] == r;
    }
  }

  /** Creation times never change, so no account is served twice under two keys either. */
  lemma NoAccountTwice(ts: seq<Table>, where: UserSnapshot -> bool, d: Direction, limit: nat)
    requires forall t :: t in ts ==> PrimaryKey(t)
    requires forall t, t', r, r' :: t in ts && t' in ts && r in t && r' in t' && r.id == r'.id ==>
               r.createdAt == r'.createdAt
    ensures var rows := WalkOver(ts, where, d, None, limit).rows;
            forall i, j :: 0 <= i < j < |rows| ==> rows[i].id != rows[j].id
  {
    var rows := WalkOver(ts, where, d, None, limit).rows;
    WalkMovesOn(ts, where, d, None, limit);
    ServedFromTables(ts, where, d, None, limit);
    hide WalkOver;
    forall i, j | 0 <= i < j < |rows| ensures rows[i].id != rows[j].id {
      assert rows[i] in rows && rows[j] in rows;
      var t, t' :| t in ts && rows[i] in t && t' in ts && rows[j] in t';
      TotalOrder(d, KeyOf(rows[i]), KeyOf(rows[j]), KeyOf(rows[i]));
    }
  }

  lemma {:induction false} ServedFromTables(ts: seq<Table>, where: UserSnapshot -> bool, d: Direction,
                                            cursor: Option<Key>, limit: nat)
    requires forall t :: t in ts ==> PrimaryKey(t)
    ensures forall r :: r in WalkOver(ts, where, d, cursor, limit).rows ==> exists t :: t in ts && r in t
    decreases |ts|
  {
    if ts != [] {
      var p := FindPage(ts[0], where, d, cursor, limit);
      PageRows(ts[0], where, d, cursor, limit);
      assert ts[0] in ts;
      if p.next.Some? {
        ServedFromTables(ts[1..], where, d, p.next, limit);
        assert forall t :: t in ts[1..] ==> t in ts;
      }
      hide FindPage;
    }
  }

  // ----- Numbered pages -----

  function OffsetToSkip(page: int, limit: nat): (skip: nat)
    ensures page <= 1 ==> skip == 0
    ensures 1 <= page ==> skip == (page - 1) * limit
  {
    ((if page > 1 then page else 1) - 1) * limit
  }

  /** `OFFSET skip LIMIT limit`. */
  function Window<A>(s: seq<A>, skip: nat, limit: nat): seq<A> {
    Take(if |s| <= skip then [] else s[skip..], limit)
  }

  ghost function OffsetItems(t: Table, where: UserSnapshot -> bool, d: Direction, page: int, limit: nat)
    : seq<UserSnapshot>
    requires PrimaryKey(t)
  {
    Window(Sorted(Matching(t, where), d), OffsetToSkip(page, limit), limit)
  }

  datatype PageMeta = PageMeta(totalPages: int, hasNext: bool, hasPrevious: bool)

  function FromOffset(page: int, limit: nat, total: nat): PageMeta {
    var totalPages := if limit > 0 then CeilDiv(total, limit) else 0;
    PageMeta(totalPages, page < totalPages, page > 1)
  }

  /** Pages `1 .. n`, one after another. */
  function Pages<A>(s: seq<A>, limit: nat, n: nat): seq<A> {
    if n == 0 then [] else Pages(s, limit, n - 1) + Window(s, OffsetToSkip(n, limit), limit)
  }

  lemma {:induction false} PagesAreAPrefix<A>(s: seq<A>, limit: nat, n: nat)
    ensures Pages(s, limit, n) == Take(s, n * limit)
    decreases n
  {
    if n > 0 {
      PagesAreAPrefix(s, limit, n - 1);
      var skip := (n - 1) * limit;
      assert n * limit == skip + limit;
      if skip < |s| {
        assert Take(s, skip) == s[..skip];
        if skip + limit < |s| {
          assert s[skip..][..limit] == s[skip..skip + limit];
          assert s[..skip] + s[skip..skip + limit] == s[..skip + limit];
        } else {
          assert s[..skip] + s[skip..] == s;
        }
      }
    }
  }

  /**
   * The page arithmetic is right: `totalPages` pages cover the list, the last of them is not empty, and
   * `hasNext` is true exactly when the page after this one has a row on it.
   */
  lemma PageCount<A>(s: seq<A>, page: int, limit: nat)
    requires 0 < limit && 1 <= page
    ensures var m := FromOffset(page, limit, |s|);
            && 0 <= m.totalPages && Pages(s, limit, m.totalPages) == s
            && (m.hasNext <==> Window(s, OffsetToSkip(page + 1, limit), limit) != [])
            && (m.hasPrevious <==> 0 < OffsetToSkip(page, limit))
  {
    PagesNeeded(|s|, limit, page);
    var n := CeilDiv(|s|, limit);
    PagesAreAPrefix(s, limit, n);
    assert Take(s, n * limit) == s;
    assert page * limit == OffsetToSkip(page + 1, limit);
    if page > 1 { Scales(1, page - 1, limit); }
    hide CeilDiv, Pages;
  }

  lemma PagesNeeded(total: nat, limit: nat, page: nat)
    requires 0 < limit
    ensures var n := CeilDiv(total, limit);
            0 <= n && total <= n * limit && (page < n <==> page * limit < total)
  {
    var n := CeilDiv(total, limit);
    hide CeilDiv;
    if n < 0 {
      Negative(n, limit);
    } else if page < n {
      Scales(page, n - 1, limit);
    } else {
      Scales(n, page, limit);
    }
  }

  lemma Negative(a: int, m: nat)
    requires a < 0 < m
    ensures a * m < 0
  {
  }

  lemma Scales(a: nat, b: nat, m: nat)
    requires a <= b
    ensures a * m <= b * m
  {
  }

  /** Pages `1 .. n` as a client asks for them. */
  ghost function OffsetWalk(t: Table, where: UserSnapshot -> bool, d: Direction, limit: nat, n: nat): seq<UserSnapshot>
    requires PrimaryKey(t)
  {
    if n == 0 then [] else OffsetWalk(t, where, d, limit, n - 1) + OffsetItems(t, where, d, n, limit)
  }

  lemma {:induction false} OffsetWalkIsPages(t: Table, where: UserSnapshot -> bool, d: Direction, limit: nat, n: nat)
    requires PrimaryKey(t)
    ensures OffsetWalk(t, where, d, limit, n) == Pages(Sorted(Matching(t, where), d), limit, n)
    decreases n
  {
    if n > 0 { OffsetWalkIsPages(t, where, d, limit, n - 1); }
  }

  /** Both ways of paging through a table at rest list the same rows in the same order. */
  lemma WalkIsAllPages(t: Table, where: UserSnapshot -> bool, d: Direction, limit: nat)
    requires PrimaryKey(t) && 0 < limit
    ensures var n := FromOffset(1, limit, |Sorted(Matching(t, where), d)|).totalPages;
            0 <= n && Walk(t, where, d, None, limit) == OffsetWalk(t, where, d, limit, n)
  {
    var all := Sorted(Matching(t, where), d);
    WalkIsTheList(t, where, d, limit);
    PageCount(all, 1, limit);
    OffsetWalkIsPages(t, where, d, limit, FromOffset(1, limit, |all|).totalPages);
  }
}
