/** The visible-list projection behind the presenter's `points` getter:
    the points of the points model, filtered by the active filter kind and
    then sorted with the comparator of the active sort kind. The filter
    predicates and the three comparators are collaborators whose bodies are
    not part of this model; they are parameters (`Engines`). */
module Projection {

  type PointId = string

  /** A trip point. The presenter itself only reads `id`; the other fields
      are what the filter predicates and comparators look at. */
  datatype Point = Point(id: PointId, dateFrom: int, dateTo: int, basePrice: int, destination: string)

  datatype FilterKind = Everything | Future | Present | Past

  /** The sort kinds the projection knows, and `Other` for any value of the
      sort control it does not recognise. */
  datatype SortKind = Day | Time | Price | Other(name: string)

  /** A JavaScript comparator: negative, zero or positive. */
  type Comparator = (Point, Point) -> int

  /** The collaborators: `filter[kind]` as a per-kind predicate applied with
      `Array.prototype.filter`, and `sortDateFrom`, `sortTime`, `sortPrice`. */
  datatype Engines = Engines(keep: (FilterKind, Point) -> bool, byDay: Comparator, byTime: Comparator, byPrice: Comparator)

  /** `filter[kind](points)`: the points the predicate keeps, in their order. */
  function FilterBy(s: seq<Point>, kind: FilterKind, keep: (FilterKind, Point) -> bool): seq<Point> {
    if s == [] then []
    else (if keep(kind, s[0]) then [s[0]] else []) + FilterBy(s[1..], kind, keep)
  }

  /** The filter keeps exactly the points the predicate accepts, each as
      often as it occurs, and never lengthens the sequence. */
  lemma {:induction false} FilterByContents(s: seq<Point>, kind: FilterKind, keep: (FilterKind, Point) -> bool)
    ensures |FilterBy(s, kind, keep)| <= |s|
    ensures forall x :: x in FilterBy(s, kind, keep) <==> x in s && keep(kind, x)
    ensures multiset(FilterBy(s, kind, keep)) <= multiset(s)
  {
    if s != [] {
      var head, rest := (if keep(kind, s[0]) then [s[0]] else []), s[1..];
      FilterByContents(rest, kind, keep);
      assert s == [s[0]] + rest;
      assert FilterBy(s, kind, keep) == head + FilterBy(rest, kind, keep);
      assert multiset(FilterBy(s, kind, keep)) == multiset(head) + multiset(FilterBy(rest, kind, keep));
    }
  }

  /** The comparator is one a sort can rely on: the sign of `cmp(a, b)` is
      the opposite of that of `cmp(b, a)`, and "not after" is transitive. */
  ghost predicate Consistent(cmp: Comparator) {
    && (forall a, b :: cmp(a, b) < 0 <==> cmp(b, a) > 0)
    && (forall a, b, c :: cmp(a, b) <= 0 && cmp(b, c) <= 0 ==> cmp(a, c) <= 0)
  }

  predicate Sorted(s: seq<Point>, cmp: Comparator) {
    forall i, j :: 0 <= i < j < |s| ==> cmp(s[i], s[j]) <= 0
  }

  /** Places `x` before the first element it compares strictly below, so
      that it lands after every element it ties with. */
  function Insert(x: Point, s: seq<Point>, cmp: Comparator): seq<Point> {
    if s == [] then [x]
    else if cmp(x, s[0]) < 0 then [x] + s
    else [s[0]] + Insert(x, s[1..], cmp)
  }

  /** Insertion adds `x` and loses nothing. */
  lemma {:induction false} InsertPermutes(x: Point, s: seq<Point>, cmp: Comparator)
    ensures multiset(Insert(x, s, cmp)) == multiset(s) + multiset{x}
  {
    if s != [] && cmp(x, s[0]) >= 0 {
      InsertPermutes(x, s[1..], cmp);
      assert s == [s[0]] + s[1..];
    }
  }

  /** `Array.prototype.sort(cmp)`, which is stable: a left-to-right
      insertion sort. */
  function SortBy(s: seq<Point>, cmp: Comparator): seq<Point> {
    if s == [] then []
    else Insert(s[|s| - 1], SortBy(s[..|s| - 1], cmp), cmp)
  }

  /** The sort is a permutation of its input. */
  lemma {:induction false} SortByPermutes(s: seq<Point>, cmp: Comparator)
    ensures multiset(SortBy(s, cmp)) == multiset(s)
  {
    if s != [] {
      SortByPermutes(s[..|s| - 1], cmp);
      InsertPermutes(s[|s| - 1], SortBy(s[..|s| - 1], cmp), cmp);
      assert s == s[..|s| - 1] + [s[|s| - 1]];
    }
  }

  /** The comparator a recognised sort kind selects. */
  function ComparatorOf(sort: SortKind, eng: Engines): Comparator
    requires !sort.Other?
  {
    match sort
    case Day => eng.byDay
    case Time => eng.byTime
    case Price => eng.byPrice
  }

  /** What the `points` getter returns: filter, then sort by the current
      kind, and the filtered sequence unsorted for an unrecognised kind. */
  function Project(points: seq<Point>, filter: FilterKind, sort: SortKind, eng: Engines): seq<Point> {
    var filtered := FilterBy(points, filter, eng.keep);
    match sort
    case Other(_) => filtered
    case _ => SortBy(filtered, ComparatorOf(sort, eng))
  }

  lemma SortedCons(h: Point, t: seq<Point>, cmp: Comparator)
    requires Sorted(t, cmp)
    requires forall j :: 0 <= j < |t| ==> cmp(h, t[j]) <= 0
    ensures Sorted([h] + t, cmp)
  {
    var s := [h] + t;
    forall i, j | 0 <= i < j < |s| ensures cmp(s[i], s[j]) <= 0 {
      if i > 0 { assert s[i] == t[i - 1] && s[j] == t[j - 1]; }
    }
  }

  /** Inserting into a sorted sequence keeps it sorted. */
  lemma {:induction false} InsertSorted(x: Point, s: seq<Point>, cmp: Comparator)
    requires Consistent(cmp) && Sorted(s, cmp)
    ensures Sorted(Insert(x, s, cmp), cmp)
  {
    if s == [] {
    } else if cmp(x, s[0]) < 0 {
      forall j | 0 <= j < |s| ensures cmp(x, s[j]) <= 0 {
        if j > 0 { assert cmp(s[0], s[j]) <= 0; }
      }
      SortedCons(x, s, cmp);
    } else {
      var tail := Insert(x, s[1..], cmp);
      InsertSorted(x, s[1..], cmp);
      InsertPermutes(x, s[1..], cmp);
      assert cmp(s[0], x) <= 0;
      forall j | 0 <= j < |tail| ensures cmp(s[0], tail[j]) <= 0 {
        assert tail[j] in multiset(tail);
        if tail[j] != x {
          assert tail[j] in multiset(s[1..]);
          var k :| 0 <= k < |s[1..]| && s[1..][k] == tail[j];
          assert s[k + 1] == tail[j];
        }
      }
      SortedCons(s[0], tail, cmp);
    }
  }

  /** With a consistent comparator the sort's result is ordered. */
  lemma {:induction false} SortBySorted(s: seq<Point>, cmp: Comparator)
    requires Consistent(cmp)
    ensures Sorted(SortBy(s, cmp), cmp)
  {
    if s != [] {
      SortBySorted(s[..|s| - 1], cmp);
      InsertSorted(s[|s| - 1], SortBy(s[..|s| - 1], cmp), cmp);
    }
  }

  /** An element that no element of `s` compares above goes to the end. */
  lemma {:induction false} InsertAfterAll(x: Point, s: seq<Point>, cmp: Comparator)
    requires Consistent(cmp)
    requires forall j :: 0 <= j < |s| ==> cmp(s[j], x) <= 0
    ensures Insert(x, s, cmp) == s + [x]
  {
    if s != [] {
      assert !(cmp(x, s[0]) < 0);
      InsertAfterAll(x, s[1..], cmp);
      assert s == [s[0]] + s[1..];
    }
  }

  /** A sorted sequence minus its last element is sorted, and that last
      element compares above none of the others. */
  lemma SortedSplit(init: seq<Point>, last: Point, cmp: Comparator)
    requires Sorted(init + [last], cmp)
    ensures Sorted(init, cmp)
    ensures forall j :: 0 <= j < |init| ==> cmp(init[j], last) <= 0
  {
    var s := init + [last];
    forall i, j | 0 <= i < j < |init| ensures cmp(init[i], init[j]) <= 0 {
      assert init[i] == s[i] && init[j] == s[j];
    }
    forall j | 0 <= j < |init| ensures cmp(init[j], last) <= 0 {
      assert init[j] == s[j] && last == s[|init|];
    }
  }

  /** Sorting an already sorted sequence leaves it as it is. */
  lemma {:induction false} SortBySortedIsIdentity(s: seq<Point>, cmp: Comparator)
    requires Consistent(cmp) && Sorted(s, cmp)
    ensures SortBy(s, cmp) == s
  {
    if s != [] {
      var init, last := s[..|s| - 1], s[|s| - 1];
      assert init + [last] == s;
      SortedSplit(init, last, cmp);
      SortBySortedIsIdentity(init, cmp);
      InsertAfterAll(last, init, cmp);
    }
  }

  /** The points of `s` that tie with `x` under `cmp`, in their order. */
  function Ties(s: seq<Point>, x: Point, cmp: Comparator): seq<Point> {
    if s == [] then []
    else (if cmp(s[0], x) == 0 then [s[0]] else []) + Ties(s[1..], x, cmp)
  }

  lemma {:induction false} TiesAppend(a: seq<Point>, b: seq<Point>, x: Point, cmp: Comparator)
    ensures Ties(a + b, x, cmp) == Ties(a, x, cmp) + Ties(b, x, cmp)
  {
    if a != [] {
      assert (a + b)[0] == a[0];
      assert (a + b)[1..] == a[1..] + b;
      TiesAppend(a[1..], b, x, cmp);
    } else {
      assert a + b == b;
    }
  }

  lemma {:induction false} TiesNone(s: seq<Point>, x: Point, cmp: Comparator)
    requires forall j :: 0 <= j < |s| ==> cmp(s[j], x) != 0
    ensures Ties(s, x, cmp) == []
  {
    if s != [] {
      TiesNone(s[1..], x, cmp);
    }
  }

  /** Under a consistent comparator, two points that tie with a third tie
      with each other. */
  lemma TieEquivalence(a: Point, b: Point, x: Point, cmp: Comparator)
    requires Consistent(cmp)
    ensures cmp(a, x) == 0 && cmp(b, x) == 0 ==> cmp(a, b) == 0
  {
    if cmp(a, x) == 0 && cmp(b, x) == 0 {
      assert cmp(x, b) == 0 && cmp(x, a) == 0;
      assert cmp(a, b) <= 0 && cmp(b, a) <= 0;
    }
  }

  /** Inserting `y` into a sorted list puts it after every point of the
      list it ties with. */
  lemma {:induction false} TiesInsert(y: Point, t: seq<Point>, x: Point, cmp: Comparator)
    requires Consistent(cmp) && Sorted(t, cmp)
    ensures Ties(Insert(y, t, cmp), x, cmp) == Ties(t, x, cmp) + (if cmp(y, x) == 0 then [y] else [])
  {
    if t == [] {
    } else if cmp(y, t[0]) < 0 {
      var r := [y] + t;
      assert r[0] == y && r[1..] == t;
      if cmp(y, x) == 0 {
        forall j | 0 <= j < |t| ensures cmp(t[j], x) != 0 {
          if j > 0 { assert cmp(t[0], t[j]) <= 0; }
          assert cmp(y, t[j]) < 0;
          TieEquivalence(y, t[j], x, cmp);
        }
        TiesNone(t, x, cmp);
      }
    } else {
      var r := [t[0]] + Insert(y, t[1..], cmp);
      assert r[0] == t[0] && r[1..] == Insert(y, t[1..], cmp);
      assert Sorted(t[1..], cmp) by {
        forall i, j | 0 <= i < j < |t[1..]| ensures cmp(t[1..][i], t[1..][j]) <= 0 {
          assert t[1..][i] == t[i + 1] && t[1..][j] == t[j + 1];
        }
      }
      TiesInsert(y, t[1..], x, cmp);
    }
  }

  /** The sort is stable: points that tie keep their input order. */
  lemma {:induction false} SortByStable(s: seq<Point>, x: Point, cmp: Comparator)
    requires Consistent(cmp)
    ensures Ties(SortBy(s, cmp), x, cmp) == Ties(s, x, cmp)
  {
    if s != [] {
      var init, last := s[..|s| - 1], s[|s| - 1];
      assert s == init + [last];
      SortByStable(init, x, cmp);
      SortBySorted(init, cmp);
      TiesInsert(last, SortBy(init, cmp), x, cmp);
      TiesAppend(init, [last], x, cmp);
      assert [last][1..] == [];
    }
  }

  /** A filter keeps a sequence whose every element it accepts unchanged. */
  lemma {:induction false} FilterByAllKept(s: seq<Point>, kind: FilterKind, keep: (FilterKind, Point) -> bool)
    requires forall x :: x in s ==> keep(kind, x)
    ensures FilterBy(s, kind, keep) == s
  {
    if s != [] {
      assert s[0] in s;
      FilterByAllKept(s[1..], kind, keep);
      assert s == [s[0]] + s[1..];
    }
  }

  /** A point is visible exactly when it is in the store and the active
      filter keeps it; the visible list is a permutation of the filtered
      one. */
  lemma ProjectContents(points: seq<Point>, filter: FilterKind, sort: SortKind, eng: Engines, x: Point)
    ensures x in Project(points, filter, sort, eng) <==> x in points && eng.keep(filter, x)
    ensures multiset(Project(points, filter, sort, eng)) == multiset(FilterBy(points, filter, eng.keep))
  {
    var r := Project(points, filter, sort, eng);
    FilterByContents(points, filter, eng.keep);
    if !sort.Other? {
      SortByPermutes(FilterBy(points, filter, eng.keep), ComparatorOf(sort, eng));
    }
    assert x in r <==> x in multiset(r);
    assert x in FilterBy(points, filter, eng.keep) <==> x in multiset(FilterBy(points, filter, eng.keep));
  }

  /** For a recognised sort kind with a consistent comparator the visible
      list is ordered by that comparator. */
  lemma ProjectSorted(points: seq<Point>, filter: FilterKind, sort: SortKind, eng: Engines)
    requires !sort.Other? && Consistent(ComparatorOf(sort, eng))
    ensures Sorted(Project(points, filter, sort, eng), ComparatorOf(sort, eng))
  {
    SortBySorted(FilterBy(points, filter, eng.keep), ComparatorOf(sort, eng));
  }

  /** For a recognised sort kind with a consistent comparator, points
      that tie under it appear in the order the filter left them. */
  lemma ProjectStable(points: seq<Point>, filter: FilterKind, sort: SortKind, eng: Engines, x: Point)
    requires !sort.Other? && Consistent(ComparatorOf(sort, eng))
    ensures Ties(Project(points, filter, sort, eng), x, ComparatorOf(sort, eng))
         == Ties(FilterBy(points, filter, eng.keep), x, ComparatorOf(sort, eng))
  {
    SortByStable(FilterBy(points, filter, eng.keep), x, ComparatorOf(sort, eng));
  }

  /** Projecting the visible list once more gives it back: the projection
      is a fixed point of itself when the comparators are consistent. */
  lemma ProjectIdempotent(points: seq<Point>, filter: FilterKind, sort: SortKind, eng: Engines)
    requires !sort.Other? ==> Consistent(ComparatorOf(sort, eng))
    ensures Project(Project(points, filter, sort, eng), filter, sort, eng) == Project(points, filter, sort, eng)
  {
    var r := Project(points, filter, sort, eng);
    forall x | x in r ensures eng.keep(filter, x) {
      ProjectContents(points, filter, sort, eng, x);
    }
    FilterByAllKept(r, filter, eng.keep);
    if !sort.Other? {
      ProjectSorted(points, filter, sort, eng);
      SortBySortedIsIdentity(r, ComparatorOf(sort, eng));
    }
  }
}
