/** The chronological normaliser: `.sort((a, b) => a.x - b.x)`, which
    ECMA-262 (section 23.1.3.30, 2023 edition) requires to be stable. The
    comparator is consistent only when every `x` is a number, so sorting is
    defined here for timed points only. */
module Chrono {
  import opened Wrappers
  import opened Series

  /** Every point carries a parsed instant. */
  predicate AllTimed<Y>(s: seq<Point<Y>>) {
    forall i :: 0 <= i < |s| ==> s[i].x.Some?
  }

  /** Every point is timed and instants never decrease. */
  predicate Chronological<Y>(s: seq<Point<Y>>) {
    && AllTimed(s)
    && forall i, j :: 0 <= i < j < |s| ==> s[i].x.value <= s[j].x.value
  }

  /** The points stamped with instant `k`, in their order in `s`. */
  function AtTime<Y>(s: seq<Point<Y>>, k: int): seq<Point<Y>> {
    if |s| == 0 then []
    else (if s[0].x == Some(k) then [s[0]] else []) + AtTime(s[1..], k)
  }

  lemma {:induction false} AtTimeConcat<Y>(a: seq<Point<Y>>, b: seq<Point<Y>>, k: int)
    ensures AtTime(a + b, k) == AtTime(a, k) + AtTime(b, k)
  {
    if |a| == 0 {
      assert a + b == b;
    } else {
      assert (a + b)[1..] == a[1..] + b;
      AtTimeConcat(a[1..], b, k);
    }
  }

  /** Places `p` in front of the first point that is not earlier than it. */
  function Insert<Y(==)>(p: Point<Y>, s: seq<Point<Y>>): (r: seq<Point<Y>>)
    requires p.x.Some? && Chronological(s)
    ensures Chronological(r)
    ensures multiset(r) == multiset(s) + multiset{p}
    ensures |r| == |s| + 1
    ensures r[0] == p || (|s| > 0 && r[0] == s[0])
    decreases |s|
  {
    if |s| == 0 || p.x.value <= s[0].x.value then [p] + s
    else
      assert s == [s[0]] + s[1..];
      [s[0]] + Insert(p, s[1..])
  }

  /** Stable insertion sort on the instant. */
  function SortByTime<Y(==)>(s: seq<Point<Y>>): (r: seq<Point<Y>>)
    requires AllTimed(s)
    ensures Chronological(r)
    ensures multiset(r) == multiset(s)
    ensures |r| == |s|
  {
    if |s| == 0 then []
    else
      assert s == [s[0]] + s[1..];
      Insert(s[0], SortByTime(s[1..]))
  }

  /** Inserting `p` adds it in front of the points sharing its instant and
      leaves every other instant's points alone. */
  lemma {:induction false} InsertAtTime<Y>(p: Point<Y>, s: seq<Point<Y>>, k: int)
    requires p.x.Some? && Chronological(s)
    ensures AtTime(Insert(p, s), k) == (if p.x == Some(k) then [p] else []) + AtTime(s, k)
    decreases |s|
  {
    if |s| == 0 || p.x.value <= s[0].x.value {
      AtTimeConcat([p], s, k);
    } else {
      assert s == [s[0]] + s[1..];
      AtTimeConcat([s[0]], Insert(p, s[1..]), k);
      AtTimeConcat([s[0]], s[1..], k);
      InsertAtTime(p, s[1..], k);
    }
  }

  /** Stability: the points sharing an instant keep their relative order. */
  lemma {:induction false} SortStable<Y>(s: seq<Point<Y>>, k: int)
    requires AllTimed(s)
    ensures AtTime(SortByTime(s), k) == AtTime(s, k)
  {
    if |s| > 0 {
      assert s == [s[0]] + s[1..];
      SortStable(s[1..], k);
      InsertAtTime(s[0], SortByTime(s[1..]), k);
      AtTimeConcat([s[0]], s[1..], k);
    }
  }

  /** Sorting a series that is already chronological returns it unchanged. */
  lemma {:induction false} SortKeepsChronological<Y>(s: seq<Point<Y>>)
    requires Chronological(s)
    ensures SortByTime(s) == s
  {
    if |s| > 0 {
      assert Chronological(s[1..]);
      SortKeepsChronological(s[1..]);
      assert s == [s[0]] + s[1..];
    }
  }

  /** A sort leaves exactly the chronological series unchanged, so sorting twice is sorting once. */
  lemma SortIdempotent<Y>(s: seq<Point<Y>>)
    requires AllTimed(s)
    ensures SortByTime(s) == s <==> Chronological(s)
    ensures SortByTime(SortByTime(s)) == SortByTime(s)
  {
    if Chronological(s) {
      SortKeepsChronological(s);
    }
    SortKeepsChronological(SortByTime(s));
  }
}
