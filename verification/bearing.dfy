/** The circular-quantity corrector for wind direction and the axis tick
    transform that undoes it for display. Bearings below the threshold are
    lifted by a full turn so that readings either side of north plot next to
    each other; the tick callback `value % 360` maps the axis back to compass
    bearings. */
module Bearing {
  import opened Wrappers
  import opened Series
  import opened CsvSeries

  const FullTurn: real := 360.0
  const Threshold: real := 100.0

  /** `(y < 100) ? (y + 360) : y`. A NaN reading fails the comparison and
      passes through. */
  function Unwrap(y: Option<real>): (r: Option<real>)
    ensures r.Some? <==> y.Some?
    ensures y.Some? ==> r.value == y.value || r.value == y.value + FullTurn
    ensures y.Some? ==> (r.value != y.value <==> y.value < Threshold)
    ensures y.Some? && 0.0 <= y.value < FullTurn ==> Threshold <= r.value < Threshold + FullTurn
  {
    match y
    case None => None
    case Some(v) => if v < Threshold then Some(v + FullTurn) else Some(v)
  }

  /** The second `.map(...)`: every point keeps its instant and its place;
      only its reading is unwrapped. */
  function CorrectBearings(s: seq<Point<Option<real>>>): (r: seq<Point<Option<real>>>)
    ensures |r| == |s|
    ensures forall i :: 0 <= i < |s| ==> r[i].x == s[i].x && r[i].y == Unwrap(s[i].y)
  {
    if |s| == 0 then []
    else
      assert forall i :: 1 <= i < |s| ==> s[i] == s[1..][i - 1];
      [Point(s[0].x, Unwrap(s[0].y))] + CorrectBearings(s[1..])
  }

  /** The wind-direction series: one corrected point per row. */
  function WindDir(rows: seq<Row>, parsers: Parsers): (r: seq<Point<Option<real>>>)
    ensures |r| == |rows|
    ensures forall i :: 0 <= i < |rows| ==>
      r[i].x == RowPoint(rows[i], WindDirColumn, parsers).x
      && r[i].y == Unwrap(RowPoint(rows[i], WindDirColumn, parsers).y)
  {
    CorrectBearings(ParseColumn(rows, WindDirColumn, parsers))
  }

  /** A reading a second correction leaves alone: NaN, or not below -260. */
  predicate Liftable(y: Option<real>) {
    y.None? || y.value >= Threshold - FullTurn
  }

  /** Correcting twice equals correcting once exactly when no reading lies
      below -260; compass bearings in [0, 360) always qualify. */
  lemma CorrectionIdempotent(s: seq<Point<Option<real>>>)
    ensures CorrectBearings(CorrectBearings(s)) == CorrectBearings(s)
      <==> forall i :: 0 <= i < |s| ==> Liftable(s[i].y)
  {
    var once := CorrectBearings(s);
    var twice := CorrectBearings(once);
    if forall i :: 0 <= i < |s| ==> Liftable(s[i].y) {
      assert forall i :: 0 <= i < |s| ==> twice[i] == once[i];
    } else {
      var i :| 0 <= i < |s| && !Liftable(s[i].y);
      assert twice[i].y.value == s[i].y.value + 2.0 * FullTurn;
    }
  }

  /** JavaScript's truncation of a quotient toward zero. */
  function Trunc(q: real): (t: int)
    ensures q >= 0.0 ==> t as real <= q < t as real + 1.0
    ensures q < 0.0 ==> t as real - 1.0 < q <= t as real
  {
    if q >= 0.0 then q.Floor else -((-q).Floor)
  }

  /** True when `q` is a whole number. */
  predicate Whole(q: real) {
    q.Floor as real == q
  }

  /** The tick callback `value % 360`: JavaScript's remainder, which takes
      the sign of the dividend. */
  function Tick(value: real): (r: real)
    ensures value >= 0.0 ==> 0.0 <= r < FullTurn
    ensures value < 0.0 ==> -FullTurn < r <= 0.0
    ensures Whole((value - r) / FullTurn)
  {
    value - FullTurn * Trunc(value / FullTurn) as real
  }

  /** A bearing already in [0, 360) is displayed as itself. */
  lemma TickFixesBearing(b: real)
    requires 0.0 <= b < FullTurn
    ensures Tick(b) == b
  {
    assert Trunc(b / FullTurn) == 0;
  }

  /** Adding a full turn to a non-negative value does not change its label. */
  lemma TickPeriodic(v: real)
    requires v >= 0.0
    ensures Tick(v + FullTurn) == Tick(v)
  {
    assert (v + FullTurn) / FullTurn == v / FullTurn + 1.0;
    assert Trunc((v + FullTurn) / FullTurn) == Trunc(v / FullTurn) + 1;
  }

  /** The axis shows every corrected compass bearing as the bearing it was. */
  lemma TickUndoesUnwrap(b: real)
    requires 0.0 <= b < FullTurn
    ensures Unwrap(Some(b)).Some? && Tick(Unwrap(Some(b)).value) == b
  {
    TickFixesBearing(b);
    if b < Threshold {
      TickPeriodic(b);
    }
  }

  /** Series form of the round trip: relabelling a corrected wind-direction
      series recovers every original bearing at its original instant. */
  lemma TickUndoesCorrection(s: seq<Point<Option<real>>>)
    requires forall i :: 0 <= i < |s| ==> s[i].y.Some? ==> 0.0 <= s[i].y.value < FullTurn
    ensures forall i :: 0 <= i < |s| ==>
      var c := CorrectBearings(s)[i];
      c.x == s[i].x && (s[i].y.Some? ==> c.y.Some? && Tick(c.y.value) == s[i].y.value)
  {
    forall i | 0 <= i < |s| && s[i].y.Some? {
      TickUndoesUnwrap(s[i].y.value);
    }
  }
}
