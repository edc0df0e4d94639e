/** Concrete inputs worked through the model, including inputs on which the
    code drops or keeps readings in ways a reader might not expect. */
module Scenarios {
  import opened Wrappers
  import opened JsValues
  import opened Series
  import opened Chrono
  import opened JsonSeries
  import opened CsvSeries
  import opened Bearing

  /** A wind direction of 5 degrees is plotted at 365 at its row's instant. */
  lemma WindDirectionOfFive(parsers: Parsers)
    requires parsers.date("2021-01-01T00:00:00Z") == Some(1609459200000)
    requires parsers.float("5") == Some(5.0)
    ensures WindDir([map[DatetimeColumn := "2021-01-01T00:00:00Z", WindDirColumn := "5"]], parsers)
      == [Point(Some(1609459200000), Some(365.0))]
  {
    var row := map[DatetimeColumn := "2021-01-01T00:00:00Z", WindDirColumn := "5"];
    assert Cell(row, WindDirColumn) == Some("5");
  }

  /** A null maximum height yields no point. */
  lemma NullHeightDropped(date: string -> Option<int>)
    ensures WaveMaxHeight([Entry("2021-06-01T12:00:00Z", Obj(map[WaveMaxHeightField := Null]))], date) == Success([])
  {
    var doc := [Entry("2021-06-01T12:00:00Z", Obj(map[WaveMaxHeightField := Null]))];
    ExtractJsonIsTruthyReadings(doc, WaveMaxHeightField, date);
  }

  /** `|| null` also drops a genuine reading of zero. */
  lemma ZeroHeightDropped(date: string -> Option<int>)
    ensures WaveMaxHeight([Entry("2021-06-01T12:00:00Z", Obj(map[WaveMaxHeightField := Num(0.0)]))], date) == Success([])
  {
    var doc := [Entry("2021-06-01T12:00:00Z", Obj(map[WaveMaxHeightField := Num(0.0)]))];
    ExtractJsonIsTruthyReadings(doc, WaveMaxHeightField, date);
  }

  /** A null datum makes the whole JSON callback throw. */
  lemma NullDatumThrows(date: string -> Option<int>)
    ensures WaveMaxHeight([Entry("2021-06-01T12:00:00Z", Null)], date).Failure?
  {
    var doc := [Entry("2021-06-01T12:00:00Z", Null)];
    assert !Readable(doc[0]);
  }

  /** An unparseable air temperature keeps its row, with a NaN reading. */
  lemma AirTempKeepsUnparseable(parsers: Parsers)
    requires parsers.float("bad") == None
    ensures var rows := [map[AirTempColumn := "288.1"], map[AirTempColumn := "bad"], map[AirTempColumn := "290.0"]];
      |AirTemp(rows, parsers)| == 3 && AirTemp(rows, parsers)[1].y == None
  {
    var rows := [map[AirTempColumn := "288.1"], map[AirTempColumn := "bad"], map[AirTempColumn := "290.0"]];
    assert Cell(rows[1], AirTempColumn) == Some("bad");
  }

  /** Three significant heights of which the middle one does not parse (say
      "288.1", "bad", "290.0") give two points. */
  lemma SigHeightDropsUnparseable(parsers: Parsers, first: string, middle: string, last: string)
    requires parsers.float(first).Some? && parsers.float(middle).None? && parsers.float(last).Some?
    ensures |SigHeight([map[SigHeightColumn := first], map[SigHeightColumn := middle], map[SigHeightColumn := last]], parsers)| == 2
  {
    var r0, r1, r2 := map[SigHeightColumn := first], map[SigHeightColumn := middle], map[SigHeightColumn := last];
    SigHeightOfRow(r0, parsers);
    SigHeightOfRow(r1, parsers);
    SigHeightOfRow(r2, parsers);
    assert |SigHeight([r0], parsers)| == 1;
    assert |SigHeight([r1], parsers)| == 0;
    assert |SigHeight([r2], parsers)| == 1;
    SigHeightConcat([r0], [r1], parsers);
    assert [r0] + [r1] == [r0, r1];
    assert |SigHeight([r0, r1], parsers)| == 1;
    SigHeightConcat([r0, r1], [r2], parsers);
    assert [r0, r1] + [r2] == [r0, r1, r2];
  }

  /** A one-row table contributes its point exactly when its height parses. */
  lemma SigHeightOfRow(row: Row, parsers: Parsers)
    ensures SigHeight([row], parsers)
      == if ParseCell(Cell(row, SigHeightColumn), parsers.float).Some? then [RowPoint(row, SigHeightColumn, parsers)] else []
  {
    var mapped := ParseColumn([row], SigHeightColumn, parsers);
    assert mapped == [RowPoint(row, SigHeightColumn, parsers)];
    assert mapped[1..] == [];
  }

  /** Two seawater readings listed out of order are swapped, each keeping its own instant. */
  lemma SeawaterReordered(date: string -> Option<int>, t1: int, t2: int)
    requires t1 < t2
    requires date("T2") == Some(t2) && date("T1") == Some(t1)
    ensures SeawaterSpeed([Entry("T2", Obj(map[SeawaterSpeedField := Num(0.5)])),
                           Entry("T1", Obj(map[SeawaterSpeedField := Num(0.25)]))], date)
      == Success([Point(Some(t1), Num(0.25)), Point(Some(t2), Num(0.5))])
  {
    var doc := [Entry("T2", Obj(map[SeawaterSpeedField := Num(0.5)])),
                Entry("T1", Obj(map[SeawaterSpeedField := Num(0.25)]))];
    var p2, p1 := Point(Some(t2), Num(0.5)), Point(Some(t1), Num(0.25));
    SeawaterReadings(date, t1, t2);
    SwapSort(p2, p1);
    SeawaterSpeedOfTimed(doc, date);
  }

  /** The filtered seawater readings of the two-entry document, in key order. */
  lemma SeawaterReadings(date: string -> Option<int>, t1: int, t2: int)
    requires date("T2") == Some(t2) && date("T1") == Some(t1)
    ensures ExtractJson([Entry("T2", Obj(map[SeawaterSpeedField := Num(0.5)])),
                         Entry("T1", Obj(map[SeawaterSpeedField := Num(0.25)]))], SeawaterSpeedField, date)
      == Success([Point(Some(t2), Num(0.5)), Point(Some(t1), Num(0.25))])
  {
    var doc := [Entry("T2", Obj(map[SeawaterSpeedField := Num(0.5)])),
                Entry("T1", Obj(map[SeawaterSpeedField := Num(0.25)]))];
    assert FieldValue(doc[0], SeawaterSpeedField) == Num(0.5);
    assert FieldValue(doc[1], SeawaterSpeedField) == Num(0.25);
    assert AllReadable(doc);
    ReadingsOfEntry(doc[0], SeawaterSpeedField, date);
    ReadingsOfEntry(doc[1], SeawaterSpeedField, date);
    TruthyReadingsConcat([doc[0]], [doc[1]], SeawaterSpeedField, date);
    assert [doc[0]] + [doc[1]] == doc;
    assert TruthyReadings(doc, SeawaterSpeedField, date) == [Point(Some(t2), Num(0.5)), Point(Some(t1), Num(0.25))];
    ExtractJsonIsTruthyReadings(doc, SeawaterSpeedField, date);
  }

  /** A one-entry document contributes its reading exactly when the field is truthy. */
  lemma ReadingsOfEntry(e: Entry, field: string, date: string -> Option<int>)
    requires Readable(e)
    ensures TruthyReadings([e], field, date)
      == if Truthy(FieldValue(e, field)) then [Reading(e, field, date)] else []
  {
    assert [e][1..] == [];
  }

  /** Sorting two timed points that are out of order swaps them. */
  lemma SwapSort<Y>(p2: Point<Y>, p1: Point<Y>)
    requires p1.x.Some? && p2.x.Some? && p1.x.value < p2.x.value
    ensures SortByTime([p2, p1]) == [p1, p2]
  {
    assert [p2, p1][1..] == [p1];
    assert [p1][1..] == [];
  }

  /** When every key parses, the seawater series is the sorted filtered readings. */
  lemma SeawaterSpeedOfTimed(doc: Document, date: string -> Option<int>)
    requires ExtractJson(doc, SeawaterSpeedField, date).Success?
    requires AllTimed(ExtractJson(doc, SeawaterSpeedField, date).value)
    ensures SeawaterSpeed(doc, date) == Success(SortByTime(ExtractJson(doc, SeawaterSpeedField, date).value))
  {
  }
}
