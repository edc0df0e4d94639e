/** The four series built from the CSV table. Each row maps to
    `x = Date.parse(row.datetime)` and `y = parseFloat(row.<column>)`; only
    the significant-height series then drops the rows whose `y` is NaN. */
module CsvSeries {
  import opened Wrappers
  import opened Series

  const DatetimeColumn := "datetime"
  const SigHeightColumn := "sea_surface_wave_significant_height"
  const AirTempColumn := "air_temperature_at_2m_above_ground_level"
  const WindDirColumn := "wind_from_direction_at_10m_above_ground_level"
  const WindSpeedColumn := "wind_speed_at_10m_above_ground_level"

  /** One parsed row: column name to cell text. */
  type Row = map<string, string>

  /** The cell `row.column`; `None` is the undefined of a column the header lacks. */
  function Cell(row: Row, column: string): Option<string> {
    if column in row then Some(row[column]) else None
  }

  /** Applies a host parser to a cell. Both `Date.parse(undefined)` and
      `parseFloat(undefined)` are NaN. */
  function ParseCell<T>(cell: Option<string>, parse: string -> Option<T>): Option<T> {
    match cell
    case None => None
    case Some(text) => parse(text)
  }

  /** The point the code builds for one row and one column. */
  function RowPoint(row: Row, column: string, parsers: Parsers): (r: Point<Option<real>>)
    ensures r.x.None? <==> DatetimeColumn !in row || parsers.date(row[DatetimeColumn]).None?
    ensures r.y.None? <==> column !in row || parsers.float(row[column]).None?
    ensures column in row ==> r.y == parsers.float(row[column])
    ensures DatetimeColumn in row ==> r.x == parsers.date(row[DatetimeColumn])
  {
    Point(ParseCell(Cell(row, DatetimeColumn), parsers.date), ParseCell(Cell(row, column), parsers.float))
  }

  /** The `csvData.map(...)` step: exactly one point per row, point `i`
      built from row `i`, whether or not its cells parse. */
  function ParseColumn(rows: seq<Row>, column: string, parsers: Parsers): (r: seq<Point<Option<real>>>)
    ensures |r| == |rows|
    ensures forall i :: 0 <= i < |rows| ==>
      r[i].x == ParseCell(Cell(rows[i], DatetimeColumn), parsers.date)
      && r[i].y == ParseCell(Cell(rows[i], column), parsers.float)
  {
    if |rows| == 0 then []
    else
      assert forall i :: 1 <= i < |rows| ==> rows[i] == rows[1..][i - 1];
      [RowPoint(rows[0], column, parsers)] + ParseColumn(rows[1..], column, parsers)
  }

  /** Mapping rows distributes over concatenation: row order is point order. */
  lemma {:induction false} ParseColumnConcat(a: seq<Row>, b: seq<Row>, column: string, parsers: Parsers)
    ensures ParseColumn(a + b, column, parsers) == ParseColumn(a, column, parsers) + ParseColumn(b, column, parsers)
  {
    if |a| == 0 {
      assert a + b == b;
    } else {
      assert (a + b)[1..] == a[1..] + b;
      ParseColumnConcat(a[1..], b, column, parsers);
    }
  }

  /** The `.filter(datum => !isNaN(datum.y))` test. */
  predicate HasValue(p: Point<Option<real>>) {
    p.y.Some?
  }

  /** Significant wave height: the rows whose height parses, in row order. */
  function SigHeight(rows: seq<Row>, parsers: Parsers): (r: seq<Point<Option<real>>>)
    ensures |r| <= |rows|
    ensures forall i :: 0 <= i < |r| ==> r[i].y.Some?
  {
    Filter(ParseColumn(rows, SigHeightColumn, parsers), HasValue)
  }

  /** A row's point is in the significant-height series exactly when its
      height parses, and every point in it is some row's point. */
  lemma SigHeightKeepsParsedRows(rows: seq<Row>, parsers: Parsers)
    ensures forall i :: 0 <= i < |rows| ==>
      (RowPoint(rows[i], SigHeightColumn, parsers) in SigHeight(rows, parsers) <==>
       ParseCell(Cell(rows[i], SigHeightColumn), parsers.float).Some?)
    ensures forall p :: p in SigHeight(rows, parsers) ==>
      exists i :: 0 <= i < |rows| && p == RowPoint(rows[i], SigHeightColumn, parsers)
  {
    var mapped := ParseColumn(rows, SigHeightColumn, parsers);
    assert forall i :: 0 <= i < |rows| ==> mapped[i] == RowPoint(rows[i], SigHeightColumn, parsers);
  }

  /** When every height parses, no row is dropped: the series is the plain row mapping. */
  lemma SigHeightAllParsed(rows: seq<Row>, parsers: Parsers)
    requires forall i :: 0 <= i < |rows| ==> ParseCell(Cell(rows[i], SigHeightColumn), parsers.float).Some?
    ensures SigHeight(rows, parsers) == ParseColumn(rows, SigHeightColumn, parsers)
  {
    FilterKeepsAll(ParseColumn(rows, SigHeightColumn, parsers), HasValue);
  }

  /** The significant-height series of a concatenated table is the series of
      each part, in order: filtering never reorders rows. */
  lemma SigHeightConcat(a: seq<Row>, b: seq<Row>, parsers: Parsers)
    ensures SigHeight(a + b, parsers) == SigHeight(a, parsers) + SigHeight(b, parsers)
  {
    ParseColumnConcat(a, b, SigHeightColumn, parsers);
    FilterConcat(ParseColumn(a, SigHeightColumn, parsers), ParseColumn(b, SigHeightColumn, parsers), HasValue);
  }

  /** Air temperature: one point per row, NaN readings included. */
  function AirTemp(rows: seq<Row>, parsers: Parsers): (r: seq<Point<Option<real>>>)
    ensures |r| == |rows|
    ensures forall i :: 0 <= i < |rows| ==> r[i] == RowPoint(rows[i], AirTempColumn, parsers)
  {
    ParseColumn(rows, AirTempColumn, parsers)
  }

  /** Wind speed: one point per row, NaN readings included. */
  function WindSpeed(rows: seq<Row>, parsers: Parsers): (r: seq<Point<Option<real>>>)
    ensures |r| == |rows|
    ensures forall i :: 0 <= i < |rows| ==> r[i] == RowPoint(rows[i], WindSpeedColumn, parsers)
  {
    ParseColumn(rows, WindSpeedColumn, parsers)
  }
}
