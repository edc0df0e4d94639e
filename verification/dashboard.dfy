/** The component state and the two independent loading chains. The JSON
    chain and the CSV chain each finish with one `setState` call; either may
    complete first, and a fetch that fails, or a callback that throws, leaves
    that chain's keys at their initial empty series. */
module Dashboard {
  import opened Wrappers
  import opened JsValues
  import opened Series
  import opened Chrono
  import opened JsonSeries
  import opened CsvSeries
  import opened Bearing

  /** The seven state keys the constructor initialises. */
  datatype State = State(
    waveSigHeight: seq<Point<Option<real>>>,
    airTemp: seq<Point<Option<real>>>,
    windDir: seq<Point<Option<real>>>,
    windSpeed: seq<Point<Option<real>>>,
    spectralDensity: seq<Point<JsValue>>,
    seawaterSpeed: seq<Point<JsValue>>,
    waveMaxHeight: seq<Point<JsValue>>)

  const Initial := State([], [], [], [], [], [], [])

  /** The three series the JSON callback hands to `setState`. */
  datatype JsonBatch = JsonBatch(
    spectralDensity: seq<Point<JsValue>>,
    seawaterSpeed: seq<Point<JsValue>>,
    waveMaxHeight: seq<Point<JsValue>>)

  /** The four series the CSV callback hands to `setState`. */
  datatype CsvBatch = CsvBatch(
    waveSigHeight: seq<Point<Option<real>>>,
    airTemp: seq<Point<Option<real>>>,
    windDir: seq<Point<Option<real>>>,
    windSpeed: seq<Point<Option<real>>>)

  /** The body of the JSON callback. It throws, and so never reaches
      `setState`, exactly when some datum is null. */
  function JsonChain(doc: Document, parsers: Parsers): (r: Result<JsonBatch, JsError>)
    ensures r.Success? <==> AllReadable(doc)
    ensures r.Success? ==> r.value.spectralDensity == TruthyReadings(doc, SpectralDensityField, parsers.date)
    ensures r.Success? ==> r.value.waveMaxHeight == TruthyReadings(doc, WaveMaxHeightField, parsers.date)
    ensures r.Success? ==> multiset(r.value.seawaterSpeed) == multiset(TruthyReadings(doc, SeawaterSpeedField, parsers.date))
    ensures r.Success? && AllTimed(r.value.seawaterSpeed) ==> Chronological(r.value.seawaterSpeed)
    ensures r.Success? && AllTimed(r.value.seawaterSpeed) ==>
      forall k :: AtTime(r.value.seawaterSpeed, k) == AtTime(TruthyReadings(doc, SeawaterSpeedField, parsers.date), k)
  {
    // The first map to throw is the spectral-density one; once it has not
    // thrown, the other two cannot.
    match SpectralDensity(doc, parsers.date)
    case Failure(e) => Failure(e)
    case Success(spectralDensity) =>
      ExtractJsonIsTruthyReadings(doc, SpectralDensityField, parsers.date);
      ExtractJsonIsTruthyReadings(doc, SeawaterSpeedField, parsers.date);
      ExtractJsonIsTruthyReadings(doc, WaveMaxHeightField, parsers.date);
      Success(JsonBatch(spectralDensity, SeawaterSpeed(doc, parsers.date).value, WaveMaxHeight(doc, parsers.date).value))
  }

  /** The body of the CSV callback, which cannot throw. */
  function CsvChain(rows: seq<Row>, parsers: Parsers): (r: CsvBatch)
    ensures |r.airTemp| == |rows| && |r.windDir| == |rows| && |r.windSpeed| == |rows|
    ensures r.waveSigHeight == SigHeight(rows, parsers)
    ensures |r.waveSigHeight| <= |rows|
    ensures forall i :: 0 <= i < |r.waveSigHeight| ==> r.waveSigHeight[i].y.Some?
    ensures forall i :: 0 <= i < |rows| ==>
      (RowPoint(rows[i], SigHeightColumn, parsers) in r.waveSigHeight <==>
       ParseCell(Cell(rows[i], SigHeightColumn), parsers.float).Some?)
    ensures forall i :: 0 <= i < |rows| ==>
      && r.airTemp[i] == RowPoint(rows[i], AirTempColumn, parsers)
      && r.windSpeed[i] == RowPoint(rows[i], WindSpeedColumn, parsers)
      && r.windDir[i].x == RowPoint(rows[i], WindDirColumn, parsers).x
      && r.windDir[i].y == Unwrap(RowPoint(rows[i], WindDirColumn, parsers).y)
  {
    SigHeightKeepsParsedRows(rows, parsers);
    CsvBatch(SigHeight(rows, parsers), AirTemp(rows, parsers), WindDir(rows, parsers), WindSpeed(rows, parsers))
  }

  /** `setState` with the JSON keys: the CSV keys are untouched. */
  function SetJson(s: State, b: JsonBatch): (r: State)
    ensures r.spectralDensity == b.spectralDensity && r.seawaterSpeed == b.seawaterSpeed
      && r.waveMaxHeight == b.waveMaxHeight
    ensures r.waveSigHeight == s.waveSigHeight && r.airTemp == s.airTemp
      && r.windDir == s.windDir && r.windSpeed == s.windSpeed
  {
    s.(spectralDensity := b.spectralDensity, seawaterSpeed := b.seawaterSpeed, waveMaxHeight := b.waveMaxHeight)
  }

  /** `setState` with the CSV keys: the JSON keys are untouched. */
  function SetCsv(s: State, b: CsvBatch): (r: State)
    ensures r.waveSigHeight == b.waveSigHeight && r.airTemp == b.airTemp
      && r.windDir == b.windDir && r.windSpeed == b.windSpeed
    ensures r.spectralDensity == s.spectralDensity && r.seawaterSpeed == s.seawaterSpeed
      && r.waveMaxHeight == s.waveMaxHeight
  {
    s.(waveSigHeight := b.waveSigHeight, airTemp := b.airTemp, windDir := b.windDir, windSpeed := b.windSpeed)
  }

  /** Completion of the JSON chain on a fetched document (`None`: the fetch
      failed). Only a callback that does not throw reaches `setState`. */
  function CompleteJson(s: State, fetched: Option<Document>, parsers: Parsers): (r: State)
    ensures fetched.None? ==> r == s
    ensures fetched.Some? && !AllReadable(fetched.value) ==> r == s
    ensures fetched.Some? && AllReadable(fetched.value) ==>
      && r.spectralDensity == TruthyReadings(fetched.value, SpectralDensityField, parsers.date)
      && r.waveMaxHeight == TruthyReadings(fetched.value, WaveMaxHeightField, parsers.date)
      && r.seawaterSpeed == SeawaterSpeed(fetched.value, parsers.date).value
    ensures r.waveSigHeight == s.waveSigHeight && r.airTemp == s.airTemp
      && r.windDir == s.windDir && r.windSpeed == s.windSpeed
  {
    match fetched
    case None => s
    case Some(doc) =>
      match JsonChain(doc, parsers)
      case Failure(_) => s
      case Success(b) => SetJson(s, b)
  }

  /** Completion of the CSV chain on a fetched table (`None`: the fetch failed). */
  function CompleteCsv(s: State, fetched: Option<seq<Row>>, parsers: Parsers): (r: State)
    ensures fetched.None? ==> r == s
    ensures fetched.Some? ==>
      && r.waveSigHeight == SigHeight(fetched.value, parsers)
      && r.airTemp == AirTemp(fetched.value, parsers)
      && r.windDir == WindDir(fetched.value, parsers)
      && r.windSpeed == WindSpeed(fetched.value, parsers)
    ensures r.spectralDensity == s.spectralDensity && r.seawaterSpeed == s.seawaterSpeed
      && r.waveMaxHeight == s.waveMaxHeight
  {
    match fetched
    case None => s
    case Some(rows) => SetCsv(s, CsvChain(rows, parsers))
  }

  /** The state once both chains have settled, in either completion order:
      each key holds its chain's series, or its initial empty series when
      that chain's fetch failed or its callback threw. */
  function Load(json: Option<Document>, csv: Option<seq<Row>>, jsonFirst: bool, parsers: Parsers): (r: State)
    ensures csv.None? ==> r.waveSigHeight == [] && r.airTemp == [] && r.windDir == [] && r.windSpeed == []
    ensures csv.Some? ==>
      && r.waveSigHeight == SigHeight(csv.value, parsers)
      && r.airTemp == AirTemp(csv.value, parsers)
      && r.windDir == WindDir(csv.value, parsers)
      && r.windSpeed == WindSpeed(csv.value, parsers)
    ensures json.None? || !AllReadable(json.value) ==>
      r.spectralDensity == [] && r.seawaterSpeed == [] && r.waveMaxHeight == []
    ensures json.Some? && AllReadable(json.value) ==>
      && r.spectralDensity == TruthyReadings(json.value, SpectralDensityField, parsers.date)
      && r.waveMaxHeight == TruthyReadings(json.value, WaveMaxHeightField, parsers.date)
      && r.seawaterSpeed == SeawaterSpeed(json.value, parsers.date).value
  {
    if jsonFirst then CompleteCsv(CompleteJson(Initial, json, parsers), csv, parsers)
    else CompleteJson(CompleteCsv(Initial, csv, parsers), json, parsers)
  }

  /** The two chains write disjoint keys, so the final state does not depend
      on which completes first. */
  lemma LoadOrderIrrelevant(json: Option<Document>, csv: Option<seq<Row>>, parsers: Parsers)
    ensures Load(json, csv, true, parsers) == Load(json, csv, false, parsers)
  {
  }

  /** Partial results: each chain's keys are the same whether the other
      chain succeeds or fails, and a chain whose fetch fails, or whose
      callback throws, leaves all its keys at the initial empty series. */
  lemma PartialResult(json: Option<Document>, csv: Option<seq<Row>>, jsonFirst: bool, parsers: Parsers)
    ensures var full := Load(json, csv, jsonFirst, parsers);
      var alone := Load(json, None, jsonFirst, parsers);
      full.spectralDensity == alone.spectralDensity
      && full.seawaterSpeed == alone.seawaterSpeed
      && full.waveMaxHeight == alone.waveMaxHeight
    ensures var full := Load(json, csv, jsonFirst, parsers);
      var alone := Load(None, csv, jsonFirst, parsers);
      full.waveSigHeight == alone.waveSigHeight && full.airTemp == alone.airTemp
      && full.windDir == alone.windDir && full.windSpeed == alone.windSpeed
    ensures csv.None? ==> var r := Load(json, csv, jsonFirst, parsers);
      r.waveSigHeight == [] && r.airTemp == [] && r.windDir == [] && r.windSpeed == []
    ensures json.None? || !AllReadable(json.value) ==> var r := Load(json, csv, jsonFirst, parsers);
      r.spectralDensity == [] && r.seawaterSpeed == [] && r.waveMaxHeight == []
  {
  }
}
