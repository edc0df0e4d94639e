# Met dashboard: time-series normalisation

A Dafny model of the data pipeline in the `App` component of a small React
weather/sea-state dashboard. The component loads two sources. The first is a
JSON document keyed by timestamp. The second is a CSV table with a `datetime`
column. It turns them into seven scatter-plot series of `{x, y}` points:

- **JSON series** (spectral-density direction, seawater speed, maximum wave
  height). For each key in `Object.keys` order, `x = Date.parse(key)` and
  `y = datum.field || null`. Then the null points are filtered out. The
  seawater-speed series is then sorted on `x`.
- **CSV series** (significant wave height, air temperature, wind direction,
  wind speed). Each row gives `x = Date.parse(row.datetime)` and
  `y = parseFloat(row.field)`. Only the significant-height series drops NaN
  readings.
- **Wind direction** is a compass bearing. Readings below 100 are lifted by
  360 so that readings either side of north plot next to each other. The
  axis tick callback `value % 360` turns the axis labels back into bearings.
- Each chain ends in one `setState` call that writes its own keys.

Modules, one per stage of the pipeline:

| file | module | contents |
|---|---|---|
| wrappers.dfy | `Wrappers` | `Option` (None stands for NaN) and `Result` (a thrown error) |
| jsvalues.dfy | `JsValues` | JSON values, ToBoolean, the null default, loose `!= null`, property reads that throw on null |
| series.dfy | `Series` | `Point<Y>`, the host parsers as parameters, the order-preserving `Filter` |
| chrono.dfy | `Chrono` | the stable sort on `x`: sortedness, permutation, stability, idempotence |
| json_series.dfy | `JsonSeries` | the three JSON pipelines and a one-pass reference definition |
| csv_series.dfy | `CsvSeries` | the CSV row-to-point step and the three plain CSV series |
| bearing.dfy | `Bearing` | the wind-direction correction and the tick transform with their round trip |
| dashboard.dfy | `Dashboard` | the component state, the two chains and their `setState` calls |
| scenarios.dfy | `Scenarios` | concrete inputs worked through the model |

`Date.parse` and `parseFloat` are not modelled internally. They are
parameters of type `string -> Option<int>` and `string -> Option<real>`,
bundled as `Series.Parsers`, and `None` stands for NaN. Numbers are exact
reals, so there is no IEEE-754 rounding.

## Behaviour worth noting

The model follows the code, including where the code does not do what the
dashboard evidently wants:

- JSON readings go through `||`, so every falsy value is dropped. That
  includes a genuine reading of `0` (`Scenarios.ZeroHeightDropped`), such as
  a wave direction of due north.
- No series drops points whose timestamp fails to parse. `x` may be NaN
  (`None`) in every series.
- The air-temperature and wind-speed series keep rows whose value does not
  parse (`Scenarios.AirTempKeepsUnparseable`). Only significant height drops
  them.
- A JSON datum that is `null` makes the property read throw a TypeError. The
  whole JSON callback then rejects, so none of the three JSON keys is set
  (`Dashboard.JsonChain`, `Scenarios.NullDatumThrows`).
- Applying the wind-direction correction twice changes nothing exactly when
  no reading is below -260 (`Bearing.CorrectionIdempotent`). So it is
  idempotent on compass bearings, but not on arbitrary numbers.

## Model

| member | source | states |
|---|---|---|
| JsValues.Truthy | src/App.tsx:37 | the values the logical-or default treats as missing are exactly undefined, null, false, 0 and the empty string |
| JsValues.OrNull | src/App.tsx:37 | the null default of `datum.field` returns a truthy value unchanged and turns every falsy value (0, "", false, undefined) into null; it is never undefined |
| JsValues.GetProperty | src/App.tsx:34-37 | reading a field throws exactly when the datum is null or undefined; otherwise it is the object's own value or undefined |
| Series.Filter | src/App.tsx:39 | the filter keeps exactly the elements passing the test, never lengthens, and never adds elements |
| Series.FilterConcat | src/App.tsx:39 | filtering distributes over concatenation, so kept elements stay in their original order |
| Series.FilterKeepsAll | src/App.tsx:94 | a filter that rejects nothing returns its input unchanged |
| Chrono.Insert | src/App.tsx:58 | inserting a timed point into a chronological series gives a chronological series with that point added |
| Chrono.SortByTime | src/App.tsx:58 | the sort's output is non-decreasing in `x` and is a permutation of its input, so every `y` stays with its `x` |
| Chrono.InsertAtTime | src/App.tsx:58 | insertion puts the new point in front of the points that share its instant and leaves the other instants alone |
| Chrono.SortStable | src/App.tsx:58 | stability: for every instant, the points stamped with it keep their relative order |
| Chrono.SortKeepsChronological | src/App.tsx:58 | sorting an already chronological series returns it unchanged |
| Chrono.SortIdempotent | src/App.tsx:58 | the sort leaves a series unchanged exactly when it is chronological, and sorting twice equals sorting once |
| JsonSeries.MapEntries | src/App.tsx:33-38 | the map step throws exactly when some datum is null; otherwise it gives one point per key, in key order |
| JsonSeries.HasReading | src/App.tsx:39 | on a value produced by the null default, the `!= null` test passes exactly when the original field value was truthy |
| JsonSeries.ExtractJson | src/App.tsx:33-39 | a JSON series throws exactly when some datum is null; otherwise it is no longer than the key list and every `y` is truthy (never null, undefined, 0, "" or false) |
| JsonSeries.TruthyReadings | src/App.tsx:67-73 | reference definition: a key's reading is in the series exactly when its field value is truthy, and every point is some key's reading |
| JsonSeries.TruthyReadingsConcat | src/App.tsx:33-39 | the readings of concatenated documents are the readings of each part, in enumeration order |
| JsonSeries.ExtractJsonIsTruthyReadings | src/App.tsx:33-39 | the code's map-then-filter pipeline equals the one-pass reference definition |
| JsonSeries.SeawaterSpeed | src/App.tsx:49-62 | the seawater series throws exactly when some datum is null; it is a permutation of the filtered readings, and when every key parses it is chronological and stable |
| JsonSeries.SpectralDensity | src/App.tsx:30-43 | the spectral-density series throws exactly when some datum is null; otherwise it is the truthy readings of its field, in key order |
| JsonSeries.WaveMaxHeight | src/App.tsx:64-77 | the maximum-height series throws exactly when some datum is null; otherwise it is the truthy readings of its field, in key order |
| CsvSeries.RowPoint | src/App.tsx:90-93 | a row's `x` is NaN exactly when its datetime cell is missing or does not parse, and its `y` is NaN exactly when its value cell is missing or does not parse; otherwise they are the parsed values |
| CsvSeries.ParseColumn | src/App.tsx:102-107 | exactly one point per CSV row: point `i` holds the parsed datetime and value of row `i`, NaN included |
| CsvSeries.ParseColumnConcat | src/App.tsx:89-93 | the row mapping distributes over concatenation, so point order is row order |
| CsvSeries.SigHeight | src/App.tsx:89-94 | the significant-height series has at most one point per row and every `y` in it is a number, never NaN |
| CsvSeries.SigHeightKeepsParsedRows | src/App.tsx:89-94 | a row's point is in the significant-height series exactly when its height parses, and every point comes from some row |
| CsvSeries.SigHeightAllParsed | src/App.tsx:89-94 | when every height parses, no row is dropped: the series is the plain row mapping |
| CsvSeries.SigHeightConcat | src/App.tsx:89-94 | the significant-height series of concatenated tables is the series of each part in order, so rows are never reordered |
| CsvSeries.AirTemp | src/App.tsx:99-111 | the air-temperature series has one point per row, in row order, including rows that do not parse |
| CsvSeries.WindSpeed | src/App.tsx:139-151 | the wind-speed series has one point per row, in row order, including rows that do not parse |
| Bearing.Unwrap | src/App.tsx:131 | NaN passes through; a value changes, by exactly +360, only when it is below 100; a bearing in [0, 360) lands in [100, 460) |
| Bearing.CorrectBearings | src/App.tsx:128-133 | the correction keeps the length, keeps every `x` in place, and unwraps each `y` |
| Bearing.WindDir | src/App.tsx:120-137 | the wind-direction series has one corrected point per row, at that row's instant |
| Bearing.CorrectionIdempotent | src/App.tsx:128-133 | correcting twice equals correcting once exactly when no reading is below -260 |
| Bearing.Trunc | src/App.tsx:184 | truncation toward zero lies within one of the quotient, on the zero side |
| Bearing.Tick | src/App.tsx:184 | `value % 360` takes the dividend's sign, lies strictly within one turn of zero, and differs from `value` by a whole number of turns |
| Bearing.TickFixesBearing | src/App.tsx:184 | a bearing already in [0, 360) is labelled as itself |
| Bearing.TickPeriodic | src/App.tsx:184 | for non-negative values, adding a full turn does not change the label |
| Bearing.TickUndoesUnwrap | src/App.tsx:113-133 | the label of a corrected bearing in [0, 360) is the original bearing |
| Bearing.TickUndoesCorrection | src/App.tsx:181-186 | labelling a corrected series recovers every original bearing at its original instant |
| Dashboard.JsonChain | src/App.tsx:27-80 | the JSON callback reaches `setState` exactly when no datum is null; then two series equal the reference readings, and seawater speed is a permutation of its readings that, when every key parses, is chronological and keeps equal-instant readings in key order |
| Dashboard.CsvChain | src/App.tsx:84-154 | air temperature and wind speed hold each row's point, wind direction holds each row's instant with its unwrapped bearing, and significant height is the parsed rows' points in row order: a row's point is in it exactly when its height parses, and it holds no NaN |
| Dashboard.SetJson | src/App.tsx:79 | the JSON `setState` writes the three JSON keys and leaves the four CSV keys untouched |
| Dashboard.SetCsv | src/App.tsx:153 | the CSV `setState` writes the four CSV keys and leaves the three JSON keys untouched |
| Dashboard.LoadOrderIrrelevant | src/App.tsx:27-154 | the final state does not depend on which chain completes first |
| Dashboard.CompleteJson | src/App.tsx:27-80 | a failed fetch or a throwing callback leaves the state unchanged; otherwise the three JSON keys get their series; the CSV keys are never touched |
| Dashboard.CompleteCsv | src/App.tsx:84-154 | a failed fetch leaves the state unchanged; otherwise the four CSV keys get their series; the JSON keys are never touched |
| Dashboard.Load | src/App.tsx:17-154 | once both chains settle, each key holds its chain's series, or the initial empty series when that chain's fetch failed or its callback threw |
| Dashboard.PartialResult | src/App.tsx:17-25 | each chain's keys do not depend on whether the other chain succeeds; a failed CSV fetch leaves all four CSV keys empty, and a failed JSON fetch or a null datum leaves all three JSON keys empty |
| Scenarios.WindDirectionOfFive | src/App.tsx:123-133 | a CSV wind direction of "5" becomes the point (its epoch millis, 365) |
| Scenarios.NullHeightDropped | src/App.tsx:67-73 | a null maximum height yields an empty series |
| Scenarios.ZeroHeightDropped | src/App.tsx:71 | a maximum height of 0 yields an empty series too |
| Scenarios.NullDatumThrows | src/App.tsx:34-37 | a null datum makes the JSON series throw |
| Scenarios.AirTempKeepsUnparseable | src/App.tsx:102-107 | of the rows "288.1", "bad", "290.0", all three stay in the air-temperature series, the middle one as NaN |
| Scenarios.SigHeightDropsUnparseable | src/App.tsx:89-94 | three significant heights whose middle one does not parse give two points |
| Scenarios.SeawaterReordered | src/App.tsx:45-58 | two seawater readings listed as T2 then T1 come out as T1 then T2, each `y` still with its own instant |

## Left out

- Fetching (`fetch`, `res.json()`, `d3.csv`, lines 27-28 and 84) is I/O. The model starts from the parsed document (`JsonSeries.Document`, entries in `Object.keys` order) and the parsed rows (`CsvSeries.Row`). A failed fetch is an `Option` that is `None`.
- The key order of `Object.keys` is taken as given: a `JsonSeries.Document` is already in enumeration order, so how ECMAScript orders keys (array-index keys such as `"2021"` first) is not modelled.
- The internals of `Date.parse` and `parseFloat` are parameters of the model. Whatever they return is used unchanged.
- `parseFloat` can return ±Infinity, which is not NaN and so survives the significant-height filter. `Option<real>` cannot represent infinities, so that case is not modelled.
- IEEE-754 arithmetic is not modelled: numbers are exact, so `-0` and `0` coincide and `y + 360` does not round.
- Property reads on primitives and arrays give undefined. That holds for the field names the component reads, but not for names such as `length`.
- JsonSeries.SeawaterSpeed: when the key of some reading kept by the filter fails `Date.parse`, the comparator `a.x - b.x` returns NaN. ECMA-262 (section 23.1.3.30) then leaves the sort order implementation-defined. The contract promises only a permutation there. The body keeps the filtered order, which is one allowed outcome.
- React state, `render` and the JSX layout (lines 12-25, 157-228) are UI. Only the seven state keys and the two `setState` writes are modelled (`Dashboard`).
- Each chart key holds `{ datasets: [{ label, data, backgroundColor, showLine }] }`. The model keeps only `datasets[0].data`, and it reads the initial `[]` of a key as an empty series.
- Chart.js options, `cloneDeep`, labels, colours, `showLine` and `stepSize` (lines 40-41, 168-186) are presentation. Only the tick callback `value % 360` is modelled (`Bearing.Tick`).
