/** The three series built from the JSON document: for each key, in
    `Object.keys` order, `x = Date.parse(key)` and `y = datum.field || null`,
    then the points whose `y` is null are filtered out. The seawater-speed
    series is then sorted on `x`. */
module JsonSeries {
  import opened Wrappers
  import opened JsValues
  import opened Series
  import opened Chrono

  const SpectralDensityField := "sea_surface_wave_from_direction_at_variance_spectral_density_maximum"
  const SeawaterSpeedField := "surface_sea_water_speed"
  const WaveMaxHeightField := "sea_surface_wave_maximum_height"

  /** One top-level property of the document: a timestamp key and its datum. */
  datatype Entry = Entry(key: string, datum: JsValue)

  /** The parsed document, its entries in `Object.keys` enumeration order. */
  type Document = seq<Entry>

  /** A datum a property can be read from without throwing. */
  predicate Readable(e: Entry) {
    !e.datum.Null? && !e.datum.Undefined?
  }

  predicate AllReadable(doc: Document) {
    forall i :: 0 <= i < |doc| ==> Readable(doc[i])
  }

  /** The value `datum.field` of a readable entry. */
  function FieldValue(e: Entry, field: string): JsValue
    requires Readable(e)
  {
    GetProperty(e.datum, field).value
  }

  /** The point the code builds for entry `e` before filtering. */
  function RawPoint(e: Entry, field: string, date: string -> Option<int>): Point<JsValue>
    requires Readable(e)
  {
    Point(date(e.key), OrNull(FieldValue(e, field)))
  }

  /** The `Object.keys(jsonData).map(...)` step: one point per entry, or the
      TypeError of the first entry whose datum is null. */
  function MapEntries(doc: Document, field: string, date: string -> Option<int>): (r: Result<seq<Point<JsValue>>, JsError>)
    ensures r.Success? <==> AllReadable(doc)
    ensures r.Failure? ==> r.error == CannotReadProperty(field)
    ensures r.Success? ==> |r.value| == |doc|
    ensures r.Success? ==> forall i :: 0 <= i < |doc| ==> r.value[i] == RawPoint(doc[i], field, date)
  {
    if |doc| == 0 then Success([])
    else
      var y :- GetProperty(doc[0].datum, field);
      var rest :- MapEntries(doc[1..], field, date);
      assert forall i :: 1 <= i < |doc| ==> doc[i] == doc[1..][i - 1];
      Success([Point(date(doc[0].key), OrNull(y))] + rest)
  }

  /** The `.filter(d => d.y != null)` test. */
  predicate HasReading(p: Point<JsValue>)
    ensures p.y == OrNull(p.y) ==> (HasReading(p) <==> Truthy(p.y))
  {
    NotNullish(p.y)
  }

  /** A JSON-derived series before any sort: map, then filter. */
  function ExtractJson(doc: Document, field: string, date: string -> Option<int>): (r: Result<seq<Point<JsValue>>, JsError>)
    ensures r.Success? <==> AllReadable(doc)
    ensures r.Failure? ==> r.error == CannotReadProperty(field)
    ensures r.Success? ==> |r.value| <= |doc|
    ensures r.Success? ==> forall i :: 0 <= i < |r.value| ==> Truthy(r.value[i].y)
  {
    var mapped :- MapEntries(doc, field, date);
    Success(Filter(mapped, HasReading))
  }

  /** The reading entry `e` contributes when its field is truthy. */
  function Reading(e: Entry, field: string, date: string -> Option<int>): Point<JsValue>
    requires Readable(e)
  {
    Point(date(e.key), FieldValue(e, field))
  }

  /** Reference definition, one entry at a time: the readings of exactly the
      entries whose field value is truthy, in enumeration order. */
  function TruthyReadings(doc: Document, field: string, date: string -> Option<int>): (r: seq<Point<JsValue>>)
    requires AllReadable(doc)
    ensures |r| <= |doc|
    ensures forall i :: 0 <= i < |r| ==> Truthy(r[i].y)
    ensures forall i :: 0 <= i < |doc| ==> (Reading(doc[i], field, date) in r <==> Truthy(FieldValue(doc[i], field)))
    ensures forall p :: p in r ==> exists i :: 0 <= i < |doc| && p == Reading(doc[i], field, date)
  {
    if |doc| == 0 then []
    else
      var rest := TruthyReadings(doc[1..], field, date);
      assert forall i :: 1 <= i < |doc| ==> doc[i] == doc[1..][i - 1];
      if Truthy(FieldValue(doc[0], field)) then [Reading(doc[0], field, date)] + rest else rest
  }

  /** The readings of a concatenated document are the readings of each part, in order. */
  lemma {:induction false} TruthyReadingsConcat(a: Document, b: Document, field: string, date: string -> Option<int>)
    requires AllReadable(a) && AllReadable(b)
    ensures AllReadable(a + b)
    ensures TruthyReadings(a + b, field, date) == TruthyReadings(a, field, date) + TruthyReadings(b, field, date)
  {
    if |a| == 0 {
      assert a + b == b;
    } else {
      assert (a + b)[1..] == a[1..] + b;
      TruthyReadingsConcat(a[1..], b, field, date);
    }
  }

  /** The code's map-then-filter pipeline computes the reference readings:
      a missing, null, false, empty-string or zero field value is dropped,
      every other value is kept with its key's instant, in enumeration order. */
  lemma ExtractJsonIsTruthyReadings(doc: Document, field: string, date: string -> Option<int>)
    requires AllReadable(doc)
    ensures ExtractJson(doc, field, date) == Success(TruthyReadings(doc, field, date))
  {
    FilterMappedIsTruthyReadings(doc, field, date);
  }

  lemma {:induction false} FilterMappedIsTruthyReadings(doc: Document, field: string, date: string -> Option<int>)
    requires AllReadable(doc)
    ensures Filter(MapEntries(doc, field, date).value, HasReading) == TruthyReadings(doc, field, date)
  {
    if |doc| > 0 {
      var mapped := MapEntries(doc, field, date).value;
      var head := RawPoint(doc[0], field, date);
      assert AllReadable(doc[1..]);
      var tail := MapEntries(doc[1..], field, date).value;
      assert mapped == [head] + tail;
      FilterMappedIsTruthyReadings(doc[1..], field, date);
      assert Filter(tail, HasReading) == TruthyReadings(doc[1..], field, date);
      FilterConcat([head], tail, HasReading);
      assert Filter([head], HasReading) == (if HasReading(head) then [head] else []) by {
        assert [head][1..] == [];
      }
      assert HasReading(head) <==> Truthy(FieldValue(doc[0], field));
    }
  }

  /** The seawater-speed series: the filtered readings sorted on `x`. When
      the key of some reading kept by the filter does not parse, the
      comparator is inconsistent and ECMA-262 leaves the order
      implementation-defined; the model then keeps the filtered order,
      which is one of the permitted outcomes. */
  function SeawaterSpeed(doc: Document, date: string -> Option<int>): (r: Result<seq<Point<JsValue>>, JsError>)
    ensures r.Success? <==> AllReadable(doc)
    ensures r.Success? ==> multiset(r.value) == multiset(ExtractJson(doc, SeawaterSpeedField, date).value)
    ensures r.Success? && AllTimed(r.value) ==> Chronological(r.value)
    ensures r.Success? && AllTimed(r.value) ==>
      forall k :: AtTime(r.value, k) == AtTime(ExtractJson(doc, SeawaterSpeedField, date).value, k)
  {
    var filtered :- ExtractJson(doc, SeawaterSpeedField, date);
    if AllTimed(filtered) then
      var sorted := SortByTime(filtered);
      assert forall k :: AtTime(sorted, k) == AtTime(filtered, k) by {
        forall k ensures AtTime(sorted, k) == AtTime(filtered, k) {
          SortStable(filtered, k);
        }
      }
      Success(sorted)
    else
      Success(filtered)
  }

  /** The spectral-density direction series: the truthy readings of its
      field, in enumeration order. */
  function SpectralDensity(doc: Document, date: string -> Option<int>): (r: Result<seq<Point<JsValue>>, JsError>)
    ensures r.Success? <==> AllReadable(doc)
    ensures AllReadable(doc) ==> r == Success(TruthyReadings(doc, SpectralDensityField, date))
  {
    ExtractJsonIsTruthyReadingsIfReadable(doc, SpectralDensityField, date);
    ExtractJson(doc, SpectralDensityField, date)
  }

  /** The maximum-wave-height series: the truthy readings of its field, in
      enumeration order. */
  function WaveMaxHeight(doc: Document, date: string -> Option<int>): (r: Result<seq<Point<JsValue>>, JsError>)
    ensures r.Success? <==> AllReadable(doc)
    ensures AllReadable(doc) ==> r == Success(TruthyReadings(doc, WaveMaxHeightField, date))
  {
    ExtractJsonIsTruthyReadingsIfReadable(doc, WaveMaxHeightField, date);
    ExtractJson(doc, WaveMaxHeightField, date)
  }

  lemma ExtractJsonIsTruthyReadingsIfReadable(doc: Document, field: string, date: string -> Option<int>)
    ensures AllReadable(doc) ==> ExtractJson(doc, field, date) == Success(TruthyReadings(doc, field, date))
  {
    if AllReadable(doc) {
      ExtractJsonIsTruthyReadings(doc, field, date);
    }
  }
}
