/** The column-width heuristic of the converter: `getValueLength` and the
    `{ wch }` list computed from `Object.keys(jsonData[0] || {})`, sampling
    the first 1000 records and falling back to width 10 for a column whose
    computation throws. */
module ColumnWidths {
  import opened JsValue
  import opened JsonText

  /** `slice(0, 1000)`: only these many records are measured. */
  const SampleSize: nat := 1000
  /** Added to the widest entry "for readability". */
  const Padding: nat := 2
  /** The width of a column whose computation threw. */
  const FallbackWidth: nat := 10

  /** `value.toString()` for a boolean, a number or a string. */
  function ScalarText(v: Json): (r: JsString)
    requires v.Bool? || v.Num? || v.Str?
    ensures v.Str? ==> r == v.s
    ensures |r| == 0 <==> v == Str([])
  {
    match v
    case Bool(b) => if b then TrueText else FalseText
    case Num(t) => t
    case Str(s) => s
  }

  /** `getValueLength`: 0 for `null` and `undefined`, the length of the
      JSON text for an array or object, the length of `toString()` for
      anything else. Only `JSON.stringify` can throw. */
  function GetValueLength(engine: Engine, value: Option<Json>): (r: Outcome<nat>)
    ensures r == Ok(0) <==> value == None || value == Some(Null) || value == Some(Str([]))
    ensures r.Thrown? ==> r.error == RangeError && value.Some? && (value.value.Arr? || value.value.Obj?)
    ensures r.Ok? && value.Some? && (value.value.Arr? || value.value.Obj?) ==> r.value >= 2
  {
    match value
    case None => Ok(0)
    case Some(v) =>
      if v.Null? then Ok(0)
      else if v.Arr? || v.Obj? then
        match StringifyIn(engine, v)
        case Ok(text) => Ok(|text|)
        case Thrown(e) => Thrown(e)
      else
        Ok(|ScalarText(v)|)
  }

  /** `getValueLength(row[key])`: the lookup throws on a `null` row. */
  function CellLength(engine: Engine, row: Json, key: JsString): (r: Outcome<nat>)
    ensures r == Thrown(TypeError) <==> row.Null?
    ensures r.Thrown? && !row.Null? ==> r.error == RangeError
  {
    match Get(row, key)
    case Thrown(e) => Thrown(e)
    case Ok(value) => GetValueLength(engine, value)
  }

  /** `records.slice(0, 1000)`. */
  function Sample(records: seq<Json>): (r: seq<Json>)
    ensures |r| == if |records| < SampleSize then |records| else SampleSize
    ensures forall i :: 0 <= i < |r| ==> r[i] == records[i]
  {
    records[..if |records| < SampleSize then |records| else SampleSize]
  }

  /** `rows.map(row => getValueLength(row[key]))`: the lengths in order, or
      the error of the first cell that throws. */
  function SampledLengths(engine: Engine, key: JsString, rows: seq<Json>): (r: Outcome<seq<nat>>)
    ensures r.Ok? <==> forall i :: 0 <= i < |rows| ==> CellLength(engine, rows[i], key).Ok?
    ensures r.Ok? ==> |r.value| == |rows|
    ensures r.Ok? ==> forall i :: 0 <= i < |rows| ==> CellLength(engine, rows[i], key) == Ok(r.value[i])
    ensures r.Thrown? ==>
      exists i :: && 0 <= i < |rows| && CellLength(engine, rows[i], key) == Thrown(r.error)
                  && forall j :: 0 <= j < i ==> CellLength(engine, rows[j], key).Ok?
  {
    if rows == [] then Ok([])
    else
      match CellLength(engine, rows[0], key)
      case Thrown(e) => Thrown(e)
      case Ok(n) =>
        var rest := SampledLengths(engine, key, rows[1..]);
        assert forall i :: 1 <= i < |rows| ==> rows[i] == rows[1..][i - 1];
        match rest
        case Thrown(e) =>
          FirstThrowShifts(engine, key, rows, e);
          Thrown(e)
        case Ok(ns) => Ok([n] + ns)
  }

  /** A first throwing cell of `rows[1..]` is one of `rows` too, when
      `rows[0]` measures. */
  lemma FirstThrowShifts(engine: Engine, key: JsString, rows: seq<Json>, e: JsError)
    requires rows != [] && CellLength(engine, rows[0], key).Ok?
    requires exists i :: && 0 <= i < |rows[1..]| && CellLength(engine, rows[1..][i], key) == Thrown(e)
                         && forall j :: 0 <= j < i ==> CellLength(engine, rows[1..][j], key).Ok?
    ensures exists i :: && 0 <= i < |rows| && CellLength(engine, rows[i], key) == Thrown(e)
                        && forall j :: 0 <= j < i ==> CellLength(engine, rows[j], key).Ok?
  {
    var i :| && 0 <= i < |rows[1..]| && CellLength(engine, rows[1..][i], key) == Thrown(e)
             && forall j :: 0 <= j < i ==> CellLength(engine, rows[1..][j], key).Ok?;
    assert CellLength(engine, rows[i + 1], key) == Thrown(e);
    forall j | 0 <= j < i + 1
      ensures CellLength(engine, rows[j], key).Ok?
    {
      if j > 0 { assert rows[j] == rows[1..][j - 1]; }
    }
  }

  /** `Math.max(header, ...lengths)`: the least number at least `header`
      and every length. */
  function MaxOf(header: nat, lengths: seq<nat>): (m: nat)
    ensures m >= header && forall i :: 0 <= i < |lengths| ==> m >= lengths[i]
    ensures m == header || exists i :: 0 <= i < |lengths| && m == lengths[i]
  {
    if lengths == [] then header
    else
      var front := MaxOf(header, lengths[..|lengths| - 1]);
      assert forall i :: 0 <= i < |lengths| - 1 ==> lengths[..|lengths| - 1][i] == lengths[i];
      var last := lengths[|lengths| - 1];
      if front < last then last else front
  }

  /** Some sampled cell of the column throws: a `null` record, or an array
      or object that `JSON.stringify` cannot write. */
  function ColumnFails(engine: Engine, key: JsString, records: seq<Json>): (fails: bool)
    ensures fails <==> SampledLengths(engine, key, Sample(records)).Thrown?
  {
    var sample := Sample(records);
    assert forall i :: 0 <= i < |sample| ==> sample[i] == records[i];
    exists i :: 0 <= i < |records| && i < SampleSize && CellLength(engine, records[i], key).Thrown?
  }

  /** The `wch` of one column: 10 when its computation throws, otherwise 2
      more than the largest of the header length and the lengths of the
      sampled cells. */
  function ColumnWidth(engine: Engine, key: JsString, records: seq<Json>): (w: nat)
    ensures ColumnFails(engine, key, records) ==> w == FallbackWidth
    ensures !ColumnFails(engine, key, records) ==>
      && w >= |key| + Padding
      && (forall i :: 0 <= i < |records| && i < SampleSize ==>
            w >= CellLength(engine, records[i], key).value + Padding)
      && (|| w == |key| + Padding
          || exists i :: 0 <= i < |records| && i < SampleSize &&
               w == CellLength(engine, records[i], key).value + Padding)
  {
    var sample := Sample(records);
    match SampledLengths(engine, key, sample)
    case Thrown(_) => FallbackWidth
    case Ok(lengths) =>
      var m := MaxOf(|key|, lengths);
      assert forall i :: 0 <= i < |sample| ==> CellLength(engine, records[i], key) == Ok(lengths[i]);
      m + Padding
  }

  /** `Object.keys(jsonData[0] || {})`. Every falsy value has no own keys,
      so the columns are exactly the keys of the first record. */
  function ColumnKeys(records: seq<Json>): (keys: seq<JsString>)
    ensures records == [] ==> keys == []
    ensures records != [] ==> keys == OwnKeys(records[0])
  {
    var first := if records != [] && Truthy(records[0]) then records[0] else Obj([]);
    OwnKeys(first)
  }

  /** The `{ wch }` list: one width per key of the first record, in the
      order of those keys. */
  function ColWidths(engine: Engine, records: seq<Json>): (widths: seq<nat>)
    ensures |widths| == |ColumnKeys(records)|
    ensures forall j :: 0 <= j < |widths| ==> widths[j] == ColumnWidth(engine, ColumnKeys(records)[j], records)
  {
    var keys := ColumnKeys(records);
    seq(|keys|, j requires 0 <= j < |keys| => ColumnWidth(engine, keys[j], records))
  }
}
