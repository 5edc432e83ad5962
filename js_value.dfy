/** The JavaScript values the converter sees: what `JSON.parse` yields, the
    property lookup `row[key]`, `Object.keys` and truthiness (`x || {}`). */
module JsValue {

  /** One UTF-16 code unit. A JavaScript string is a sequence of these, and
      its `.length` counts them. */
  newtype CodeUnit = x: int | 0 <= x < 0x1_0000

  type JsString = seq<CodeUnit>

  /** The canonical decimal text `Number.prototype.toString` gives a number
      (never empty). A number is identified by this text; its formatting
      from a double is not modelled. */
  type NumberText = t: JsString | |t| > 0 witness [0x30]

  /** `None` is JavaScript's `undefined`. */
  datatype Option<T> = None | Some(value: T)

  datatype JsError = TypeError | RangeError

  /** The result of an evaluation that may throw. */
  datatype Outcome<T> = Ok(value: T) | Thrown(error: JsError)

  /** A value produced by `JSON.parse`. The fields of an object are listed
      in the object's property enumeration order. `JSON.parse` keeps one
      field per name (a repeated name keeps its last value); the datatype
      does not enforce this, and the lemmas that rely on it require
      `UniqueNames` of the fields they look at. */
  datatype Json =
    | Null
    | Bool(b: bool)
    | Num(text: NumberText)
    | Str(s: JsString)
    | Arr(items: seq<Json>)
    | Obj(fields: seq<Field>)

  datatype Field = Field(name: JsString, value: Json)

  /** No two fields share a name, as in every object `JSON.parse` builds. */
  predicate UniqueNames(fields: seq<Field>) {
    forall i, j :: 0 <= i < j < |fields| ==> fields[i].name != fields[j].name
  }

  /** The UTF-16 encoding of a Dafny string (a sequence of Unicode scalar
      values): one code unit below U+10000, a surrogate pair above. */
  function Utf16(s: string): JsString
  {
    if s == [] then []
    else
      var c := s[0] as int;
      var head: JsString :=
        if c < 0x1_0000 then [c as CodeUnit]
        else [(0xD800 + (c - 0x1_0000) / 0x400) as CodeUnit,
              (0xDC00 + (c - 0x1_0000) % 0x400) as CodeUnit];
      head + Utf16(s[1..])
  }

  const LengthKey: JsString := [0x6C, 0x65, 0x6E, 0x67, 0x74, 0x68]  // "length"
  const ZeroText: JsString := [0x30]  // "0"
  const NaNText: JsString := [0x4E, 0x61, 0x4E]  // "NaN"

  predicate IsDigit(u: CodeUnit) {
    0x30 <= u <= 0x39
  }

  function DigitUnit(d: nat): (u: CodeUnit)
    requires d < 10
    ensures IsDigit(u) && u as int - 0x30 == d
  {
    (0x30 + d) as CodeUnit
  }

  /** The decimal text of a natural number, as `String(n)` gives it for
      every array index and string length. */
  function Decimal(n: nat): (r: JsString)
    ensures |r| >= 1
    ensures forall i :: 0 <= i < |r| ==> IsDigit(r[i])
    ensures r[0] == 0x30 <==> n == 0
    ensures n == 0 ==> |r| == 1
  {
    if n < 10 then [DigitUnit(n)] else Decimal(n / 10) + [DigitUnit(n % 10)]
  }

  /** The number a string of decimal digits denotes. */
  function DigitsValue(k: JsString): nat
    requires forall i :: 0 <= i < |k| ==> IsDigit(k[i])
  {
    if k == [] then 0
    else
      assert IsDigit(k[|k| - 1]);
      DigitsValue(k[..|k| - 1]) * 10 + (k[|k| - 1] as int - 0x30)
  }

  /** The array index a property key denotes: its decimal digits when it is
      the canonical text of a natural number, `None` otherwise (so "01",
      "-0", "1.0" and "" are not indices). */
  function IndexOf(k: JsString): (r: Option<nat>)
  {
    if |k| > 0 && (forall i :: 0 <= i < |k| ==> IsDigit(k[i])) && (k[0] != 0x30 || |k| == 1)
    then Some(DigitsValue(k))
    else None
  }

  lemma {:induction false} DecimalValue(n: nat)
    ensures DigitsValue(Decimal(n)) == n
  {
    if n >= 10 {
      DecimalValue(n / 10);
      var d := Decimal(n);
      assert d[..|d| - 1] == Decimal(n / 10);
    }
  }

  /** `Decimal` and `IndexOf` are inverse: the text of `n` is the index `n`. */
  lemma IndexOfDecimal(n: nat)
    ensures IndexOf(Decimal(n)) == Some(n)
  {
    DecimalValue(n);
  }

  lemma {:induction false} LeadingDigitPositive(k: JsString)
    requires |k| > 0 && (forall i :: 0 <= i < |k| ==> IsDigit(k[i])) && k[0] != 0x30
    ensures DigitsValue(k) > 0
  {
    if |k| > 1 {
      LeadingDigitPositive(k[..|k| - 1]);
    }
  }

  /** ... and every key that denotes an index is the text of that index. */
  lemma {:induction false} DecimalOfIndex(k: JsString, n: nat)
    requires IndexOf(k) == Some(n)
    ensures k == Decimal(n)
  {
    var last := k[|k| - 1] as int - 0x30;
    if |k| == 1 {
      assert IsDigit(k[0]) && k[..0] == [];
      assert n == DigitsValue(k);
      assert DigitsValue(k[..0]) == 0;
      assert n == k[0] as int - 0x30;
      assert k == [DigitUnit(n)];
    } else {
      var front := k[..|k| - 1];
      LeadingDigitPositive(front);
      assert front[0] == k[0];
      assert IndexOf(front) == Some(DigitsValue(front));
      DecimalOfIndex(front, DigitsValue(front));
      assert n / 10 == DigitsValue(front) && n % 10 == last;
      assert k == front + [k[|k| - 1]];
    }
  }

  /** JavaScript truthiness: `null`, `false`, `0`, `-0`, `NaN` and `""` are
      falsy (`-0` prints as "0"). */
  function Truthy(v: Json): (t: bool)
    ensures !t ==> OwnKeys(v) == []
  {
    match v
    case Null => false
    case Bool(b) => b
    case Num(t) => t != ZeroText && t != NaNText
    case Str(s) => |s| > 0
    case Arr(_) => true
    case Obj(_) => true
  }

  function Names(fields: seq<Field>): (r: seq<JsString>)
    ensures |r| == |fields| && forall i :: 0 <= i < |fields| ==> r[i] == fields[i].name
  {
    if fields == [] then [] else [fields[0].name] + Names(fields[1..])
  }

  /** The keys "0", "1", ..., the text of `n - 1`. */
  function IndexKeys(n: nat): (r: seq<JsString>)
    ensures |r| == n && forall i :: 0 <= i < n ==> IndexOf(r[i]) == Some(i)
  {
    if n == 0 then []
    else
      IndexOfDecimal(n - 1);
      IndexKeys(n - 1) + [Decimal(n - 1)]
  }

  /** `Object.keys(v)`: the own enumerable property names. An array and a
      string have their indices; a number, a boolean and `{}` have none.
      (`Object.keys(null)` throws, but the converter never asks for it.) */
  function OwnKeys(v: Json): (r: seq<JsString>)
    ensures v.Obj? ==> |r| == |v.fields| && forall i :: 0 <= i < |r| ==> r[i] == v.fields[i].name
    ensures v.Arr? ==> |r| == |v.items| && forall i :: 0 <= i < |r| ==> IndexOf(r[i]) == Some(i)
    ensures v.Str? ==> |r| == |v.s| && forall i :: 0 <= i < |r| ==> IndexOf(r[i]) == Some(i)
    ensures !(v.Obj? || v.Arr? || v.Str?) ==> r == []
  {
    match v
    case Obj(fields) => Names(fields)
    case Arr(items) => IndexKeys(|items|)
    case Str(s) => IndexKeys(|s|)
    case _ => []
  }

  /** The value of the first field named `key`, or `undefined`. */
  function Lookup(fields: seq<Field>, key: JsString): (r: Option<Json>)
    ensures r.None? <==> forall i :: 0 <= i < |fields| ==> fields[i].name != key
    ensures r.Some? ==> exists i :: 0 <= i < |fields| && fields[i].name == key && fields[i].value == r.value
  {
    if fields == [] then None
    else if fields[0].name == key then Some(fields[0].value)
    else
      var r := Lookup(fields[1..], key);
      assert forall i :: 1 <= i < |fields| ==> fields[i] == fields[1..][i - 1];
      r
  }

  /** The property lookup `v[key]`: it throws a TypeError on `null`, finds
      an own field of an object, an element or the `length` of an array or
      a string (a string's element is its code unit as a one-unit string),
      and is `undefined` otherwise. */
  function Get(v: Json, key: JsString): (r: Outcome<Option<Json>>)
    ensures r.Thrown? <==> v.Null?
    ensures r.Thrown? ==> r.error == TypeError
    ensures v.Obj? ==> r == Ok(Lookup(v.fields, key))
  {
    match v
    case Null => Thrown(TypeError)
    case Obj(fields) => Ok(Lookup(fields, key))
    case Arr(items) =>
      if key == LengthKey then Ok(Some(Num(Decimal(|items|))))
      else
        (match IndexOf(key)
         case Some(i) => if i < |items| then Ok(Some(items[i])) else Ok(None)
         case None => Ok(None))
    case Str(s) =>
      if key == LengthKey then Ok(Some(Num(Decimal(|s|))))
      else
        (match IndexOf(key)
         case Some(i) => if i < |s| then Ok(Some(Str([s[i]]))) else Ok(None)
         case None => Ok(None))
    case _ => Ok(None)
  }

  /** Every key `Object.keys` lists is present in the value it came from:
      looking it up neither throws nor gives `undefined`. For an array the
      i-th key reaches the i-th element. */
  lemma OwnKeysArePresent(v: Json, j: nat)
    requires j < |OwnKeys(v)|
    ensures Get(v, OwnKeys(v)[j]).Ok? && Get(v, OwnKeys(v)[j]).value.Some?
    ensures v.Arr? ==> Get(v, OwnKeys(v)[j]) == Ok(Some(v.items[j]))
  {
    var k := OwnKeys(v)[j];
    match v
    case Obj(fields) =>
      assert fields[j].name == k;
    case Arr(items) =>
      assert IndexOf(k) == Some(j);
      assert IsDigit(k[0]);
      assert k != LengthKey by { assert LengthKey[0] == 0x6C; }
    case Str(s) =>
      assert IndexOf(k) == Some(j);
      assert IsDigit(k[0]);
      assert k != LengthKey by { assert LengthKey[0] == 0x6C; }
  }

  /** `Object.keys` never lists a name twice: an array's or a string's keys
      denote distinct indices, and an object from `JSON.parse` has one
      field per name. */
  lemma OwnKeysDistinct(v: Json)
    requires v.Obj? ==> UniqueNames(v.fields)
    ensures forall i, j :: 0 <= i < j < |OwnKeys(v)| ==> OwnKeys(v)[i] != OwnKeys(v)[j]
  {
    var keys := OwnKeys(v);
    if v.Arr? || v.Str? {
      forall i, j | 0 <= i < j < |keys|
        ensures keys[i] != keys[j]
      {
        assert IndexOf(keys[i]) == Some(i) && IndexOf(keys[j]) == Some(j);
      }
    }
  }

  /** In an object with one field per name, `obj[name]` is the value of the
      field with that name. */
  lemma LookupUnique(fields: seq<Field>, i: nat)
    requires UniqueNames(fields) && i < |fields|
    ensures Lookup(fields, fields[i].name) == Some(fields[i].value)
  {
  }
}
