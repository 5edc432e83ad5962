/** `JSON.stringify(v)` without indentation, and the two ways it throws on
    a value `JSON.parse` produced: nesting deeper than the engine's stack
    allows, and a result longer than the engine's longest string. */
module JsonText {
  import opened JsValue

  /** The limits of the JavaScript engine running the converter (V8 caps
      strings at 2^29 - 24 code units; its stack depth varies). */
  datatype Engine = Engine(maxNesting: nat, maxStringLength: nat)

  const NullText: JsString := [0x6E, 0x75, 0x6C, 0x6C]  // "null"
  const TrueText: JsString := [0x74, 0x72, 0x75, 0x65]  // "true"
  const FalseText: JsString := [0x66, 0x61, 0x6C, 0x73, 0x65]  // "false"
  const InfinityText: JsString := [0x49, 0x6E, 0x66, 0x69, 0x6E, 0x69, 0x74, 0x79]  // "Infinity"
  const MinusInfinityText: JsString := [0x2D, 0x49, 0x6E, 0x66, 0x69, 0x6E, 0x69, 0x74, 0x79]  // "-Infinity"

  const Quote: CodeUnit := 0x22
  const Backslash: CodeUnit := 0x5C
  const Comma: CodeUnit := 0x2C
  const Colon: CodeUnit := 0x3A

  predicate IsLeadSurrogate(u: CodeUnit) {
    0xD800 <= u <= 0xDBFF
  }

  predicate IsTrailSurrogate(u: CodeUnit) {
    0xDC00 <= u <= 0xDFFF
  }

  function HexDigit(d: nat): CodeUnit
    requires d < 16
  {
    if d < 10 then (0x30 + d) as CodeUnit else (0x61 + d - 10) as CodeUnit
  }

  /** `\uXXXX` with lower-case hexadecimal digits. */
  function UnicodeEscape(u: CodeUnit): (r: JsString)
    ensures |r| == 6
  {
    var n := u as int;
    [Backslash, 0x75, HexDigit(n / 0x1000), HexDigit(n / 0x100 % 0x10),
     HexDigit(n / 0x10 % 0x10), HexDigit(n % 0x10)]
  }

  /** The text of one code point of a string that is not a surrogate pair:
      the two-character escapes, `\u` escapes for the other controls and
      for lone surrogates, the code unit itself otherwise. */
  function EscapeUnit(u: CodeUnit): JsString
  {
    if u == 0x08 then [Backslash, 0x62]
    else if u == 0x09 then [Backslash, 0x74]
    else if u == 0x0A then [Backslash, 0x6E]
    else if u == 0x0C then [Backslash, 0x66]
    else if u == 0x0D then [Backslash, 0x72]
    else if u == Quote then [Backslash, Quote]
    else if u == Backslash then [Backslash, Backslash]
    else if u < 0x20 || IsLeadSurrogate(u) || IsTrailSurrogate(u) then UnicodeEscape(u)
    else [u]
  }

  /** The string between the quotes: code point by code point, a lead
      surrogate followed by a trail surrogate being one code point. */
  function QuotedBody(s: JsString): (r: JsString)
    ensures |r| >= |s|
    decreases |s|
  {
    if s == [] then []
    else if |s| >= 2 && IsLeadSurrogate(s[0]) && IsTrailSurrogate(s[1]) then s[..2] + QuotedBody(s[2..])
    else EscapeUnit(s[0]) + QuotedBody(s[1..])
  }

  /** A code unit that stands for itself in JSON text at position `i`: not
      a control, quote or backslash, and not a surrogate without its pair. */
  predicate PlainAt(s: JsString, i: nat)
    requires i < |s|
  {
    && s[i] >= 0x20 && s[i] != Quote && s[i] != Backslash
    && (IsLeadSurrogate(s[i]) ==> i + 1 < |s| && IsTrailSurrogate(s[i + 1]))
    && (IsTrailSurrogate(s[i]) ==> i > 0 && IsLeadSurrogate(s[i - 1]))
  }

  predicate Plain(s: JsString) {
    forall i :: 0 <= i < |s| ==> PlainAt(s, i)
  }

  lemma EscapeUnitOfPlain(u: CodeUnit)
    requires u >= 0x20 && u != Quote && u != Backslash
    requires !IsLeadSurrogate(u) && !IsTrailSurrogate(u)
    ensures EscapeUnit(u) == [u]
  {
  }

  lemma EscapeUnitGrows(u: CodeUnit)
    requires u < 0x20 || u == Quote || u == Backslash || IsLeadSurrogate(u) || IsTrailSurrogate(u)
    ensures |EscapeUnit(u)| > 1
  {
  }

  /** Dropping the first code unit keeps a string plain when that unit is
      not a lead surrogate (the second unit then has no partner to lose). */
  lemma {:induction false} PlainTail(s: JsString, k: nat)
    requires 0 < k <= |s|
    requires k == 2 ==> IsLeadSurrogate(s[0]) && IsTrailSurrogate(s[1])
    requires k == 1 ==> !IsLeadSurrogate(s[0])
    requires k <= 2
    ensures (Plain(s) ==> Plain(s[k..]))
    ensures (forall i :: 0 <= i < k ==> PlainAt(s, i)) && Plain(s[k..]) ==> Plain(s)
  {
    var t := s[k..];
    if Plain(s) {
      forall i | 0 <= i < |t| ensures PlainAt(t, i) {
        assert PlainAt(s, i + k);
        assert t[i] == s[i + k];
      }
    }
    if (forall i :: 0 <= i < k ==> PlainAt(s, i)) && Plain(t) {
      forall i | 0 <= i < |s| ensures PlainAt(s, i) {
        if i >= k {
          assert PlainAt(t, i - k);
          assert s[i] == t[i - k];
          if IsLeadSurrogate(s[i]) {
            assert s[i + 1] == t[i + 1 - k];
          }
          if IsTrailSurrogate(s[i]) && i - k > 0 {
            assert s[i - 1] == t[i - 1 - k];
          }
        }
      }
    }
  }

  /** The quoted text of a string is the string itself exactly when every
      code unit stands for itself; otherwise it is strictly longer. */
  lemma {:induction false} QuotedBodyIdentity(s: JsString)
    ensures QuotedBody(s) == s <==> Plain(s)
    ensures !Plain(s) ==> |QuotedBody(s)| > |s|
    decreases |s|
  {
    if s == [] {
    } else if |s| >= 2 && IsLeadSurrogate(s[0]) && IsTrailSurrogate(s[1]) {
      QuotedBodyIdentity(s[2..]);
      PlainTail(s, 2);
      assert PlainAt(s, 0) && PlainAt(s, 1);
      assert s == s[..2] + s[2..];
    } else {
      QuotedBodyIdentity(s[1..]);
      var e := EscapeUnit(s[0]);
      if PlainAt(s, 0) {
        assert !IsTrailSurrogate(s[0]);
        assert !IsLeadSurrogate(s[0]);
        EscapeUnitOfPlain(s[0]);
        PlainTail(s, 1);
        assert s == [s[0]] + s[1..];
      } else {
        assert !Plain(s);
        EscapeUnitGrows(s[0]);
        assert |QuotedBody(s)| > |s|;
      }
    }
  }

  function Quoted(s: JsString): (r: JsString)
    ensures |r| >= |s| + 2
  {
    [Quote] + QuotedBody(s) + [Quote]
  }

  /** `JSON.stringify(v)`. A non-finite number (JSON.parse reads `1e400`
      as Infinity) is written `null`. */
  function Stringify(v: Json): (r: JsString)
    ensures |r| >= 1
    ensures v.Arr? || v.Obj? ==> |r| >= 2
  {
    match v
    case Null => NullText
    case Bool(b) => if b then TrueText else FalseText
    case Num(t) => if t == InfinityText || t == MinusInfinityText then NullText else t
    case Str(s) => Quoted(s)
    case Arr(items) => [0x5B] + Elements(items) + [0x5D]
    case Obj(fields) => [0x7B] + Members(fields) + [0x7D]
  }

  /** The comma-separated texts of an array's elements. */
  function Elements(items: seq<Json>): JsString
  {
    if items == [] then []
    else if |items| == 1 then Stringify(items[0])
    else Stringify(items[0]) + [Comma] + Elements(items[1..])
  }

  /** The comma-separated `"name":value` texts of an object's fields. */
  function Members(fields: seq<Field>): JsString
  {
    if fields == [] then []
    else
      var member := Quoted(fields[0].name) + [Colon] + Stringify(fields[0].value);
      if |fields| == 1 then member else member + [Comma] + Members(fields[1..])
  }

  /** How deeply arrays and objects nest in a value: 0 for a scalar. */
  function Depth(v: Json): nat
  {
    match v
    case Arr(items) => 1 + ElementsDepth(items)
    case Obj(fields) => 1 + MembersDepth(fields)
    case _ => 0
  }

  function ElementsDepth(items: seq<Json>): nat
  {
    if items == [] then 0
    else
      var d := Depth(items[0]);
      var rest := ElementsDepth(items[1..]);
      if d < rest then rest else d
  }

  function MembersDepth(fields: seq<Field>): nat
  {
    if fields == [] then 0
    else
      var d := Depth(fields[0].value);
      var rest := MembersDepth(fields[1..]);
      if d < rest then rest else d
  }

  /** `JSON.stringify(v)` as the engine runs it. This is the model's
      assumption about the engine, not a derived fact: on a value that
      `JSON.parse` produced, the only failures are a RangeError when the
      value nests deeper than the stack allows or when the text is longer
      than the longest string the engine can build. */
  function StringifyIn(engine: Engine, v: Json): (r: Outcome<JsString>)
    ensures r.Thrown? ==> r.error == RangeError
    ensures r.Thrown? <==> Depth(v) > engine.maxNesting || |Stringify(v)| > engine.maxStringLength
    ensures r.Ok? ==> r.value == Stringify(v)
  {
    if Depth(v) > engine.maxNesting then Thrown(RangeError)
    else
      var text := Stringify(v);
      if |text| > engine.maxStringLength then Thrown(RangeError) else Ok(text)
  }
}
