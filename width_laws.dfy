/** What the column-width heuristic guarantees across calls: where the
    columns come from, the 1000-record cap, the effect of empty cells, and
    how a throwing column is kept apart from the others. */
module WidthLaws {
  import opened JsValue
  import opened JsonText
  import opened ColumnWidths

  /** Every column is a key the first record has: keys that only later
      records carry never become columns, and adding records after the
      first changes neither the columns nor their number. */
  lemma ColumnsComeFromFirstRecord(engine: Engine, records: seq<Json>, more: seq<Json>, j: nat)
    requires j < |ColumnKeys(records)|
    ensures records != []
    ensures Get(records[0], ColumnKeys(records)[j]).Ok?
    ensures Get(records[0], ColumnKeys(records)[j]).value.Some?
    ensures ColumnKeys(records + more) == ColumnKeys(records)
    ensures |ColWidths(engine, records + more)| == |ColWidths(engine, records)|
  {
    OwnKeysArePresent(records[0], j);
    assert (records + more)[0] == records[0];
  }

  /** When the first record is an array, the columns are its indices
      "0", "1", ..., and in a row that is an array too, column `j` reads
      element `j`. */
  lemma ArrayRecordsByPosition(records: seq<Json>, j: nat, i: nat)
    requires records != [] && records[0].Arr? && j < |records[0].items|
    requires i < |records| && records[i].Arr?
    ensures ColumnKeys(records)[j] == Decimal(j)
    ensures j < |records[i].items| ==> Get(records[i], Decimal(j)) == Ok(Some(records[i].items[j]))
    ensures j >= |records[i].items| ==> Get(records[i], Decimal(j)) == Ok(None)
  {
    var k := ColumnKeys(records)[j];
    assert IndexOf(k) == Some(j);
    DecimalOfIndex(k, j);
    IndexOfDecimal(j);
    assert Decimal(j) != LengthKey by {
      assert IsDigit(Decimal(j)[0]);
      assert LengthKey[0] == 0x6C;
    }
  }

  /** Only the first 1000 records are measured: two record arrays that
      agree on their first 1000 records (or are equal when shorter) get the
      same widths, whatever follows. */
  lemma SampleCapRespected(engine: Engine, a: seq<Json>, b: seq<Json>)
    requires Sample(a) == Sample(b)
    ensures ColWidths(engine, a) == ColWidths(engine, b)
  {
    assert (a == []) == (b == []) by {
      assert |Sample(a)| == 0 <==> a == [];
      assert |Sample(b)| == 0 <==> b == [];
    }
    if a != [] {
      assert a[0] == Sample(a)[0] == Sample(b)[0] == b[0];
    }
    var keys := ColumnKeys(a);
    assert keys == ColumnKeys(b);
    forall j | 0 <= j < |keys|
      ensures ColWidths(engine, a)[j] == ColWidths(engine, b)[j]
    {
      ColumnWidthBySample(engine, keys[j], a, b);
    }
  }

  /** One column's width depends on the first 1000 records only. */
  lemma ColumnWidthBySample(engine: Engine, key: JsString, a: seq<Json>, b: seq<Json>)
    requires Sample(a) == Sample(b)
    ensures ColumnWidth(engine, key, a) == ColumnWidth(engine, key, b)
  {
    forall i | 0 <= i < |Sample(a)|
      ensures a[i] == b[i]
    {
      assert a[i] == Sample(a)[i] == Sample(b)[i] == b[i];
    }
    SameCellsSameWidth(engine, key, key, a, b);
  }

  /** Appending records to an array that already holds 1000 changes no
      width, however long the appended values are. */
  lemma AppendBeyondCap(engine: Engine, records: seq<Json>, more: seq<Json>)
    requires |records| >= SampleSize
    ensures ColWidths(engine, records + more) == ColWidths(engine, records)
  {
    assert Sample(records + more) == Sample(records);
    SampleCapRespected(engine, records + more, records);
  }

  /** The width of a column is fixed by the lengths its sampled cells
      yield: two columns (in two record arrays) whose sampled cells yield
      the same lengths, or throw alike, get the same width. */
  lemma {:induction false} SameCellsSameWidth(engine: Engine, keyA: JsString, keyB: JsString, a: seq<Json>, b: seq<Json>)
    requires |keyA| == |keyB|
    requires |Sample(a)| == |Sample(b)|
    requires forall i :: 0 <= i < |Sample(a)| ==> CellLength(engine, a[i], keyA) == CellLength(engine, b[i], keyB)
    ensures ColumnWidth(engine, keyA, a) == ColumnWidth(engine, keyB, b)
  {
    var wa := ColumnWidth(engine, keyA, a);
    var wb := ColumnWidth(engine, keyB, b);
    if ColumnFails(engine, keyA, a) {
      var i :| 0 <= i < |a| && i < SampleSize && CellLength(engine, a[i], keyA).Thrown?;
      assert CellLength(engine, b[i], keyB).Thrown?;
    } else {
      assert !ColumnFails(engine, keyB, b);
      assert wb >= wa by {
        if wa != |keyA| + Padding {
          var i :| 0 <= i < |a| && i < SampleSize && wa == CellLength(engine, a[i], keyA).value + Padding;
          assert wb >= CellLength(engine, b[i], keyB).value + Padding;
        }
      }
      assert wa >= wb by {
        if wb != |keyB| + Padding {
          var i :| 0 <= i < |b| && i < SampleSize && wb == CellLength(engine, b[i], keyB).value + Padding;
          assert wa >= CellLength(engine, a[i], keyA).value + Padding;
        }
      }
    }
  }

  /** A throwing column does not disturb the others: column `j` keeps its
      width in any other record array with the same columns whose sampled
      cells in column `j` measure the same, whatever the other columns
      hold and whether or not they throw. */
  lemma ColumnWidthIsLocal(engine: Engine, a: seq<Json>, b: seq<Json>, j: nat)
    requires ColumnKeys(a) == ColumnKeys(b) && j < |ColumnKeys(a)|
    requires |Sample(a)| == |Sample(b)|
    requires forall i :: 0 <= i < |Sample(a)| ==>
               CellLength(engine, a[i], ColumnKeys(a)[j]) == CellLength(engine, b[i], ColumnKeys(a)[j])
    ensures ColWidths(engine, a)[j] == ColWidths(engine, b)[j]
  {
    var key := ColumnKeys(a)[j];
    SameCellsSameWidth(engine, key, key, a, b);
  }

  /** `getValueLength` gives 0 for `null` and for a missing key, so a
      column whose sampled cells are all null or missing is exactly as
      wide as its header plus 2. */
  lemma NullOrMissingCells(engine: Engine, key: JsString, records: seq<Json>)
    requires forall i :: 0 <= i < |records| && i < SampleSize ==>
               Get(records[i], key) == Ok(None) || Get(records[i], key) == Ok(Some(Null))
    ensures ColumnWidth(engine, key, records) == |key| + Padding
  {
    forall i | 0 <= i < |records| && i < SampleSize
      ensures CellLength(engine, records[i], key) == Ok(0)
    {
    }
  }

  /** A `null` record among the first 1000 makes `row[key]` throw in
      every column, so every column falls back to width 10; a `null` first
      record gives no columns at all. This is what the width computation
      does with such an array; the converter gets that far only if
      `json_to_sheet`, which runs on the same array first, returns. */
  lemma NullRecordFailsEveryColumn(engine: Engine, records: seq<Json>, n: nat)
    requires n < |records| && n < SampleSize && records[n] == Null
    ensures n == 0 ==> ColWidths(engine, records) == []
    ensures forall j :: 0 <= j < |ColWidths(engine, records)| ==> ColWidths(engine, records)[j] == FallbackWidth
  {
    forall j | 0 <= j < |ColWidths(engine, records)|
      ensures ColWidths(engine, records)[j] == FallbackWidth
    {
      var key := ColumnKeys(records)[j];
      assert CellLength(engine, records[n], key).Thrown?;
      assert ColumnFails(engine, key, records);
    }
  }

  /** A column none of whose sampled cells throws is exactly
      `Math.max(header length, ...cell lengths) + 2`. */
  lemma ColumnWidthExact(engine: Engine, key: JsString, records: seq<Json>, lengths: seq<nat>)
    requires |lengths| == |Sample(records)|
    requires forall i :: 0 <= i < |lengths| ==> CellLength(engine, records[i], key) == Ok(lengths[i])
    ensures ColumnWidth(engine, key, records) == MaxOf(|key|, lengths) + Padding
  {
    var sample := Sample(records);
    forall i | 0 <= i < |sample|
      ensures CellLength(engine, sample[i], key) == Ok(lengths[i])
    {
      assert sample[i] == records[i];
    }
    MeasuredLengths(engine, key, sample, lengths);
  }

  lemma MeasuredLengths(engine: Engine, key: JsString, rows: seq<Json>, lengths: seq<nat>)
    requires |lengths| == |rows|
    requires forall i :: 0 <= i < |rows| ==> CellLength(engine, rows[i], key) == Ok(lengths[i])
    ensures SampledLengths(engine, key, rows) == Ok(lengths)
  {
    var r := SampledLengths(engine, key, rows);
    assert r.Ok?;
    assert |r.value| == |lengths|;
    assert forall i :: 0 <= i < |lengths| ==> r.value[i] == lengths[i];
    assert r.value == lengths;
  }

  /** The header-length floor holds only for columns that do not throw:
      over `[{key: v}, null]` the one column gets width 10, below the
      floor `key.length + 2` as soon as the header is longer than 8. (Like
      `NullRecordFailsEveryColumn`, this presumes `json_to_sheet` returns
      on the array; `StringifyFailureBelowHeader` needs no `null` record.) */
  lemma FallbackBelowHeader(engine: Engine, key: JsString, v: Json)
    requires |key| > FallbackWidth - Padding
    ensures ColumnKeys([Obj([Field(key, v)]), Null]) == [key]
    ensures ColWidths(engine, [Obj([Field(key, v)]), Null]) == [FallbackWidth]
    ensures FallbackWidth < |key| + Padding
  {
    var records := [Obj([Field(key, v)]), Null];
    assert ColumnKeys(records) == [key];
    assert CellLength(engine, records[1], key).Thrown?;
    OneColumn(engine, records);
  }

  /** The same drop below the header floor from a single well-formed
      record: a cell that `JSON.stringify` cannot write (here an array or
      object nested deeper than the engine allows) makes the column fall
      back to width 10 whatever its header. */
  lemma StringifyFailureBelowHeader(engine: Engine, key: JsString, v: Json)
    requires |key| > FallbackWidth - Padding
    requires (v.Arr? || v.Obj?) && Depth(v) > engine.maxNesting
    ensures ColumnKeys([Obj([Field(key, v)])]) == [key]
    ensures ColWidths(engine, [Obj([Field(key, v)])]) == [FallbackWidth]
    ensures FallbackWidth < |key| + Padding
  {
    var records := [Obj([Field(key, v)])];
    assert ColumnKeys(records) == [key];
    assert CellLength(engine, records[0], key).Thrown?;
    OneColumn(engine, records);
  }

  lemma OneColumn(engine: Engine, records: seq<Json>)
    requires |ColumnKeys(records)| == 1
    ensures ColWidths(engine, records) == [ColumnWidth(engine, ColumnKeys(records)[0], records)]
  {
  }

  const Name: JsString := Utf16("name")
  const Age: JsString := Utf16("age")

  /** `[{"name":"Ann","age":10},{"name":"Bo","age":7}]` as parsed. */
  function Students(): seq<Json> {
    [Obj([Field(Name, Str(Utf16("Ann"))), Field(Age, Num(Utf16("10")))]),
     Obj([Field(Name, Str(Utf16("Bo"))), Field(Age, Num(Utf16("7")))])]
  }

  lemma NameCells(engine: Engine)
    ensures CellLength(engine, Students()[0], Name) == Ok(3)
    ensures CellLength(engine, Students()[1], Name) == Ok(2)
  {
    assert |Name| == 4;
  }

  lemma AgeCells(engine: Engine)
    ensures CellLength(engine, Students()[0], Age) == Ok(2)
    ensures CellLength(engine, Students()[1], Age) == Ok(1)
  {
    assert |Name| == 4 && |Age| == 3 && Name != Age;
    var ann := Students()[0].fields;
    var bo := Students()[1].fields;
    assert ann[1..] == [ann[1]] && bo[1..] == [bo[1]];
    assert Lookup(ann, Age) == Some(ann[1].value);
    assert Lookup(bo, Age) == Some(bo[1].value);
  }

  lemma NameWidth(engine: Engine)
    ensures ColumnWidth(engine, Name, Students()) == 6
  {
    assert |Name| == 4;
    NameCells(engine);
    ColumnWidthExact(engine, Name, Students(), [3, 2]);
  }

  lemma AgeWidth(engine: Engine)
    ensures ColumnWidth(engine, Age, Students()) == 5
  {
    assert |Age| == 3;
    AgeCells(engine);
    ColumnWidthExact(engine, Age, Students(), [2, 1]);
  }

  /** The two students give the columns `name` and `age`, in that order,
      of widths max(4, 3, 2) + 2 and max(3, 2, 1) + 2. */
  lemma StudentsExample(engine: Engine)
    ensures ColumnKeys(Students()) == [Name, Age]
    ensures ColWidths(engine, Students()) == [6, 5]
  {
    assert ColumnKeys(Students()) == [Name, Age];
    NameWidth(engine);
    AgeWidth(engine);
    TwoColumns(engine, Students());
  }

  lemma TwoColumns(engine: Engine, records: seq<Json>)
    requires |ColumnKeys(records)| == 2
    ensures ColWidths(engine, records) ==
              [ColumnWidth(engine, ColumnKeys(records)[0], records), ColumnWidth(engine, ColumnKeys(records)[1], records)]
  {
  }
}
