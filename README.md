# excel-from-zip: the column-width heuristic, in Dafny

The repository is a small Express service. It takes an uploaded ZIP archive,
reads the entry named `students.json`, parses it as a JSON array of records,
and returns it as an XLSX workbook. Nearly all of that work happens in
libraries. The repository's own logic is the column-width heuristic that
`convertJsonToExcel` computes before writing the sheet, plus the test that
picks the entry to convert. This project models both and proves what they
guarantee.

The heuristic works like this:

- The columns are `Object.keys(jsonData[0] || {})`. That is the keys of the
  first record, in that record's order. An empty array gives no columns.
- The width of a column is the largest of the header's length and the cell
  lengths (`getValueLength(row[key])`) over the first 1000 records, plus 2.
- A cell that is `null` or missing measures 0. An array or object measures
  the length of its `JSON.stringify` text. Anything else measures the length
  of its `toString()` text.
- If computing a column throws, that column gets width 10.

Modules:

- `JsValue` (`js_value.dfy`) holds the JavaScript values that `JSON.parse`
  produces. Strings are sequences of UTF-16 code units, so `.length` is the
  number of code units. The module also defines property lookup `row[key]`
  (which throws a TypeError on `null`), `Object.keys`, truthiness, and the
  decimal index keys of arrays and strings.
- `JsonText` (`json_text.dfy`) is `JSON.stringify` without indentation. It
  covers the string escaping rules, including lone surrogates. It can throw a
  RangeError when the value nests deeper than the engine's stack or the text
  is longer than the engine's longest string. Both limits are parameters
  (`Engine`).
- `ColumnWidths` (`column_widths.dfy`) holds `getValueLength`, the
  per-column computation with its try/catch, and the list of widths.
- `WidthLaws` (`width_laws.dfy`) holds the properties that relate several
  calls. They cover where columns come from, the 1000-record cap, empty
  cells, how a failing column is isolated, and worked examples.
- `EntryFilter` (`entry_filter.dfy`) is the exact-name test that picks the
  archive entry to convert.

The code is pure, so everything is written as functions and lemmas. The
width computation's `try`/`catch` becomes an `Outcome` value (`Ok` or
`Thrown`) for each cell and each column.

Two behaviours of the code are worth stating plainly:

- The floor `key.length + 2` holds only for columns that do not fall back.
  The fallback width 10 ignores the header, so a column with a header longer
  than 8 code units can be narrower than its header. One well-formed record
  whose cell `JSON.stringify` cannot write is enough
  (`WidthLaws.StringifyFailureBelowHeader`).
- The fallback is per column. In lines 65-76 a `null` record among the first
  1000 would make `row[key]` throw in every column at once, and every column
  would get width 10 (`WidthLaws.NullRecordFailsEveryColumn`). A `null` first
  record would give no columns at all. This holds only if
  `xlsx.utils.json_to_sheet`, which runs on the same array first (index.js:60),
  returns on such an array. That library is not part of this model.

## Model

| member | source | states |
|---|---|---|
| `JsValue.Decimal` | index.js:65 | the text of n is a non-empty string of decimal digits that starts with "0" only when n is 0 (the form of the keys `Object.keys` gives an array or string) |
| `JsValue.IndexOfDecimal` | index.js:69 | reading the key text of n as an array index gives n back |
| `JsValue.DecimalOfIndex` | index.js:69 | every key that denotes an array index is exactly the text of that index (the converse of IndexOfDecimal) |
| `JsValue.OwnKeys` | index.js:65 | `Object.keys`: the field names of an object in order, n keys denoting the indices 0..n-1 of an array or string of length n, and no keys for anything else (its use is stated by `IndexKeys`, `OwnKeysArePresent` and `OwnKeysDistinct`) |
| `JsValue.OwnKeysDistinct` | index.js:65 | `Object.keys` never lists a key twice, for an array, a string, or an object with one field per name |
| `JsValue.Truthy` | index.js:65 | the falsy values (`null`, `false`, `0`, `NaN`, `""`) have no own keys, so the `{}` fallback never changes the keys |
| `JsValue.IndexKeys` | index.js:65 | the own keys of an array or string of length n are n keys, and the i-th denotes index i |
| `JsValue.Lookup` | index.js:69 | `row[key]` on an object is `undefined` exactly when no field has that name; otherwise it is the value of a field with that name |
| `JsValue.LookupUnique` | index.js:69 | in an object with one field per name, `row[name]` is the value of the field with that name |
| `JsValue.Get` | index.js:69 | `row[key]` throws exactly when the row is `null`, and then with a TypeError; on an object it is the own-field lookup |
| `JsValue.OwnKeysArePresent` | index.js:65 | every key `Object.keys` lists is present in the value it came from; for an array the j-th key reaches the j-th element |
| `JsonText.QuotedBody` | index.js:55 | escaping never shortens a string |
| `JsonText.QuotedBodyIdentity` | index.js:55 | the escaped form of a string equals the string exactly when every code unit stands for itself (no control, quote, backslash or lone surrogate); otherwise it is strictly longer |
| `JsonText.Quoted` | index.js:55 | a quoted string is at least two code units longer than the string |
| `JsonText.Stringify` | index.js:55 | the JSON text of any value is non-empty, and that of an array or object has at least two code units |
| `JsonText.StringifyIn` | index.js:55 | the model's assumed failure behaviour of the engine, not a derived fact: `JSON.stringify` of a parsed value throws only RangeError, exactly when the value nests deeper than the engine allows or its text is longer than the engine's longest string; otherwise it yields the JSON text |
| `ColumnWidths.GetValueLength` | index.js:53-57 | the length is 0 exactly for `undefined`, `null` and the empty string; it throws only for an array or object (a RangeError from `JSON.stringify`); an array or object that does not throw measures at least 2 |
| `ColumnWidths.ScalarText` | index.js:56 | `value.toString()` of a string is the string itself, and the text of a boolean, number or string is empty exactly for `""` |
| `ColumnWidths.CellLength` | index.js:69 | `getValueLength(row[key])` throws a TypeError exactly when the row is `null`; any other throw is a RangeError |
| `ColumnWidths.Sample` | index.js:69 | `slice(0, 1000)` keeps the first min(1000, n) records unchanged |
| `ColumnWidths.SampledLengths` | index.js:69 | the `map` succeeds exactly when every sampled cell succeeds, and then gives each cell's length in order; otherwise it throws the error of the first cell that throws |
| `ColumnWidths.MaxOf` | index.js:67-70 | `Math.max(header, ...lengths)` is at least the header and every length, and equals one of them |
| `ColumnWidths.ColumnFails` | index.js:66-75 | the catch is taken exactly when the sampled `map` throws, that is, when some cell among the first 1000 throws |
| `ColumnWidths.ColumnWidth` | index.js:66-75 | width 10 when some sampled cell throws; otherwise at least header length + 2, at least every sampled cell length + 2, and equal to one of these |
| `ColumnWidths.ColumnKeys` | index.js:65 | no columns for an empty array; otherwise exactly `Object.keys` of the first record, because the `{}` fallback replaces only falsy values, which have no keys |
| `ColumnWidths.ColWidths` | index.js:65-76 | one width per column key, in key order, each the width of its own column |
| `WidthLaws.ColumnsComeFromFirstRecord` | index.js:65 | every column key is present in the first record; appending records changes neither the columns nor their number |
| `WidthLaws.ArrayRecordsByPosition` | index.js:65-69 | when the first record is an array, column j is the key "j", and in an array row it reads element j (or `undefined` past the end) |
| `WidthLaws.SampleCapRespected` | index.js:69 | two record arrays that agree on their first 1000 records get the same widths |
| `WidthLaws.ColumnWidthBySample` | index.js:69 | one column's width depends on the first 1000 records only |
| `WidthLaws.AppendBeyondCap` | index.js:69 | appending records to an array of 1000 or more changes no width |
| `WidthLaws.SameCellsSameWidth` | index.js:66-75 | a column's width is fixed by its header length and by what its sampled cells yield (lengths or throws) |
| `WidthLaws.ColumnWidthIsLocal` | index.js:66-75 | a column keeps its width whatever the other columns hold or throw, as long as its own sampled cells measure the same |
| `WidthLaws.MeasuredLengths` | index.js:69 | when every sampled cell measures, the `map` yields exactly those lengths |
| `WidthLaws.ColumnWidthExact` | index.js:67-71 | a column none of whose sampled cells throws is exactly `Math.max(header length, ...cell lengths) + 2` |
| `WidthLaws.NullOrMissingCells` | index.js:53-71 | a column whose sampled cells are all `null` or missing is exactly header length + 2 wide |
| `WidthLaws.NullRecordFailsEveryColumn` | index.js:65-75 | in the width computation, a `null` record among the first 1000 gives every column width 10, and a `null` first record gives no columns (reached only if `json_to_sheet` returns on such an array) |
| `WidthLaws.FallbackBelowHeader` | index.js:67-74 | over `[{key: v}, null]`, a header longer than 8 gets width 10, below header length + 2 (reached only if `json_to_sheet` returns on such an array) |
| `WidthLaws.StringifyFailureBelowHeader` | index.js:55-74 | over one record `{key: v}` whose array or object `v` nests deeper than the engine allows, a header longer than 8 gets width 10, below header length + 2 |
| `WidthLaws.StudentsExample` | index.js:65-71 | `[{"name":"Ann","age":10},{"name":"Bo","age":7}]` gives the columns `name`, `age`, in that order, of widths 6 and 5 |
| `EntryFilter.Handle` | index.js:31 | `fileName === 'students.json'`: an entry is converted exactly when its path has the same length as `students.json` and the same code unit at every position |
| `EntryFilter.HandleAll` | index.js:31-43 | an entry is converted exactly when its path is `students.json`; every other entry is drained |
| `EntryFilter.ConversionsCountTargets` | index.js:29-44 | the converter runs once per entry whose path is exactly `students.json`, so never for an archive without one |

## Left out

- HTTP routing, the upload form page, multer and `app.listen` (index.js:1-19, 86-88). These are HTTP plumbing.
- ZIP decoding and the `data`/`end`/`error` stream events (index.js:20-49). Only the entry-name decision is modelled. An archive without `students.json` gets no response, because the handler has no branch for the end of the archive. `ConversionsCountTargets` states that the converter then never runs.
- `JSON.parse` (index.js:39). The parsed value is given as a `Json` value. An object's fields are listed in its property enumeration order. V8 lists integer-like keys first, in ascending order, and then the others in insertion order. A key repeated in the text appears once, with its last value. The model takes that order as given and does not compute it.
- What `xlsx.utils.json_to_sheet` (index.js:60) does with a `null` record is not modelled. The width lemmas about `null` records describe lines 65-76 only, on the assumption that the call returns.
- `JsValue.Json`: an object from `JSON.parse` has one field per name. The datatype does not enforce this. `UniqueNames` states it, and `OwnKeysDistinct` and `LookupUnique` require it.
- The input is a JSON array of records. `xlsx.utils.json_to_sheet` runs on the parsed value first (index.js:60). It decides what happens to a top-level value that is not an array.
- `json_to_sheet`, `book_new`, `book_append_sheet`, `xlsx.write` and the `!cols` assignment (index.js:60-62, 77, 79). These are library calls. Building rows and encoding the workbook happen inside them.
- Response headers and sending (index.js:81-83), and the `console.error` logging (index.js:47, 73).
- Number formatting: a number is represented by the text `Number.prototype.toString` gives it. The conversion from a double to that text is not modelled.
- Inherited properties: a key such as `toString`, `constructor` or `__proto__` is found on the prototype in a row that lacks it as an own property, and then `getValueLength` measures a function or `Object.prototype`. The model's lookup sees own properties, array and string indices and `length` only, and treats every other key as `undefined`.
- Engine limits: how deeply `JSON.stringify` can recurse and how long a string can be depend on the engine. They are the parameters `maxNesting` and `maxStringLength` of `JsonText.Engine`, not fixed numbers.
