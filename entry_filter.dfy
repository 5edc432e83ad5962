/** The choice the upload handler makes for each archive entry: the entry
    whose path is exactly `students.json` is read, parsed and converted;
    every other entry is drained unread. */
module EntryFilter {
  import opened JsValue

  const TargetPath: JsString := [0x73, 0x74, 0x75, 0x64, 0x65, 0x6E, 0x74, 0x73, 0x2E, 0x6A, 0x73, 0x6F, 0x6E]  // "students.json"

  datatype Handling = Convert | Drain

  /** `fileName === 'students.json'`: an exact, case-sensitive comparison
      of the whole path. */
  function Handle(path: JsString): (h: Handling)
    ensures h == Convert <==> |path| == |TargetPath| && forall i :: 0 <= i < |path| ==> path[i] == TargetPath[i]
  {
    if path == TargetPath then Convert else Drain
  }

  /** The handling of each entry, in archive order. */
  function HandleAll(paths: seq<JsString>): (handlings: seq<Handling>)
    ensures |handlings| == |paths|
    ensures forall i :: 0 <= i < |paths| ==> (handlings[i] == Convert <==> paths[i] == TargetPath)
  {
    if paths == [] then []
    else
      var rest := HandleAll(paths[1..]);
      assert forall i :: 1 <= i < |paths| ==> paths[i] == paths[1..][i - 1];
      [Handle(paths[0])] + rest
  }

  function Conversions(handlings: seq<Handling>): nat
  {
    if handlings == [] then 0
    else (if handlings[0] == Convert then 1 else 0) + Conversions(handlings[1..])
  }

  /** The converter runs once per entry named exactly `students.json`:
      never when the archive has none (the request then gets no response),
      twice when it has two. */
  lemma {:induction false} ConversionsCountTargets(paths: seq<JsString>)
    ensures Conversions(HandleAll(paths)) == multiset(paths)[TargetPath]
  {
    if paths != [] {
      ConversionsCountTargets(paths[1..]);
      assert paths == [paths[0]] + paths[1..];
      assert multiset(paths) == multiset{paths[0]} + multiset(paths[1..]);
      assert HandleAll(paths)[1..] == HandleAll(paths[1..]);
    }
  }
}
