/** The input-selection part of `parse_args`: the recordings found in the
    input folder, their order, the minimum count and the output path. The
    folder listing and the directory test are inputs to the model. */
module Selection {
  import opened Wrappers
  import opened Glob
  import opened Ordering

  /** Name of the file the concatenation is written to, inside the input folder. */
  const OutputFileName: string := "output.wav"

  /** A file `name` directly inside `folder`: the path `folder / name`. */
  datatype Path = Path(folder: string, name: string)

  /** Why no concatenation is started: the argument is not a directory, or
      it holds fewer than two recording fragments (`found` of them). */
  datatype UsageError = NotADirectory(folder: string) | TooFewRecordings(found: nat)

  /** The fragments to concatenate, in order, and where to write the result. */
  datatype Choice = Choice(inputs: seq<Path>, output: Path)

  /** The entries of a folder listing that the recording pattern matches,
      each kept as often as it occurs. */
  function Recordings(entries: seq<string>): (r: seq<string>)
    ensures forall e :: multiset(r)[e] == if IsRecordingName(e) then multiset(entries)[e] else 0
    decreases |entries|
  {
    if |entries| == 0 then
      []
    else
      var rest := Recordings(entries[1..]);
      assert entries == [entries[0]] + entries[1..];
      if IsRecordingName(entries[0]) then [entries[0]] + rest else rest
  }

  /** The names of a list of paths, in order. */
  function Names(paths: seq<Path>): (names: seq<string>)
    ensures |names| == |paths|
    ensures forall i :: 0 <= i < |paths| ==> names[i] == paths[i].name
  {
    seq(|paths|, i requires 0 <= i < |paths| => paths[i].name)
  }

  /** What `parse_args` decides for the folder `folder` (already expanded and
      resolved), whether it is a directory, and the names it lists. Every
      path it returns lies in `folder`, so ordering the paths is ordering
      their names. */
  function SelectInputs(folder: string, isDir: bool, entries: seq<string>): (r: Result<Choice, UsageError>)
    ensures !isDir ==> r == Failure(NotADirectory(folder))
    ensures isDir && |Recordings(entries)| < 2 ==> r == Failure(TooFewRecordings(|Recordings(entries)|))
    ensures r.Success? <==> isDir && |Recordings(entries)| >= 2
    ensures r.Success? ==> |r.value.inputs| >= 2 && r.value.output == Path(folder, OutputFileName)
    ensures r.Success? ==> forall i :: 0 <= i < |r.value.inputs| ==> r.value.inputs[i].folder == folder
    ensures r.Success? ==> Sorted(Names(r.value.inputs))
    ensures r.Success? ==> multiset(Names(r.value.inputs)) == multiset(Recordings(entries))
  {
    if !isDir then
      Failure(NotADirectory(folder))
    else
      var found := Sort(Recordings(entries));
      if |found| < 2 then
        assert |found| == |multiset(found)| == |Recordings(entries)|;
        Failure(TooFewRecordings(|found|))
      else
        var inputs := seq(|found|, i requires 0 <= i < |found| => Path(folder, found[i]));
        assert Names(inputs) == found;
        Success(Choice(inputs, Path(folder, OutputFileName)))
  }

  /** A name is selected exactly when the folder lists it and the recording
      pattern matches it; and on success there are at least two inputs. */
  lemma SelectedAreExactlyRecordings(folder: string, entries: seq<string>, name: string)
    requires SelectInputs(folder, true, entries).Success?
    ensures var c := SelectInputs(folder, true, entries).value;
            |c.inputs| >= 2 &&
            (Path(folder, name) in c.inputs <==> name in entries && HasRecordingShape(name))
  {
    var c := SelectInputs(folder, true, entries).value;
    var names := Names(c.inputs);
    RecordingNameIffShape(name);
    assert |names| == |multiset(names)| == |multiset(Recordings(entries))| == |Recordings(entries)|;
    if Path(folder, name) in c.inputs {
      var i :| 0 <= i < |c.inputs| && c.inputs[i] == Path(folder, name);
      assert names[i] == name;
      assert multiset(names)[name] > 0;
    }
    if name in entries && HasRecordingShape(name) {
      assert multiset(entries)[name] > 0;
      assert name in multiset(names);
      var i :| 0 <= i < |names| && names[i] == name;
      assert c.inputs[i] == Path(folder, name);
    }
  }

  /** The inputs are the one sorted arrangement of the matching names: any
      other sorted list of exactly those names is the same list. */
  lemma SelectionIsTheSortedOrder(folder: string, entries: seq<string>, other: seq<string>)
    requires SelectInputs(folder, true, entries).Success?
    requires Sorted(other) && multiset(other) == multiset(Recordings(entries))
    ensures Names(SelectInputs(folder, true, entries).value.inputs) == other
  {
    SortedPermutationUnique(Names(SelectInputs(folder, true, entries).value.inputs), other);
  }
}
