/** `main`: select the inputs, then concatenate them into the output path.
    Reading a file is the parameter `contents`, which gives the audio file
    found at a path. */
module Program {
  import opened Wrappers
  import opened Samples
  import opened Selection
  import opened Concatenation

  /** Why a run produces no output: the selection was refused (nothing is
      opened at all), or the concatenation refused the first fragment. */
  datatype RunError = Usage(usage: UsageError) | Format(format: ConcatError)

  /** The audio files at the given paths, in order. */
  function Open(paths: seq<Path>, contents: Path -> AudioFile): (files: seq<AudioFile>)
    ensures |files| == |paths|
    ensures forall i :: 0 <= i < |paths| ==> files[i] == contents(paths[i])
  {
    seq(|paths|, i requires 0 <= i < |paths| => contents(paths[i]))
  }

  /** One run of the script on a folder: the output path and what is
      written there, or why nothing is. */
  function Run(folder: string, isDir: bool, entries: seq<string>, contents: Path -> AudioFile)
    : (r: Result<(Path, AudioFile), RunError>)
    ensures SelectInputs(folder, isDir, entries).Failure? ==>
              r == Failure(Usage(SelectInputs(folder, isDir, entries).error))
    ensures r.Failure? ==> r.error != Format(NoInputs)
    ensures SelectInputs(folder, isDir, entries).Success? &&
            contents(SelectInputs(folder, isDir, entries).value.inputs[0]).header.subtype != RequiredSubtype ==>
              r == Failure(Format(UnsupportedSubtype(
                     contents(SelectInputs(folder, isDir, entries).value.inputs[0]).header.subtype)))
    ensures r.Success? ==> r.value.0 == Path(folder, OutputFileName)
    ensures r.Success? ==>
              Success(r.value.1) == Concatenate(Open(SelectInputs(folder, isDir, entries).value.inputs, contents))
    ensures r.Success? <==>
              SelectInputs(folder, isDir, entries).Success? &&
              contents(SelectInputs(folder, isDir, entries).value.inputs[0]).header.subtype == RequiredSubtype
  {
    match SelectInputs(folder, isDir, entries)
    case Failure(e) => Failure(Usage(e))
    case Success(choice) =>
      var files := Open(choice.inputs, contents);
      assert files[0] == contents(choice.inputs[0]);
      match Concatenate(files)
      case Failure(e) => Failure(Format(e))
      case Success(out) => Success((choice.output, out))
  }

  /** A folder with fewer than two recordings is refused before any file is
      read: the result does not depend on the files' contents at all. */
  lemma TooFewRecordingsReadsNothing(folder: string, entries: seq<string>,
                                     c1: Path -> AudioFile, c2: Path -> AudioFile)
    requires |Recordings(entries)| < 2
    ensures Run(folder, true, entries, c1) == Run(folder, true, entries, c2)
    ensures Run(folder, true, entries, c1) == Failure(Usage(TooFewRecordings(|Recordings(entries)|)))
  {
  }
}
