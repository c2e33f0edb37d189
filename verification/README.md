# X-LIVE recording concatenation, modelled in Dafny

`x_live_rec_concat.py` joins the fragments an X-LIVE recorder writes
during one long recording (files named like `20240101 12.30.00.WAV`) into one
`output.wav` in the same folder. This project models its two pieces of logic
over plain data, without any file access:

- **Concatenation** (`concatenate_wav_files`): the first fragment's subtype
  must be `PCM_32`, otherwise the routine stops before the output is created.
  The output takes the first fragment's sample rate, channel count, subtype
  and byte order, and its container is always `RF64`. Its body is every
  fragment's interleaved `int32` samples, in list order, the first fragment
  included. Later fragments' headers are never looked at; the model keeps that
  trust and does not add a per-file check.
- **Selection** (`parse_args`): keep the folder entries that match the fixed
  pattern (eight digits, a space, `dd.dd.dd`, `.WAV`), sort them, refuse when
  fewer than two remain, and name the output `output.wav` in the same folder.
- **main** composes the two.

Files and modules:

- `wrappers.dfy` (`Wrappers`): `Result`.
- `samples.dfy` (`Samples`): `Int32`, `Header` (samplerate, channels,
  subtype, endian), `AudioFile` (container, header, interleaved samples).
  Also `Flatten`, the reference definition of "every body appended in
  order", with its length and position lemmas.
- `concatenate.dfy` (`Concatenation`): `Concatenate` is the routine as a
  function. `ConcatenateWavFiles` is the routine step by step, with the
  sequence of visible events (header read, output created, one copy per
  input).
- `glob.dfy` (`Glob`): the recording pattern, position by position, and its
  equivalence with an independently written name shape.
- `ordering.dfy` (`Ordering`): Python's code-point string order, and an
  insertion sort proved to produce the unique sorted permutation.
- `selection.dfy` (`Selection`): the selection rule of `parse_args`.
- `program.dfy` (`Program`): `main`.

Modelling choices:

- The folder listing is a `seq<string>` of entry names in any order.
  `is_dir()` is a boolean input. The folder is taken as already expanded and
  resolved.
- Reading a file is a function parameter `Path -> AudioFile`.
- Every discovered path lies in the same folder. Comparing such `Path`
  objects therefore compares their final names, so the model sorts names.
- An empty input list makes the source's `input_file_paths[0]` raise. The
  model returns `NoInputs` instead of placing a precondition on the caller.
  `Run` proves this case never arises after a successful selection.
- Only the first input's subtype is checked; later inputs are trusted and
  contribute their samples whatever their headers say.
- Each file is copied with one `buffer_read`/`buffer_write` pair, so the
  model appends whole bodies and there are no chunks.
- Both refusals in `parse_args` call `sys.exit()` with no argument, which
  exits with status 0. The model returns a `UsageError` and claims no exit
  status. A first file that is not `PCM_32` instead raises
  `NotImplementedError`, which the model returns as a `Format` error.

## Model

| member | source | states |
|---|---|---|
| Concatenation.Concatenate | x_live_rec_concat.py:17-29 | Fails with `NoInputs` on an empty list. Fails with `UnsupportedSubtype` exactly when the first input's subtype is not `PCM_32`, and succeeds otherwise, whatever the later headers say. On success the header equals the first input's header, the container is `RF64`, the length is the sum of the input lengths, and each input's body sits unchanged at its offset. |
| Concatenation.ConcatenateWavFiles | x_live_rec_concat.py:17-29 | The step-by-step routine agrees with `Concatenate`. The header read comes first. On failure no output is ever created. On success the output is created once, second, followed by exactly one whole-body copy per input, in list order. |
| Concatenation.OnlyFirstHeaderInspected | x_live_rec_concat.py:18-29 | Two input lists with the same first header and the same bodies give identical results. Later inputs' headers and containers have no influence. |
| Concatenation.FirstAndLastBodies | x_live_rec_concat.py:26-29 | On success the first input's body is a prefix of the output and the last input's body is its suffix, so the first input is copied too. |
| Concatenation.AppendInput | x_live_rec_concat.py:26-29 | Adding one more input appends exactly its body to the output and leaves everything before it unchanged. |
| Concatenation.TwoStereoFragments | x_live_rec_concat.py:17-29 | Stereo bodies [1,-1,2,-2] and [3,-3] give [1,-1,2,-2,3,-3] with the first file's header in an `RF64` container. |
| Samples.FlattenLength | x_live_rec_concat.py:26-29 | Appending the bodies in order yields exactly as many samples as the bodies hold together. |
| Samples.FlattenAppend | x_live_rec_concat.py:26-29 | Appending the bodies of two consecutive runs of inputs is the same as appending the two results. |
| Samples.FlattenSlice | x_live_rec_concat.py:26-29 | Body `k` appears unchanged, in order, at offset "total length of bodies before `k`", so no sample is altered, dropped or reordered. |
| Glob.RecordingNameIffShape | x_live_rec_concat.py:14 | A name matches the pattern if and only if it has the recording shape. |
| Glob.LowerCaseExtensionRejected | x_live_rec_concat.py:14 | The extension match is case-exact: `.wav` is not taken, `.WAV` is. |
| Ordering.LexLeTotal | x_live_rec_concat.py:47 | Any two names are comparable in code-point order. |
| Ordering.LexLeTransitive | x_live_rec_concat.py:47 | Code-point order is transitive. |
| Ordering.LexLeAntisymmetric | x_live_rec_concat.py:47 | Names that precede each other are equal. |
| Ordering.Insert | x_live_rec_concat.py:47 | Inserting into a sorted list keeps it sorted and adds exactly the one element. |
| Ordering.Sort | x_live_rec_concat.py:47 | The result is sorted and is a permutation of the input. |
| Ordering.SortedPermutationUnique | x_live_rec_concat.py:47 | Two sorted permutations of the same names are equal, so any correct sort, `sorted` included, yields `Sort`'s result. |
| Selection.Recordings | x_live_rec_concat.py:47 | Each entry the pattern matches is kept exactly as often as the listing holds it, and no other entry is kept. |
| Selection.SelectInputs | x_live_rec_concat.py:41-63 | Not a directory gives `NotADirectory`. With fewer than two matching names it gives `TooFewRecordings` with their count. It succeeds exactly otherwise, and then returns at least two inputs, all in the folder, whose names are sorted and are a permutation of the matching names, with output `folder / output.wav`. |
| Selection.SelectedAreExactlyRecordings | x_live_rec_concat.py:14-47 | On success a path `folder / name` is selected if and only if the listing contains `name` and `name` has the recording shape. |
| Selection.SelectionIsTheSortedOrder | x_live_rec_concat.py:47 | The selected names equal every sorted list that holds exactly the matching names. |
| Program.Run | x_live_rec_concat.py:17-68 | A refused selection is returned unchanged as a usage error. `NoInputs` never occurs. The run succeeds exactly when the selection succeeds and the first selected file is `PCM_32`; when that file is not `PCM_32` the error is `Format(UnsupportedSubtype(subtype))`. Then it writes `Concatenate` of the selected files, in order, to `folder / output.wav`. |
| Program.TooFewRecordingsReadsNothing | x_live_rec_concat.py:49-51 | With fewer than two matching names the run fails with `TooFewRecordings`, and the result is the same whatever the files contain, so concatenation is never reached. |

## Left out

- Logging (`Processing file i/N`, found files, the overwrite warning at lines 58-61): it has no effect on the result.
- argparse, `expanduser().resolve()` and the real directory scan: the folder is given resolved, `is_dir()` is a boolean and the listing is a sequence of names.
- The exact process exit: both refusals call `sys.exit()`, which exits with status 0. They are modelled as `UsageError` values.
- libsndfile and soundfile behaviour is library code this model cannot see:
  - RF64/WAV header parsing and writing, and size-field finalisation on close.
  - The `ValueError` `buffer_write` raises when a buffer is not a whole number of output frames.
  - The conversion `buffer_read` applies when a later file is not 32-bit PCM.
  - Open and I/O failures, including overwriting an existing `output.wav`.
  Bodies are modelled as the `int32` samples that come out of `buffer_read`.
- Glob semantics beyond this pattern: the pattern is given position by position, and the model does not parse the glob string itself. Also left out are case-insensitive matching on Windows and the fact that a directory named like a recording would also be listed.
- Concatenation.ConcatenateWavFiles: its `CopyBody` event joins opening, reading and writing one input into a single step. The order of these inside the step is not modelled.
- Memory and streaming bounds: the code reads each file with a single `buffer_read`, so there is no chunking to model.
