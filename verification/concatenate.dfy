/** The concatenation routine `concatenate_wav_files`: the format gate on
    the first input, the output header copied from it, and the bodies of
    every input appended in list order. */
module Concatenation {
  import opened Wrappers
  import opened Samples

  /** The only sample encoding the routine accepts in its first input. */
  const RequiredSubtype: string := "PCM_32"

  /** The output is always written in the large-file WAV variant. */
  const OutputContainer: string := "RF64"

  /** Why the routine stops: the input list is empty (indexing its first
      element fails) or the first input is not 32-bit PCM. */
  datatype ConcatError = NoInputs | UnsupportedSubtype(subtype: string)

  /** The externally visible steps of the routine, in the order they happen:
      opening the first input to read its header, creating the output, and
      copying the whole body of input `index` (`count` samples) into it. */
  datatype Event =
    | ReadHeader(index: nat)
    | CreateOutput(container: string, header: Header)
    | CopyBody(index: nat, count: nat)

  /** What `concatenate_wav_files` produces from its inputs. Only the first
      input's header is inspected; every later input contributes its body
      and nothing else. */
  function Concatenate(inputs: seq<AudioFile>): (r: Result<AudioFile, ConcatError>)
    ensures |inputs| == 0 ==> r == Failure(NoInputs)
    ensures |inputs| > 0 && inputs[0].header.subtype != RequiredSubtype ==>
              r == Failure(UnsupportedSubtype(inputs[0].header.subtype))
    ensures r.Success? <==> |inputs| > 0 && inputs[0].header.subtype == RequiredSubtype
    ensures r.Success? ==> r.value.container == OutputContainer && r.value.header == inputs[0].header
    ensures r.Success? ==> |r.value.samples| == TotalLength(Bodies(inputs))
    ensures r.Success? ==>
              forall k :: 0 <= k < |inputs| ==>
                var at := Offset(Bodies(inputs), k);
                at + |inputs[k].samples| <= |r.value.samples| &&
                r.value.samples[at..at + |inputs[k].samples|] == inputs[k].samples
  {
    if |inputs| == 0 then
      Failure(NoInputs)
    else if inputs[0].header.subtype != RequiredSubtype then
      Failure(UnsupportedSubtype(inputs[0].header.subtype))
    else
      FlattenCharacterised(Bodies(inputs));
      Success(AudioFile(OutputContainer, inputs[0].header, Flatten(Bodies(inputs))))
  }

  /** The routine step by step: the header check happens before the output
      is created, and each input is then copied whole, in list order. */
  method ConcatenateWavFiles(inputs: seq<AudioFile>) returns (r: Result<AudioFile, ConcatError>, trace: seq<Event>)
    ensures r == Concatenate(inputs)
    ensures |inputs| == 0 ==> trace == []
    ensures |inputs| > 0 ==> |trace| > 0 && trace[0] == ReadHeader(0)
    ensures r.Failure? ==> forall e :: e in trace ==> !e.CreateOutput?
    ensures r.Success? ==>
              |trace| == 2 + |inputs| && trace[1] == CreateOutput(OutputContainer, inputs[0].header)
    ensures r.Success? ==>
              forall i :: 0 <= i < |inputs| ==> trace[2..][i] == CopyBody(i, |inputs[i].samples|)
  {
    if |inputs| == 0 {
      return Failure(NoInputs), [];
    }
    trace := [ReadHeader(0)];
    var meta := inputs[0].header;
    if meta.subtype != RequiredSubtype {
      return Failure(UnsupportedSubtype(meta.subtype)), trace;
    }
    trace := trace + [CreateOutput(OutputContainer, meta)];
    var written: seq<Int32> := [];
    var i := 0;
    while i < |inputs|
      invariant 0 <= i <= |inputs|
      invariant written == Flatten(Bodies(inputs)[..i])
      invariant |trace| == 2 + i
      invariant trace[0] == ReadHeader(0) && trace[1] == CreateOutput(OutputContainer, meta)
      invariant forall m :: 0 <= m < i ==> trace[2..][m] == CopyBody(m, |inputs[m].samples|)
    {
      assert Bodies(inputs)[..i + 1][..i] == Bodies(inputs)[..i];
      trace := trace + [CopyBody(i, |inputs[i].samples|)];
      written := written + inputs[i].samples;
      i := i + 1;
    }
    assert Bodies(inputs)[..i] == Bodies(inputs);
    r := Success(AudioFile(OutputContainer, meta, written));
  }

  /** Later inputs are trusted: two input lists whose first headers agree and
      whose bodies agree give the same result, whatever the later inputs'
      headers and containers say. */
  lemma OnlyFirstHeaderInspected(a: seq<AudioFile>, b: seq<AudioFile>)
    requires |a| == |b| && |a| > 0 && a[0].header == b[0].header
    requires forall i :: 0 <= i < |a| ==> a[i].samples == b[i].samples
    ensures Concatenate(a) == Concatenate(b)
  {
    assert Bodies(a) == Bodies(b);
  }

  /** The first input's body opens the output, and the last input's body
      closes it. */
  lemma FirstAndLastBodies(inputs: seq<AudioFile>)
    requires Concatenate(inputs).Success?
    ensures inputs[0].samples <= Concatenate(inputs).value.samples
    ensures var out := Concatenate(inputs).value.samples;
            |inputs[|inputs| - 1].samples| <= |out| &&
            out[|out| - |inputs[|inputs| - 1].samples|..] == inputs[|inputs| - 1].samples
  {
  }

  /** Appending to a longer list appends the new body to the output and
      changes nothing before it. */
  lemma AppendInput(inputs: seq<AudioFile>, next: AudioFile)
    requires Concatenate(inputs).Success?
    ensures Concatenate(inputs + [next]).Success?
    ensures Concatenate(inputs + [next]).value.samples == Concatenate(inputs).value.samples + next.samples
  {
    assert Bodies(inputs + [next])[..|inputs|] == Bodies(inputs);
  }

  /** Two stereo recordings, [[1,-1],[2,-2]] then [[3,-3]], give
      [[1,-1],[2,-2],[3,-3]] with the first file's format. */
  lemma TwoStereoFragments()
    ensures var h := Header(48000, 2, "PCM_32", "FILE");
            var a := AudioFile("WAV", h, [1, -1, 2, -2]);
            var b := AudioFile("WAV", h, [3, -3]);
            Concatenate([a, b]) == Success(AudioFile("RF64", h, [1, -1, 2, -2, 3, -3]))
  {
    var h := Header(48000, 2, "PCM_32", "FILE");
    var a := AudioFile("WAV", h, [1, -1, 2, -2]);
    var b := AudioFile("WAV", h, [3, -3]);
    var bodies: seq<seq<Int32>> := Bodies([a, b]);
    assert bodies == [a.samples, b.samples];
    var first: seq<seq<Int32>> := bodies[..1];
    assert first == [a.samples];
    assert first[..0] == [];
    assert Flatten(first) == a.samples;
    assert Flatten(bodies) == a.samples + b.samples;
    assert a.samples + b.samples == [1, -1, 2, -2, 3, -3];
  }
}
