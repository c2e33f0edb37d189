/** Audio files as the concatenation routine sees them: a header and an
    interleaved body of 32-bit signed PCM samples. */
module Samples {

  /** The range of numpy's `int32`, the dtype every body is read and written as. */
  const Int32Min: int := -0x8000_0000
  const Int32Max: int := 0x7fff_ffff

  type Int32 = x: int | Int32Min <= x <= Int32Max

  /** The header fields libsndfile reports for an open file and that the
      output is created with: sample rate, channel count, subtype (the
      sample encoding, such as "PCM_32") and byte order. */
  datatype Header = Header(samplerate: int, channels: int, subtype: string, endian: string)

  /** One audio file: its container kind ("WAV", "RF64", ...), its header
      and its samples, interleaved across channels. */
  datatype AudioFile = AudioFile(container: string, header: Header, samples: seq<Int32>)

  /** Sum of the lengths of a list of bodies. */
  function TotalLength(bodies: seq<seq<Int32>>): nat
  {
    if |bodies| == 0 then 0 else TotalLength(bodies[..|bodies| - 1]) + |bodies[|bodies| - 1]|
  }

  /** The bodies, one after the other, in list order: what appending each
      body to an initially empty stream leaves in the stream. */
  function Flatten(bodies: seq<seq<Int32>>): seq<Int32>
  {
    if |bodies| == 0 then [] else Flatten(bodies[..|bodies| - 1]) + bodies[|bodies| - 1]
  }

  /** Position in the flattened stream at which body `k` starts. */
  function Offset(bodies: seq<seq<Int32>>, k: nat): nat
    requires k <= |bodies|
  {
    TotalLength(bodies[..k])
  }

  /** The bodies of a list of files, in list order. */
  function Bodies(files: seq<AudioFile>): (bodies: seq<seq<Int32>>)
    ensures |bodies| == |files|
    ensures forall i :: 0 <= i < |files| ==> bodies[i] == files[i].samples
  {
    seq(|files|, i requires 0 <= i < |files| => files[i].samples)
  }

  /** Flattening is no longer and no shorter than the bodies together:
      no sample is added or dropped. */
  lemma {:induction false} FlattenLength(bodies: seq<seq<Int32>>)
    ensures |Flatten(bodies)| == TotalLength(bodies)
  {
    if |bodies| > 0 {
      FlattenLength(bodies[..|bodies| - 1]);
    }
  }

  /** Flattening distributes over splitting the list in two. */
  lemma {:induction false} FlattenAppend(a: seq<seq<Int32>>, b: seq<seq<Int32>>)
    ensures Flatten(a + b) == Flatten(a) + Flatten(b)
    decreases |b|
  {
    if |b| == 0 {
      assert a + b == a;
    } else {
      assert (a + b)[..|a + b| - 1] == a + b[..|b| - 1];
      FlattenAppend(a, b[..|b| - 1]);
    }
  }

  /** Body `k` lies, unchanged and in order, at its offset in the flattened
      stream: no sample is altered or reordered, and the bodies do not
      overlap. */
  lemma FlattenSlice(bodies: seq<seq<Int32>>, k: nat)
    requires k < |bodies|
    ensures Offset(bodies, k) + |bodies[k]| <= |Flatten(bodies)|
    ensures Flatten(bodies)[Offset(bodies, k)..Offset(bodies, k) + |bodies[k]|] == bodies[k]
  {
    var before, rest := bodies[..k], bodies[k + 1..];
    assert bodies == before + [bodies[k]] + rest;
    FlattenAppend(before + [bodies[k]], rest);
    FlattenAppend(before, [bodies[k]]);
    assert Flatten([bodies[k]]) == bodies[k] by {
      var one: seq<seq<Int32>> := [bodies[k]];
      assert one[..0] == [];
    }
    FlattenLength(before);
  }

  /** The flattened bodies are exactly the bodies laid end to end. */
  lemma FlattenCharacterised(bodies: seq<seq<Int32>>)
    ensures |Flatten(bodies)| == TotalLength(bodies)
    ensures forall k :: 0 <= k < |bodies| ==>
              Offset(bodies, k) + |bodies[k]| <= |Flatten(bodies)| &&
              Flatten(bodies)[Offset(bodies, k)..Offset(bodies, k) + |bodies[k]|] == bodies[k]
  {
    FlattenLength(bodies);
    forall k | 0 <= k < |bodies|
      ensures Offset(bodies, k) + |bodies[k]| <= |Flatten(bodies)| &&
              Flatten(bodies)[Offset(bodies, k)..Offset(bodies, k) + |bodies[k]|] == bodies[k]
    {
      FlattenSlice(bodies, k);
    }
  }
}
