/** Preparing PCM for the FLAC encoder: 32-bit samples presented as 24-bit ones. */
module Encoder {
  import opened Common

  const SAMPLE_SIZE: nat := 4
  const MAX_BITS_PER_VALUE: nat := 24

  // ---------- Samples ----------

  function Unsigned(b0: byte, b1: byte, b2: byte, b3: byte): (v: nat)
    ensures v < 0x1_0000_0000
  {
    var (v0: int, v1: int, v2: int, v3: int) := (b0, b1, b2, b3);
    v0 + v1 * 0x100 + v2 * 0x1_0000 + v3 * 0x100_0000
  }

  /** What four bytes mean to the encoder: a little-endian 32-bit integer with a sign. */
  function Signed(b0: byte, b1: byte, b2: byte, b3: byte): int {
    var v := Unsigned(b0, b1, b2, b3);
    if v < 0x8000_0000 then v else v - 0x1_0000_0000
  }

  /** The four bytes at a place in a buffer, as the library reads them. */
  function SampleAt(buffer: array<byte>, at: nat): int
    requires at + 4 <= buffer.Length
    reads buffer
  {
    Signed(buffer[at], buffer[at + 1], buffer[at + 2], buffer[at + 3])
  }

  function Sample(pcm: seq<byte>, k: nat): int
    requires 4 * k + 4 <= |pcm|
  {
    Signed(pcm[4 * k], pcm[4 * k + 1], pcm[4 * k + 2], pcm[4 * k + 3])
  }

  /** A sample's unsigned value divided by 256. */
  function Scaled(pcm: seq<byte>, k: nat): nat
    requires 4 * k + 4 <= |pcm|
  {
    Unsigned(pcm[4 * k], pcm[4 * k + 1], pcm[4 * k + 2], pcm[4 * k + 3]) / 256
  }

  /** The map every sample should go through. */
  function Uniform(pcm: seq<byte>): (r: seq<int>)
    requires |pcm| % 4 == 0
  {
    seq(|pcm| / 4, k requires 0 <= k < |pcm| / 4 => Scaled(pcm, k))
  }

  /** The samples of the same bytes read one byte later, with a zero byte at the end. */
  function Shifted(pcm: seq<byte>): (r: seq<int>)
    requires |pcm| % 4 == 0
  {
    seq(|pcm| / 4, k requires 0 <= k < |pcm| / 4 => Sample(pcm[1..] + [0], k))
  }

  /** Every sample's lowest byte set to zero. */
  function Lowered(pcm: seq<byte>): (r: seq<byte>)
    ensures |r| == |pcm|
  {
    seq(|pcm|, i requires 0 <= i < |pcm| => if i % 4 == 0 then 0 else pcm[i])
  }

  // ---------- Laws ----------

  /** The sample read one byte after a place, from bytes that a zero follows. */
  function LateSample(pcm: seq<byte>, at: nat): int
    requires at + 4 <= |pcm|
  {
    Signed(pcm[at + 1], pcm[at + 2], pcm[at + 3], if at + 4 < |pcm| then pcm[at + 4] else 0)
  }

  lemma TwoPartsAreShifted(pcm: seq<byte>, first: seq<int>, last: seq<int>)
    requires |pcm| % 4 == 0 && |first| + |last| == |pcm| / 4
    requires forall k :: 0 <= k < |first| ==> first[k] == LateSample(pcm, 4 * k)
    requires forall k :: 0 <= k < |last| ==> last[k] == LateSample(pcm, |pcm| - 4 * |last| + 4 * k)
    ensures first + last == Shifted(pcm)
  {
    forall k | 0 <= k < |pcm| / 4 ensures Shifted(pcm)[k] == LateSample(pcm, 4 * k) {
    }
  }

  lemma ShiftedSample(pcm: seq<byte>, k: nat)
    requires |pcm| % 4 == 0 && k < |pcm| / 4
    ensures Shifted(pcm)[k] == Uniform(pcm)[k] <==> 4 * k + 4 == |pcm| || pcm[4 * k + 4] == 0
  {
    var b0: int, b1: int, b2: int, b3: int := pcm[4 * k], pcm[4 * k + 1], pcm[4 * k + 2], pcm[4 * k + 3];
    var shifted := pcm[1..] + [0];
    assert shifted[4 * k] == b1 && shifted[4 * k + 1] == b2 && shifted[4 * k + 2] == b3;
    assert Scaled(pcm, k) == b1 + b2 * 0x100 + b3 * 0x1_0000;
    if 4 * k + 4 < |pcm| {
      assert shifted[4 * k + 3] == pcm[4 * k + 4];
    }
  }

  /** The shifted view is the uniform map exactly when the lowest byte of every sample
      but the first is zero. */
  lemma ShiftIsUniformIff(pcm: seq<byte>)
    requires |pcm| % 4 == 0
    ensures Shifted(pcm) == Uniform(pcm) <==> forall k :: 1 <= k < |pcm| / 4 ==> pcm[4 * k] == 0
  {
    forall k | 0 <= k < |pcm| / 4
      ensures Shifted(pcm)[k] == Uniform(pcm)[k] <==> k + 1 == |pcm| / 4 || pcm[4 * (k + 1)] == 0
    {
      ShiftedSample(pcm, k);
    }
    if Shifted(pcm) == Uniform(pcm) {
      forall k | 1 <= k < |pcm| / 4 ensures pcm[4 * k] == 0 {
        assert Shifted(pcm)[k - 1] == Uniform(pcm)[k - 1];
      }
    }
  }

  /** Lowering changes nothing that the uniform map looks at, and once is enough. */
  lemma LoweringIsInvisible(pcm: seq<byte>)
    requires |pcm| % 4 == 0
    ensures Uniform(Lowered(pcm)) == Uniform(pcm) && Lowered(Lowered(pcm)) == Lowered(pcm)
    ensures Shifted(Lowered(pcm)) == Uniform(pcm)
  {
    forall k | 0 <= k < |pcm| / 4 ensures Scaled(Lowered(pcm), k) == Scaled(pcm, k) {
      var low := Lowered(pcm);
      assert low[4 * k] == 0 && low[4 * k + 1] == pcm[4 * k + 1];
      assert low[4 * k + 2] == pcm[4 * k + 2] && low[4 * k + 3] == pcm[4 * k + 3];
      DropLowByte(pcm[4 * k], pcm[4 * k + 1], pcm[4 * k + 2], pcm[4 * k + 3]);
      DropLowByte(0, pcm[4 * k + 1], pcm[4 * k + 2], pcm[4 * k + 3]);
    }
    ShiftIsUniformIff(Lowered(pcm));
  }

  lemma DropLowByte(b0: byte, b1: byte, b2: byte, b3: byte)
    ensures Unsigned(b0, b1, b2, b3) / 256 == Unsigned(b1, b2, b3, 0)
  {
  }

  /** What the uniform map makes of a sample's signed value: the right 24 bits always,
      and the scaled value itself only where the sample is not negative. */
  lemma ScaledAgainstSigned(pcm: seq<byte>, k: nat)
    requires 4 * k + 4 <= |pcm|
    ensures (Scaled(pcm, k) - Sample(pcm, k) / 256) % 0x100_0000 == 0
    ensures Scaled(pcm, k) == Sample(pcm, k) / 256 <==> Sample(pcm, k) >= 0
  {
    var v: int := Unsigned(pcm[4 * k], pcm[4 * k + 1], pcm[4 * k + 2], pcm[4 * k + 3]);
    if v >= 0x8000_0000 {
      assert (v - 0x1_0000_0000) / 256 == v / 256 - 0x100_0000;
    }
  }

  // ---------- In memory ----------

  class Encoder {
    const channels: nat
    const bitsPerValue: nat
    var running: bool
    var downScale: bool

    constructor (channels: nat, bitsPerValue: nat)
      ensures this.channels == channels && this.bitsPerValue == bitsPerValue && !running && !downScale
    {
      this.channels, this.bitsPerValue := channels, bitsPerValue;
      running, downScale := false, false;
    }

    method Start()
      modifies this
      ensures running
      ensures downScale == (old(downScale) || (!old(running) && bitsPerValue > MAX_BITS_PER_VALUE))
    {
      if !running {
        if bitsPerValue > MAX_BITS_PER_VALUE {
          downScale := true;
        }
        running := true;
      }
    }

    /** The encoder library reading `n` samples from a buffer, `offset` bytes in. */
    method ProcessInterleaved(buffer: array<byte>, offset: nat, n: nat) returns (samples: seq<int>)
      requires offset + 4 * n <= buffer.Length
      ensures |samples| == n
      ensures forall k :: 0 <= k < n ==> samples[k] == SampleAt(buffer, offset + 4 * k)
    {
      samples := [];
      for k := 0 to n
        invariant |samples| == k
        invariant forall j :: 0 <= j < k ==> samples[j] == SampleAt(buffer, offset + 4 * j)
      {
        samples := samples + [SampleAt(buffer, offset + 4 * k)];
      }
    }

    /** Zeroes the lowest byte of every sample. */
    method Lower(data: array<byte>, size: nat)
      requires size <= data.Length
      modifies data
      ensures data[..size] == Lowered(old(data[..size])) && data[size..] == old(data[size..])
    {
      var i := 0;
      while i < size
        invariant i % 4 == 0 && i < size + 4
        invariant forall j :: 0 <= j < data.Length ==>
                    data[j] == if j < size && j < i && j % 4 == 0 then 0 else old(data[j])
      {
        data[i] := 0;
        i := i + SAMPLE_SIZE;
      }
    }

    /** The samples handed to the encoder library for a whole number of frames: all but
        the last frame are read in place, one byte further on, and the last one from a
        copy, so that nothing outside the `size` bytes is read. */
    method Encode(data: array<byte>, size: nat) returns (presented: seq<int>)
      requires channels > 0 && size <= data.Length && size % (SAMPLE_SIZE * channels) == 0
      modifies data
      ensures size % 4 == 0
      ensures running ==> presented == if downScale then Uniform(old(data[..size])) else Shifted(old(data[..size]))
      ensures data[..size] == if running && downScale then Lowered(old(data[..size])) else old(data[..size])
      ensures data[size..] == old(data[size..])
      ensures !running ==> presented == []
    {
      presented := [];
      var frames := size / (SAMPLE_SIZE * channels);
      WholeFrames(size, channels, frames);
      if running {
        ghost var was := data[..size];
        if downScale {
          Lower(data, size);
          LoweringIsInvisible(was);
        }
        presented := Present(data, size, frames);
      }
    }

    /** Hands over all frames: all but the last in place, the last from its copy. */
    method Present(data: array<byte>, size: nat, frames: nat) returns (presented: seq<int>)
      requires channels > 0 && size <= data.Length && size % (SAMPLE_SIZE * channels) == 0
      requires frames == size / (SAMPLE_SIZE * channels) && size % 4 == 0
      ensures presented == Shifted(data[..size])
    {
      WholeFrames(size, channels, frames);
      ghost var pcm := data[..size];
      var first := [];
      if frames > 1 {
        first := ProcessInterleaved(data, 1, (frames - 1) * channels);
      }
      if frames > 0 {
        var last := PresentLast(data, size);
        TwoPartsAreShifted(pcm, first, last);
        presented := first + last;
      } else {
        presented := first;
      }
    }

    method PresentLast(data: array<byte>, size: nat) returns (last: seq<int>)
      requires 0 < SAMPLE_SIZE * channels <= size <= data.Length
      ensures |last| == channels
      ensures forall k :: 0 <= k < channels ==>
                last[k] == LateSample(data[..size], size - SAMPLE_SIZE * channels + 4 * k)
    {
      var frame := LastFrame(data, size, SAMPLE_SIZE * channels);
      last := ProcessInterleaved(frame, 0, channels);
    }

    /** A copy of the last frame, one byte further on and ending in zero. */
    method LastFrame(data: array<byte>, size: nat, frameSize: nat) returns (frame: array<byte>)
      requires 0 < frameSize <= size <= data.Length
      ensures fresh(frame) && frame.Length == frameSize
      ensures forall i :: 0 <= i < frameSize ==>
                frame[i] == if i == frameSize - 1 then 0 else data[size - frameSize + i + 1]
    {
      frame := new byte[frameSize];
      var i := frameSize - 1;
      while i > 0
        invariant 0 <= i < frameSize
        invariant forall j :: i <= j < frameSize - 1 ==> frame[j] == data[size - frameSize + j + 1]
      {
        frame[i - 1] := data[size - frameSize + i];
        i := i - 1;
      }
      frame[frameSize - 1] := 0;
    }
  }

  lemma WholeFrames(size: nat, channels: nat, frames: nat)
    requires channels > 0 && size % (SAMPLE_SIZE * channels) == 0 && frames == size / (SAMPLE_SIZE * channels)
    ensures size % 4 == 0
    ensures if frames > 0 then (frames - 1) * channels == size / 4 - channels else size == 0
    ensures frames > 0 ==> channels <= size / 4 && (frames > 1 || channels == size / 4)
  {
    var c := frames * channels;
    assert size == frames * (4 * channels) == 4 * c;
    assert frames > 0 ==> (frames - 1) * channels == c - channels;
    assert frames > 1 ==> (frames - 1) * channels >= channels;
  }
}
