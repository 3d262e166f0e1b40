/** Vocabulary shared by the other modules. */
module Common {

  /** One octet. */
  type byte = b: int | 0 <= b < 256

  /** A value that may be absent (the source's `type_safe::optional`). */
  datatype Option<+T> = None | Some(value: T) {
    function UnwrapOr(default: T): T {
      if Some? then value else default
    }
  }

  /** A list, for data that is only ever walked from its head. */
  datatype List<T> = Nil | Cons(head: T, tail: List<T>)

  function Length<T>(xs: List<T>): nat {
    match xs
    case Nil => 0
    case Cons(_, tail) => 1 + Length(tail)
  }

  function Append<T>(xs: List<T>, ys: List<T>): List<T> {
    match xs
    case Nil => ys
    case Cons(x, tail) => Cons(x, Append(tail, ys))
  }

  /** Concatenation of a sequence of sequences. */
  function Flatten<T>(parts: seq<seq<T>>): seq<T> {
    if parts == [] then [] else parts[0] + Flatten(parts[1..])
  }

  /** Flattening distributes over concatenation. */
  lemma {:induction false} FlattenConcat<T>(a: seq<seq<T>>, b: seq<seq<T>>)
    ensures Flatten(a + b) == Flatten(a) + Flatten(b)
  {
    if a == [] {
      assert a + b == b;
    } else {
      assert (a + b)[1..] == a[1..] + b;
      FlattenConcat(a[1..], b);
    }
  }
}

/** The unit that travels from a capture device to the players. */
module Chunks {
  import opened Common

  datatype Chunk = Chunk(
    endOfStream: bool,
    samplingRate: nat,
    channels: nat,
    bytesPerSample: nat,
    payload: seq<byte>,
    frames: nat,
    capturedFrames: nat,
    timestamp: int)

  /** The sum of the frames of a sequence of chunks. */
  function TotalFrames(chunks: seq<Chunk>): nat {
    if chunks == [] then 0 else TotalFrames(chunks[..|chunks| - 1]) + chunks[|chunks| - 1].frames
  }

  lemma TotalAppend(chunks: seq<Chunk>, chunk: Chunk)
    ensures TotalFrames(chunks + [chunk]) == TotalFrames(chunks) + chunk.frames
  {
    assert (chunks + [chunk])[..|chunks|] == chunks;
  }
}
