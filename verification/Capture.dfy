/** Capturing PCM from a device: filtering marker-tagged frames into chunks. */
module Capture {
  import opened Common
  import opened Chunks

  /** One sample of every channel. The last channel carries no sound: its last
      byte is the stream marker, and the rest of the frame is payload. */
  datatype Frame = Frame(payload: seq<byte>, marker: byte)

  const BEGINNING_OF_STREAM: byte := 1
  const END_OF_STREAM: byte := 2
  const DATA: byte := 3

  // ---------- The filter, one frame at a time ----------

  /** Whether the stream is on after a frame. */
  function Toggle(producing: bool, f: Frame): bool {
    if f.marker == BEGINNING_OF_STREAM then true
    else if f.marker == END_OF_STREAM then false
    else producing
  }

  /** The filter's memory: whether the stream is on, and the data frames found
      between begin and end markers so far. */
  datatype Filter = Filter(producing: bool, selected: seq<Frame>)

  function FilterFrame(s: Filter, f: Frame): Filter {
    Filter(Toggle(s.producing, f), if Active(s.producing, f) then s.selected + [f] else s.selected)
  }

  predicate Active(producing: bool, f: Frame) {
    producing && f.marker == DATA
  }

  function FilterFrames(s: Filter, frames: List<Frame>): Filter
    decreases frames
  {
    match frames
    case Nil => s
    case Cons(f, rest) => FilterFrames(FilterFrame(s, f), rest)
  }

  /** Whether the stream is on after all the frames. */
  function Producing(producing: bool, frames: List<Frame>): bool {
    FilterFrames(Filter(producing, []), frames).producing
  }

  /** The data frames between begin and end markers. */
  function Selected(producing: bool, frames: List<Frame>): seq<Frame> {
    FilterFrames(Filter(producing, []), frames).selected
  }

  function Payload(frames: seq<Frame>): seq<byte> {
    if frames == [] then [] else Payload(frames[..|frames| - 1]) + frames[|frames| - 1].payload
  }

  lemma {:induction false} FilterSequence(s: Filter, a: List<Frame>, b: List<Frame>)
    ensures FilterFrames(s, Append(a, b)) == FilterFrames(FilterFrames(s, a), b)
    decreases a
  {
    if a.Cons? {
      FilterSequence(FilterFrame(s, a.head), a.tail, b);
    }
  }

  /** What was selected before does not influence what is selected next. */
  lemma {:induction false} FilterForgets(s: Filter, frames: List<Frame>)
    ensures FilterFrames(s, frames).producing == Producing(s.producing, frames)
    ensures FilterFrames(s, frames).selected == s.selected + Selected(s.producing, frames)
    decreases frames
  {
    if frames.Cons? {
      FilterForgets(FilterFrame(s, frames.head), frames.tail);
      FilterForgets(FilterFrame(Filter(s.producing, []), frames.head), frames.tail);
    }
  }

  /** Filtering is compositional. */
  lemma FilterConcat(producing: bool, a: List<Frame>, b: List<Frame>)
    ensures Producing(producing, Append(a, b)) == Producing(Producing(producing, a), b)
    ensures Selected(producing, Append(a, b)) == Selected(producing, a) + Selected(Producing(producing, a), b)
  {
    FilterSequence(Filter(producing, []), a, b);
    FilterForgets(FilterFrames(Filter(producing, []), a), b);
  }

  lemma {:induction false} PayloadConcat(a: seq<Frame>, b: seq<Frame>)
    ensures Payload(a + b) == Payload(a) + Payload(b)
    decreases |b|
  {
    if b == [] {
      assert a + b == a;
    } else {
      var last := |b| - 1;
      assert (a + b)[..|a + b| - 1] == a + b[..last];
      PayloadConcat(a, b[..last]);
    }
  }

  lemma PayloadAppend(a: seq<Frame>, f: Frame)
    ensures Payload(a + [f]) == Payload(a) + f.payload
  {
    assert (a + [f])[..|a|] == a;
  }

  // ---------- Whole reads ----------

  datatype Parameters = Parameters(channels: nat, bytesPerSample: nat, samplingRate: nat, framesPerChunk: nat)

  ghost predicate ValidParameters(p: Parameters) {
    p.channels > 0 && p.bytesPerSample > 0
  }

  /** What the producer thread remembers between two reads of the device. */
  datatype State = State(producing: bool, isBeginningOfStream: bool, capturedFrames: nat)

  const INITIAL: State := State(false, true, 0)

  /** A read of the device, and whether the queue then had room for a chunk. */
  datatype Read = Read(frames: List<Frame>, room: bool, timestamp: int)

  function DataChunk(p: Parameters, st: State, frames: seq<Frame>, timestamp: int): Chunk
    requires p.channels > 0
  {
    Chunk(false, p.samplingRate, p.channels - 1, p.bytesPerSample,
          Payload(frames), |frames|, st.capturedFrames + |frames|, timestamp)
  }

  function EndChunk(p: Parameters, st: State, timestamp: int): Chunk
    requires p.channels > 0
  {
    Chunk(true, p.samplingRate, p.channels - 1, p.bytesPerSample, [], 0, st.capturedFrames, timestamp)
  }

  /** The effect of one read in terms of the filter alone. */
  function OnRead(p: Parameters, st: State, r: Read): (State, Option<Chunk>)
    requires ValidParameters(p)
  {
    var selected := Selected(st.producing, r.frames);
    if r.frames.Nil? then (st, None)
    else if selected != [] then
      if r.room then
        (State(Producing(st.producing, r.frames), false, st.capturedFrames + |selected|),
         Some(DataChunk(p, st, selected, r.timestamp)))
      else
        (st.(producing := true), None)
    else
      var st' := st.(producing := Producing(st.producing, r.frames));
      if !st.isBeginningOfStream && r.room then
        (st'.(isBeginningOfStream := true), Some(EndChunk(p, st, r.timestamp)))
      else
        (st', None)
  }

  /** The state after a sequence of reads, and the chunks enqueued meanwhile. */
  function Run(p: Parameters, history: seq<Read>): (State, seq<Chunk>)
    requires ValidParameters(p)
  {
    if history == [] then (INITIAL, [])
    else
      var (st, chunks) := Run(p, history[..|history| - 1]);
      var (st', chunk) := OnRead(p, st, history[|history| - 1]);
      (st', if chunk.Some? then chunks + [chunk.value] else chunks)
  }

  /** The grammar (data+ end)* data*: an end chunk closes a non-empty run of data
      chunks; data chunks carry frames and end chunks carry none. */
  ghost predicate InGrammar(chunks: seq<Chunk>) {
    && (forall i :: 0 <= i < |chunks| ==> (chunks[i].endOfStream <==> chunks[i].frames == 0))
    && (forall i :: 0 <= i < |chunks| && chunks[i].endOfStream ==> i > 0 && !chunks[i - 1].endOfStream)
  }

  /** Every chunk carries the number of frames captured up to and including it. */
  ghost predicate CountsFrames(chunks: seq<Chunk>) {
    forall i :: 0 <= i < |chunks| ==> chunks[i].capturedFrames == TotalFrames(chunks[..i + 1])
  }

  /** A chunk that may come next: data always, an end only after data. */
  ghost predicate Follows(chunks: seq<Chunk>, c: Chunk) {
    && (c.endOfStream <==> c.frames == 0)
    && (c.endOfStream ==> chunks != [] && !chunks[|chunks| - 1].endOfStream)
    && c.capturedFrames == TotalFrames(chunks) + c.frames
  }

  lemma AppendKeepsGrammar(chunks: seq<Chunk>, c: Chunk)
    requires InGrammar(chunks) && CountsFrames(chunks) && Follows(chunks, c)
    ensures InGrammar(chunks + [c]) && CountsFrames(chunks + [c])
    ensures TotalFrames(chunks + [c]) == c.capturedFrames
  {
    TotalAppend(chunks, c);
    AppendCounts(chunks, c);
  }

  lemma AppendCounts(chunks: seq<Chunk>, c: Chunk)
    requires CountsFrames(chunks) && c.capturedFrames == TotalFrames(chunks + [c])
    ensures CountsFrames(chunks + [c])
  {
    var longer := chunks + [c];
    forall i | 0 <= i < |longer| ensures longer[i].capturedFrames == TotalFrames(longer[..i + 1]) {
      if i < |chunks| {
        assert longer[..i + 1] == chunks[..i + 1];
      } else {
        assert longer[..i + 1] == longer;
      }
    }
  }

  /** How the producer's memory reflects the chunks enqueued so far. */
  ghost predicate Linked(st: State, chunks: seq<Chunk>) {
    && InGrammar(chunks)
    && CountsFrames(chunks)
    && st.capturedFrames == TotalFrames(chunks)
    && (st.isBeginningOfStream <==> chunks == [] || chunks[|chunks| - 1].endOfStream)
  }

  lemma ReadKeepsLinked(p: Parameters, st: State, r: Read, chunks: seq<Chunk>)
    requires ValidParameters(p) && Linked(st, chunks)
    ensures var (st', chunk) := OnRead(p, st, r);
            Linked(st', if chunk.Some? then chunks + [chunk.value] else chunks)
  {
    var (st', chunk) := OnRead(p, st, r);
    if chunk.Some? {
      AppendKeepsGrammar(chunks, chunk.value);
    }
  }

  /** Whatever the device delivers and wherever the queue overflows. */
  lemma {:induction false} CapturedChunkGrammar(p: Parameters, history: seq<Read>)
    requires ValidParameters(p)
    ensures Linked(Run(p, history).0, Run(p, history).1)
  {
    if history != [] {
      var before := history[..|history| - 1];
      CapturedChunkGrammar(p, before);
      ReadKeepsLinked(p, Run(p, before).0, history[|history| - 1], Run(p, before).1);
    }
  }

  /** A read whose first active frame starts `rest`. */
  lemma ActiveRead(p: Parameters, st: State, r: Read, rest: List<Frame>)
    requires ValidParameters(p) && r.frames.Cons?
    requires FilterFrames(Filter(st.producing, []), r.frames) == FilterFrames(Filter(true, []), rest)
    requires rest.Cons? && rest.head.marker == DATA
    ensures OnRead(p, st, r)
         == if r.room then
              (State(Producing(true, rest), false, st.capturedFrames + |Selected(true, rest)|),
               Some(DataChunk(p, st, Selected(true, rest), r.timestamp)))
            else
              (st.(producing := true), None)
  {
    FilterForgets(Filter(true, [rest.head]), rest.tail);
    assert FilterFrame(Filter(true, []), rest.head) == Filter(true, [rest.head]);
  }

  /** All the frames read, in order. */
  function AllFrames(history: seq<Read>): List<Frame> {
    if history == [] then Nil else Append(AllFrames(history[..|history| - 1]), history[|history| - 1].frames)
  }

  /** All the payload bytes enqueued, in order. */
  function AllPayload(chunks: seq<Chunk>): seq<byte> {
    if chunks == [] then [] else AllPayload(chunks[..|chunks| - 1]) + chunks[|chunks| - 1].payload
  }

  /** State and chunks agree with one pass of the filter over the frames. */
  ghost predicate Filtered(st: State, chunks: seq<Chunk>, frames: List<Frame>) {
    && st.producing == Producing(false, frames)
    && AllPayload(chunks) == Payload(Selected(false, frames))
    && TotalFrames(chunks) == |Selected(false, frames)|
  }

  /** The filter property after a whole history. */
  ghost predicate FilteredAfter(p: Parameters, history: seq<Read>)
    requires ValidParameters(p)
  {
    Filtered(Run(p, history).0, Run(p, history).1, AllFrames(history))
  }

  /** The i-th read selects nothing or finds room. */
  ghost predicate Fits(history: seq<Read>, i: nat)
    requires i < |history|
  {
    history[i].room || Selected(Producing(false, AllFrames(history[..i])), history[i].frames) == []
  }

  ghost predicate NothingLost(history: seq<Read>) {
    forall i :: 0 <= i < |history| ==> Fits(history, i)
  }

  /** A read keeps the filter property exactly when it selects nothing or finds room. */
  lemma ReadIsFilteredIff(p: Parameters, st: State, r: Read, chunks: seq<Chunk>, frames: List<Frame>)
    requires ValidParameters(p) && Filtered(st, chunks, frames)
    ensures var (st', chunk) := OnRead(p, st, r);
            Filtered(st', if chunk.Some? then chunks + [chunk.value] else chunks, Append(frames, r.frames))
            <==> r.room || Selected(st.producing, r.frames) == []
  {
    FilterConcat(false, frames, r.frames);
    var selected := Selected(st.producing, r.frames);
    PayloadConcat(Selected(false, frames), selected);
    var (_, chunk) := OnRead(p, st, r);
    if chunk.Some? {
      assert (chunks + [chunk.value])[..|chunks|] == chunks;
    }
  }

  lemma LastRead(p: Parameters, history: seq<Read>)
    requires ValidParameters(p) && history != []
    requires FilteredAfter(p, history[..|history| - 1])
    ensures FilteredAfter(p, history) <==> Fits(history, |history| - 1)
  {
    var before := history[..|history| - 1];
    ReadIsFilteredIff(p, Run(p, before).0, history[|history| - 1], Run(p, before).1, AllFrames(before));
  }

  lemma PrefixLosesNothing(history: seq<Read>, n: nat)
    requires n <= |history| && NothingLost(history)
    ensures NothingLost(history[..n])
  {
    forall i | 0 <= i < n ensures Fits(history[..n], i) {
      assert Fits(history, i);
      assert history[..n][..i] == history[..i];
    }
  }

  /** When no read with selected frames found the queue full, what is enqueued is
      exactly what one pass of the filter over all the frames selects. */
  lemma {:induction false} CaptureIsOneFilter(p: Parameters, history: seq<Read>)
    requires ValidParameters(p) && NothingLost(history)
    ensures Filtered(Run(p, history).0, Run(p, history).1, AllFrames(history))
  {
    if history != [] {
      PrefixLosesNothing(history, |history| - 1);
      CaptureIsOneFilter(p, history[..|history| - 1]);
      LastRead(p, history);
      assert Fits(history, |history| - 1);
    }
  }

  /** The filter property holds all along a history exactly when no read with
      selected frames found the queue full. */
  lemma FilteredThroughoutIff(p: Parameters, history: seq<Read>)
    requires ValidParameters(p)
    ensures (forall n :: 0 <= n <= |history| ==> FilteredAfter(p, history[..n])) <==> NothingLost(history)
  {
    if NothingLost(history) {
      forall n | 0 <= n <= |history| ensures FilteredAfter(p, history[..n]) {
        PrefixLosesNothing(history, n);
        CaptureIsOneFilter(p, history[..n]);
      }
    }
    if forall n :: 0 <= n <= |history| ==> FilteredAfter(p, history[..n]) {
      forall i | 0 <= i < |history| ensures Fits(history, i) {
        var h := history[..i + 1];
        assert h[..i] == history[..i];
        assert FilteredAfter(p, history[..i]) && FilteredAfter(p, h);
        LastRead(p, h);
        assert Fits(h, i);
      }
    }
  }

  // ---------- Which chunks are enqueued ----------

  /** A stream is open: something was enqueued, and not its end. */
  predicate StreamIsOpen(chunks: seq<Chunk>) {
    chunks != [] && !chunks[|chunks| - 1].endOfStream
  }

  /** The chunk, if any, that a read adds to those enqueued before, and when: data exactly
      if a frame was selected, an end exactly if none was, frames were read and a stream is
      open; either only if there is room. */
  ghost predicate Adds(p: Parameters, before: seq<Chunk>, selected: seq<Frame>, r: Read, after: seq<Chunk>) {
    && (after == before || (|after| == |before| + 1 && after[..|before|] == before))
    && (|after| > |before| && !after[|before|].endOfStream <==> r.room && selected != [])
    && (|after| > |before| && after[|before|].endOfStream
        <==> r.room && selected == [] && r.frames.Cons? && StreamIsOpen(before))
    && (|after| > |before| ==>
          var c := after[|before|];
          && c.timestamp == r.timestamp && c.payload == Payload(selected) && c.frames == |selected|
          && c.samplingRate == p.samplingRate && c.channels == p.channels - 1 && c.bytesPerSample == p.bytesPerSample)
  }

  /** On every history, overflows included: exactly what the last read added. */
  lemma {:induction false} EnqueuedExactlyIf(p: Parameters, history: seq<Read>)
    requires ValidParameters(p) && history != []
    ensures var before := history[..|history| - 1];
            var r := history[|history| - 1];
            Adds(p, Run(p, before).1, Selected(Run(p, before).0.producing, r.frames), r, Run(p, history).1)
  {
    CapturedChunkGrammar(p, history[..|history| - 1]);
  }

  /** A read without selected frames that finds room closes the stream, if one is open. */
  lemma {:induction false} SilenceClosesTheStream(p: Parameters, history: seq<Read>)
    requires ValidParameters(p) && history != []
    requires var r := history[|history| - 1];
             && r.room && r.frames.Cons?
             && Selected(Run(p, history[..|history| - 1]).0.producing, r.frames) == []
    ensures !StreamIsOpen(Run(p, history).1)
  {
    EnqueuedExactlyIf(p, history);
  }

  /** A stream from its first marker to its last, in two reads: its data and then its end. */
  lemma {:induction false} StreamIsEnqueued(p: Parameters, f: Frame, data: Read, end: Read)
    requires ValidParameters(p) && f.marker == DATA && data.room && end.room
    requires data.frames == Cons(BEGIN, Cons(f, Nil)) && end.frames == Cons(END, Nil)
    ensures var chunks := Run(p, [data, end]).1;
            |chunks| == 2 && !chunks[0].endOfStream && chunks[0].payload == f.payload && chunks[1].endOfStream
  {
    assert [data, end][..1] == [data] && [data][..0] == [];
    assert Run(p, []) == (INITIAL, []);
    assert FilterFrame(Filter(true, []), f) == Filter(true, [f]);
    assert FilterFrames(Filter(true, []), Cons(f, Nil)) == Filter(true, [f]);
    assert FilterFrames(Filter(false, []), data.frames) == Filter(true, [f]);
    assert FilterFrames(Filter(true, []), end.frames) == Filter(false, []);
    assert Run(p, [data]).0 == State(true, false, 1);
    EnqueuedExactlyIf(p, [data]);
    EnqueuedExactlyIf(p, [data, end]);
    PayloadAppend([], f);
    assert [] + [f] == [f];
  }

  const BEGIN: Frame := Frame([], BEGINNING_OF_STREAM)
  const END: Frame := Frame([], END_OF_STREAM)

  /** A whole stream of one frame, read while the queue is full. */
  function Overflowing(f: Frame): Read {
    Read(Cons(BEGIN, Cons(f, Cons(END, Nil))), false, 0)
  }

  /** A frame read after the stream ended. */
  function Outside(f: Frame): Read {
    Read(Cons(f, Nil), true, 1)
  }

  lemma OverflowingSelects(f: Frame)
    requires f.marker == DATA
    ensures FilterFrames(Filter(false, []), Overflowing(f).frames) == Filter(false, [f])
    ensures FilterFrames(Filter(true, []), Outside(f).frames) == Filter(true, [f])
    ensures FilterFrames(Filter(false, []), Outside(f).frames) == Filter(false, [])
  {
    assert FilterFrame(Filter(true, []), f) == Filter(true, [f]);
    assert FilterFrames(Filter(true, [f]), Cons(END, Nil)) == Filter(false, [f]);
    assert FilterFrames(Filter(true, []), Cons(f, Cons(END, Nil))) == Filter(false, [f]);
  }

  /** What an overflow can do: the end marker of the read that found the queue full is
      not seen either, and a frame outside the stream is captured next. */
  lemma OverflowBreaksTheFilter(p: Parameters, f: Frame)
    requires ValidParameters(p) && f.marker == DATA
    ensures var history := [Overflowing(f), Outside(f)];
            && !Fits(history, 0)
            && !FilteredAfter(p, history[..1])
            && !FilteredAfter(p, history)
            && Selected(Producing(false, Overflowing(f).frames), Outside(f).frames) == []
            && |Run(p, history).1| == 1
  {
    var full, next := Overflowing(f), Outside(f);
    OverflowingSelects(f);
    assert [full, next][..1] == [full] && [full][..0] == [];
    assert Run(p, []) == (INITIAL, []) && AllFrames([full]) == full.frames;
    assert Run(p, [full]) == (INITIAL.(producing := true), []);
    FilterConcat(false, full.frames, next.frames);
    assert AllFrames([full, next]) == Append(full.frames, next.frames);
  }

  // ---------- A device buffer as frames ----------

  /** Bytes of a frame as read, and of the part of it that is payload. */
  datatype Layout = Layout(frame: nat, payload: nat)

  ghost predicate ValidLayout(l: Layout) {
    l.payload < l.frame
  }

  function LayoutOf(p: Parameters): (l: Layout)
    requires ValidParameters(p)
    ensures ValidLayout(l) && l.frame - l.payload == p.bytesPerSample
  {
    Layout(Times(p.channels, p.bytesPerSample), Times(p.channels - 1, p.bytesPerSample))
  }

  /** `n * size`, as repeated addition. */
  function Times(n: nat, size: nat): nat {
    if n == 0 then 0 else size + Times(n - 1, size)
  }

  lemma {:induction false} TimesIsProduct(n: nat, size: nat)
    ensures Times(n, size) == n * size
  {
    if n > 0 {
      TimesIsProduct(n - 1, size);
      assert n * size == size + (n - 1) * size;
    }
  }

  /** The frame found at byte `from` of a device buffer. */
  ghost predicate LaidAt(l: Layout, buffer: seq<byte>, from: nat, f: Frame)
    requires ValidLayout(l)
  {
    && from + l.frame <= |buffer|
    && |f.payload| == l.payload
    && (forall j :: 0 <= j < l.payload ==> f.payload[j] == buffer[from + j])
    && f.marker == buffer[from + l.frame - 1]
  }

  /** A device buffer holds these frames from byte `from` on. */
  ghost predicate Laid(l: Layout, buffer: seq<byte>, from: nat, frames: List<Frame>)
    requires ValidLayout(l)
    decreases frames
  {
    match frames
    case Nil => true
    case Cons(f, rest) => LaidAt(l, buffer, from, f) && Laid(l, buffer, from + l.frame, rest)
  }

  /** Fewer frames need no more room. */
  lemma {:induction false} TimesMono(i: nat, n: nat, size: nat)
    requires i <= n
    ensures Times(i, size) <= Times(n, size)
    decreases n
  {
    if i < n {
      TimesMono(i, n - 1, size);
    }
  }

  /** The filter selects no more frames than it is given, so the payload of a read
      fits the buffer of a chunk. */
  lemma {:induction false} SelectedFits(producing: bool, frames: List<Frame>, framesPerChunk: nat, payload: nat)
    requires Length(frames) <= framesPerChunk
    ensures Times(|Selected(producing, frames)|, payload) <= Times(framesPerChunk, payload)
  {
    SelectsNoMore(Filter(producing, []), frames);
    TimesMono(|Selected(producing, frames)|, framesPerChunk, payload);
  }

  lemma {:induction false} SelectsNoMore(s: Filter, frames: List<Frame>)
    ensures |FilterFrames(s, frames).selected| <= |s.selected| + Length(frames)
    decreases frames
  {
    if frames.Cons? {
      SelectsNoMore(FilterFrame(s, frames.head), frames.tail);
    }
  }

  /** A large enough buffer of bytes is a list of frames. */
  lemma {:induction false} BufferHolds(l: Layout, buffer: seq<byte>, from: nat, n: nat) returns (frames: List<Frame>)
    requires ValidLayout(l) && from + Times(n, l.frame) <= |buffer|
    ensures Length(frames) == n && Laid(l, buffer, from, frames)
    decreases n
  {
    if n == 0 {
      frames := Nil;
    } else {
      var rest := BufferHolds(l, buffer, from + l.frame, n - 1);
      frames := Cons(Frame(buffer[from..from + l.payload], buffer[from + l.frame - 1]), rest);
    }
  }

  /** One frame further in a buffer and in the filter. */
  lemma NextFrame(l: Layout, buffer: seq<byte>, from: nat, s: Filter, frames: List<Frame>)
    requires ValidLayout(l) && frames.Cons? && Laid(l, buffer, from, frames)
    ensures LaidAt(l, buffer, from, frames.head) && Laid(l, buffer, from + l.frame, frames.tail)
    ensures FilterFrames(s, frames) == FilterFrames(FilterFrame(s, frames.head), frames.tail)
    ensures Payload(FilterFrame(s, frames.head).selected)
         == Payload(s.selected) + (if Active(s.producing, frames.head) then frames.head.payload else [])
  {
    PayloadAppend(s.selected, frames.head);
  }

  // ---------- The producer thread ----------

  ghost predicate Holds(buffer: array<byte>, bytes: seq<byte>)
    reads buffer
  {
    |bytes| == buffer.Length && forall i :: 0 <= i < |bytes| ==> buffer[i] == bytes[i]
  }

  ghost predicate Begins(buffer: array<byte>, bytes: seq<byte>)
    reads buffer
  {
    |bytes| <= buffer.Length && forall k :: 0 <= k < |bytes| ==> buffer[k] == bytes[k]
  }

  class Source {
    const parameters: Parameters
    var producing: bool
    var isBeginningOfStream: bool
    var capturedFrames: nat

    ghost function View(): State
      reads this
    {
      State(producing, isBeginningOfStream, capturedFrames)
    }

    constructor (parameters: Parameters)
      ensures this.parameters == parameters && View() == INITIAL
    {
      this.parameters := parameters;
      producing, isBeginningOfStream, capturedFrames := false, true, 0;
    }

    /** Finds the first frame of an active stream, or answers -1: nothing before
        that frame is selected. */
    method ContainsData(buffer: array<byte>, frames: nat, l: Layout, ghost bytes: seq<byte>, ghost all: List<Frame>)
      returns (offset: int, ghost rest: List<Frame>)
      requires ValidLayout(l) && Holds(buffer, bytes) && Length(all) == frames && Laid(l, bytes, 0, all)
      modifies this`producing
      ensures -1 <= offset < frames
      ensures FilterFrames(Filter(old(producing), []), all) == FilterFrames(Filter(producing, []), rest)
      ensures if offset < 0 then rest == Nil
              else
                && Length(rest) == frames - offset && Laid(l, bytes, Times(offset, l.frame), rest)
                && producing && rest.Cons? && rest.head.marker == DATA
    {
      offset := -1;
      var i: nat, from: nat := 0, 0;
      rest := all;
      while i < frames && offset < 0
        invariant 0 <= i <= frames && -1 <= offset < frames
        invariant Length(rest) == frames - (if offset < 0 then i else offset)
        invariant FilterFrames(Filter(old(producing), []), all) == FilterFrames(Filter(producing, []), rest)
        invariant Laid(l, bytes, if offset < 0 then from else Times(offset, l.frame), rest)
        invariant offset < 0 ==> from == Times(i, l.frame)
        invariant offset >= 0 ==> producing && rest.Cons? && rest.head.marker == DATA
      {
        var value := buffer[from + l.frame - 1];
        if value == BEGINNING_OF_STREAM {
          producing := true;
        } else if value == END_OF_STREAM {
          producing := false;
        } else if value == DATA && producing {
          offset := i;
        }
        if offset < 0 {
          rest := rest.tail;
        }
        i, from := i + 1, from + l.frame;
      }
    }

    /** Copies the payload of one frame byte by byte, skipping the last channel. */
    method CopyPayload(src: array<byte>, from: nat, dst: array<byte>, to: nat, l: Layout,
                       ghost out: seq<byte>, ghost f: Frame)
      requires ValidLayout(l) && src != dst && to == |out| && to + l.payload <= dst.Length && Begins(dst, out)
      requires from + l.payload <= src.Length && |f.payload| == l.payload
      requires forall j :: 0 <= j < l.payload ==> f.payload[j] == src[from + j]
      modifies dst
      ensures Begins(dst, out + f.payload)
    {
      var j := 0;
      while j < l.payload
        invariant 0 <= j <= l.payload
        invariant forall k :: 0 <= k < to ==> dst[k] == out[k]
        invariant forall k :: to <= k < to + j ==> dst[k] == f.payload[k - to]
      {
        dst[to + j] := src[from + j];
        j := j + 1;
      }
    }

    /** Processes one frame of `CopyData`: its marker, and its payload if active. */
    method CopyFrame(src: array<byte>, from: nat, dst: array<byte>, to: nat, l: Layout,
                     ghost bytes: seq<byte>, ghost out: seq<byte>, ghost f: Frame)
      returns (copied: bool)
      requires ValidLayout(l) && src != dst && to == |out| && to + l.payload <= dst.Length && Begins(dst, out)
      requires Holds(src, bytes) && LaidAt(l, bytes, from, f)
      modifies this`producing, dst
      ensures producing == Toggle(old(producing), f)
      ensures copied <==> Active(old(producing), f)
      ensures Begins(dst, if copied then out + f.payload else out)
    {
      copied := false;
      var value := src[from + l.frame - 1];
      if value == BEGINNING_OF_STREAM {
        producing := true;
      } else if value == END_OF_STREAM {
        producing := false;
      } else if value == DATA && producing {
        CopyPayload(src, from, dst, to, l, out, f);
        copied := true;
      }
    }

    /** One round of `CopyData`. */
    method CopyNext(src: array<byte>, from: nat, dst: array<byte>, to: nat, l: Layout,
                    ghost bytes: seq<byte>, ghost s: Filter, ghost frames: List<Frame>)
      returns (copied: bool)
      requires ValidLayout(l) && src != dst && Holds(src, bytes) && frames.Cons? && Laid(l, bytes, from, frames)
      requires producing == s.producing && to == |Payload(s.selected)| && Begins(dst, Payload(s.selected))
      requires to + l.payload <= dst.Length
      modifies this`producing, dst
      ensures Laid(l, bytes, from + l.frame, frames.tail)
      ensures var s' := FilterFrame(s, frames.head);
              && FilterFrames(s, frames) == FilterFrames(s', frames.tail) && producing == s'.producing
              && |Payload(s'.selected)| == (if copied then to + l.payload else to) && Begins(dst, Payload(s'.selected))
              && |s'.selected| == |s.selected| + (if copied then 1 else 0)
    {
      NextFrame(l, bytes, from, s, frames);
      copied := CopyFrame(src, from, dst, to, l, bytes, Payload(s.selected), frames.head);
    }

    /** Copies the payload of every frame of an active stream; `size` bytes in all. */
    method CopyData(src: array<byte>, base: nat, dst: array<byte>, frames: nat, l: Layout,
                    ghost bytes: seq<byte>, ghost all: List<Frame>)
      returns (framesCopied: nat, size: nat)
      requires ValidLayout(l) && src != dst && Holds(src, bytes)
      requires Length(all) == frames && Laid(l, bytes, base, all)
      requires Times(frames, l.payload) <= dst.Length
      modifies this`producing, dst
      ensures producing == Producing(old(producing), all)
      ensures framesCopied == |Selected(old(producing), all)|
      ensures size == |Payload(Selected(old(producing), all))| && Begins(dst, Payload(Selected(old(producing), all)))
    {
      framesCopied, size := 0, 0;
      var from: nat, i: nat := base, 0;
      ghost var rest, filter := all, Filter(producing, []);
      while i < frames
        invariant 0 <= i <= frames && Length(rest) == frames - i && Laid(l, bytes, from, rest)
        invariant size + Times(frames - i, l.payload) <= dst.Length
        invariant filter.producing == producing && framesCopied == |filter.selected|
        invariant FilterFrames(Filter(old(producing), []), all) == FilterFrames(filter, rest)
        invariant size == |Payload(filter.selected)| && Begins(dst, Payload(filter.selected))
      {
        var copied := CopyNext(src, from, dst, size, l, bytes, filter, rest);
        if copied {
          size := size + l.payload;
          framesCopied := framesCopied + 1;
        }
        filter, rest := FilterFrame(filter, rest.head), rest.tail;
        from, i := from + l.frame, i + 1;
      }
    }

    /** Fills a queue slot from an active read. */
    method MoveData(src: array<byte>, base: nat, dst: array<byte>, frames: nat, timestamp: int, ghost all: List<Frame>)
      returns (chunk: Chunk)
      requires ValidParameters(parameters) && src != dst
      requires Length(all) == frames && Laid(LayoutOf(parameters), src[..], base, all)
      requires Times(frames, LayoutOf(parameters).payload) <= dst.Length
      modifies this, dst
      ensures View() == State(Producing(old(producing), all), false,
                              old(capturedFrames) + |Selected(old(producing), all)|)
      ensures chunk == DataChunk(parameters, old(View()), Selected(old(producing), all), timestamp)
    {
      var copiedFrames, size := CopyData(src, base, dst, frames, LayoutOf(parameters), src[..], all);
      capturedFrames := capturedFrames + copiedFrames;
      isBeginningOfStream := false;
      chunk := Chunk(false, parameters.samplingRate, parameters.channels - 1, parameters.bytesPerSample,
                     dst[..size], copiedFrames, capturedFrames, timestamp);
    }

    /** Fills a queue slot with the end of the stream. */
    method EndStream(timestamp: int) returns (chunk: Chunk)
      requires ValidParameters(parameters)
      modifies this`isBeginningOfStream
      ensures View() == old(View()).(isBeginningOfStream := true)
      ensures chunk == EndChunk(parameters, old(View()), timestamp)
    {
      chunk := Chunk(true, parameters.samplingRate, parameters.channels - 1, parameters.bytesPerSample,
                     [], 0, capturedFrames, timestamp);
      isBeginningOfStream := true;
    }

    /** Enqueues what is left of a read from its first active frame on, if there is room. */
    method EnqueueActive(src: array<byte>, offset: nat, dst: array<byte>, frames: nat, room: bool, timestamp: int,
                         ghost rest: List<Frame>)
      returns (chunk: Option<Chunk>)
      requires ValidParameters(parameters) && src != dst && producing
      requires Length(rest) == frames
      requires Laid(LayoutOf(parameters), src[..], Times(offset, LayoutOf(parameters).frame), rest)
      requires frames <= parameters.framesPerChunk
      requires dst.Length == Times(parameters.framesPerChunk, LayoutOf(parameters).payload)
      modifies this, dst
      ensures (View(), chunk)
           == if room then
                (State(Producing(true, rest), false, old(capturedFrames) + |Selected(true, rest)|),
                 Some(DataChunk(parameters, old(View()), Selected(true, rest), timestamp)))
              else
                (old(View()), None)
    {
      chunk := None;
      if room {
        var l := LayoutOf(parameters);
        TimesIsProduct(offset, l.frame);
        TimesMono(frames, parameters.framesPerChunk, l.payload);
        var data := MoveData(src, offset * l.frame, dst, frames, timestamp, rest);
        chunk := Some(data);
      }
    }

    /** One turn of the producer's loop: `result` frames were read from the device. */
    method Produce(src: array<byte>, result: nat, dst: array<byte>, room: bool, timestamp: int)
      returns (chunk: Option<Chunk>, ghost frames: List<Frame>)
      requires ValidParameters(parameters) && src != dst
      requires result <= parameters.framesPerChunk
      requires src.Length == Times(parameters.framesPerChunk, LayoutOf(parameters).frame)
      requires dst.Length == Times(parameters.framesPerChunk, LayoutOf(parameters).payload)
      modifies this, dst
      ensures Length(frames) == result && Laid(LayoutOf(parameters), old(src[..]), 0, frames)
      ensures (View(), chunk) == OnRead(parameters, old(View()), Read(frames, room, timestamp))
    {
      var l := LayoutOf(parameters);
      TimesMono(result, parameters.framesPerChunk, l.frame);
      frames := BufferHolds(l, src[..], 0, result);
      ghost var was := View();
      chunk := None;
      if result > 0 {
        var offset, rest := ContainsData(src, result, l, src[..], frames);
        if offset >= 0 {
          ActiveRead(parameters, was, Read(frames, room, timestamp), rest);
          chunk := EnqueueActive(src, offset, dst, result - offset, room, timestamp, rest);
        } else if !isBeginningOfStream {
          if room {
            var end := EndStream(timestamp);
            chunk := Some(end);
          }
        }
      }
    }
  }
}
