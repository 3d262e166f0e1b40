/** From the streamer to the wire: what an HTTP session is given while it is attached, the
    bytes it sends for that, and what becomes of an end of stream that was refused. */
module Delivery {
  import opened Common
  import opened Chunks
  import opened StateMachine
  import opened PlaybackTime
  import opened BufferPool
  import opened S = Streamer
  import opened Distribution
  import CommandSession
  import Correlation
  import T = StreamingSession

  // ---------- One step of the streamer ----------

  /** What a step without an attach or a new stream does to an entry: it passes on no chunk,
      or one that there is room for. */
  ghost predicate GrowsBy(e: Entry, e': Entry, chunk: Chunk, room: bool) {
    && e'.since == e.since
    && (|| (e'.passed == e.passed && (CommandSession.PassesOn(e'.session) ==> CommandSession.PassesOn(e.session)))
        || (&& e'.passed == e.passed + [chunk] && room && CommandSession.PassesOn(e.session)
            && (CommandSession.PassesOn(e'.session) ==> !chunk.endOfStream)))
  }

  lemma OfferGrows(st: Streamer, e: Entry, chunk: Chunk, room: bool)
    ensures GrowsBy(e, OfferTo(st, e, chunk, room).0, chunk, room)
  {
    CommandSession.RefusedExactlyWhenFull(e.session, OfferOf(st, chunk, room));
    CommandSession.OfferKeepsPassingOn(e.session, OfferOf(st, chunk, room));
  }

  /** A chunk is passed on only at the rate of the stream. */
  lemma DeliveryGrows(st: Streamer, chunk: Chunk, now: Surroundings, c: nat)
    requires c in st.entries && !st.state.Started?
    ensures var st' := ConsumeChunk(st, chunk, now).0;
            && st'.samplingRate == st.samplingRate && c in st'.entries
            && GrowsBy(st.entries[c], st'.entries[c], chunk, HasRoom(now.full, c))
            && (st'.entries[c].passed != st.entries[c].passed ==> chunk.samplingRate == st.samplingRate)
  {
    var st0 := st.(offered := Some(chunk));
    FirstStages(st0, chunk, now);
    var (st2, r2) := TryBuffer(st0, false, now);
    if st2.state.Buffering? || st2.state.Playing? {
      PlayingChangesNoEntry(st2, now);
      TryStreamIs(st2, r2, chunk, now);
      StreamChunkDistributes(MaybePlay(st2, now), chunk, now.full);
      OfferGrows(MaybePlay(st2, now), st.entries[c], chunk, HasRoom(now.full, c));
    }
    var (st3, r3) := TryStream(st2, r2, chunk, now);
    FlushKeeps(st3, r3, now);
  }

  lemma FlushKeeps(st: Streamer, result: bool, now: Surroundings)
    ensures var st' := TryFlush(st, result, now).0;
            st'.entries == st.entries && st'.samplingRate == st.samplingRate
  {
  }

  /** The session stays attached to its HTTP session, and no new stream begins. */
  predicate StaysAttached(st: Streamer, i: Input, c: nat) {
    && !(i.Deliver? && st.state.Started?)
    && i != Close(c)
    && !(i.Player? && i.connection == c && i.input.Streaming?)
  }

  lemma NextGrows(st: Streamer, i: Input, c: nat)
    requires c in st.entries && Enabled(st, i) && StaysAttached(st, i, c)
    ensures var st' := Next(st, i);
            && st'.samplingRate == st.samplingRate && c in st'.entries
            && if i.Deliver? then
                 && GrowsBy(st.entries[c], st'.entries[c], i.chunk, HasRoom(i.now.full, c))
                 && (st'.entries[c].passed != st.entries[c].passed ==> i.chunk.samplingRate == st.samplingRate)
               else
                 && st'.entries[c].passed == st.entries[c].passed && st'.entries[c].since == st.entries[c].since
                 && (CommandSession.PassesOn(st'.entries[c].session) ==> CommandSession.PassesOn(st.entries[c].session))
  {
    match i {
      case Deliver(chunk, now) => DeliveryGrows(st, chunk, now, c);
      case Halt(now) =>
        StopIs(st, now);
        CommandSession.PassingOnChanges(st.entries[c].session, CommandSession.Halt);
      case Player(d, input) => CommandSession.PassingOnChanges(st.entries[d].session, input);
      case _ =>
    }
  }

  // ---------- The streamer and an HTTP session together ----------

  /** The blocks an encoder emits on being given the last of these chunks after the others;
      for none of them, what it emits on starting. */
  type Encoding = seq<Chunk> -> seq<seq<byte>>

  /** All the bytes emitted for these chunks, those on starting included. */
  ghost function Emitted(emit: Encoding, chunks: seq<Chunk>): seq<byte> {
    if chunks == [] then Flatten(emit([]))
    else Emitted(emit, chunks[..|chunks| - 1]) + Flatten(emit(chunks))
  }

  /** The streamer, and the HTTP session attached to one of its sessions. */
  datatype Pair = Pair(st: Streamer, http: T.State)

  datatype Event = Upstream(input: Input) | Network(event: T.Event)

  /** What the HTTP session answers when it is offered a chunk. */
  predicate Answers(http: T.State) {
    !http.running || Available(http.pool.free) >= 10
  }

  lemma AnswerIsVerdict(http: T.State, sameRate: bool, endOfStream: bool, blocks: seq<seq<byte>>, bufferSize: nat)
    requires T.Inv(http, bufferSize)
    ensures T.OnConsume(http, sameRate, endOfStream, blocks, bufferSize).1 == Answers(http)
  {
  }

  /** The streamer's surroundings are right about the room of the HTTP session; the network
      completes writes and runs tasks and timers, with or without errors. */
  ghost predicate Possible(p: Pair, e: Event, c: nat) {
    match e
    case Upstream(i) =>
      && Enabled(p.st, i) && StaysAttached(p.st, i, c)
      && (i.Deliver? ==> (HasRoom(i.now.full, c) <==> Answers(p.http)))
    case Network(n) => T.Enabled(p.http, n) && (n.Task? || n.Completed? || n.FlushTimer?)
  }

  /** Whether a step of the streamer passes its chunk on to the session's HTTP session. */
  ghost predicate Passes(st: Streamer, i: Input, c: nat) {
    && i.Deliver? && c in st.entries && c in Next(st, i).entries
    && Next(st, i).entries[c].passed == st.entries[c].passed + [i.chunk]
  }

  /** A chunk that is passed on is consumed by the HTTP session, whose encoder works at the
      rate that the streamer had when it was attached. */
  ghost function Step(p: Pair, e: Event, c: nat, emit: Encoding, rate: nat, bufferSize: nat): Pair
    requires T.Inv(p.http, bufferSize)
  {
    match e
    case Upstream(i) =>
      var http := if Passes(p.st, i, c) then
                    var blocks := emit(p.st.entries[c].passed + [i.chunk]);
                    T.OnConsume(p.http, i.chunk.samplingRate == rate, i.chunk.endOfStream, blocks, bufferSize).0
                  else
                    p.http;
      Pair(Next(p.st, i), http)
    case Network(n) => p.(http := T.Next(p.http, n, bufferSize))
  }

  /** The HTTP session accepted what was emitted for the chunks passed on, and works for as
      long as chunks are passed on to it. */
  ghost predicate Together(p: Pair, c: nat, emit: Encoding, rate: nat, bufferSize: nat) {
    && c in p.st.entries && p.st.samplingRate == rate
    && T.Inv(p.http, bufferSize)
    && p.http.accepted == Emitted(emit, p.st.entries[c].passed)
    && (CommandSession.PassesOn(p.st.entries[c].session) ==> p.http.running && p.http.encoding)
  }

  /** Nothing the encoder emits at once needs more than the ten buffers that a chunk is
      only accepted with. */
  ghost predicate Modest(emit: Encoding, bufferSize: nat)
    requires bufferSize > 0
  {
    forall chunks :: T.NeededAll(emit(chunks), bufferSize) <= T.MIN_AVAILABLE
  }

  lemma EmittedNext(emit: Encoding, chunks: seq<Chunk>, chunk: Chunk)
    ensures Emitted(emit, chunks + [chunk]) == Emitted(emit, chunks) + Flatten(emit(chunks + [chunk]))
  {
    assert (chunks + [chunk])[..|chunks|] == chunks;
  }

  /** A chunk with room: all its bytes are accepted, and only an end of stream stops the
      encoder. */
  lemma ConsumeAccepts(http: T.State, endOfStream: bool, blocks: seq<seq<byte>>, bufferSize: nat)
    requires T.Inv(http, bufferSize) && http.running && http.encoding && Answers(http)
    requires T.NeededAll(blocks, bufferSize) <= T.MIN_AVAILABLE
    ensures var http' := T.OnConsume(http, true, endOfStream, blocks, bufferSize).0;
            && T.Inv(http', bufferSize) && http'.accepted == http.accepted + Flatten(blocks)
            && (T.InOrder(http, bufferSize) ==> T.InOrder(http', bufferSize))
            && (!endOfStream ==> http'.running && http'.encoding)
  {
    T.BlocksAreWholeIff(http, blocks, bufferSize);
    T.BlocksKeepInv(http, blocks, bufferSize);
    T.BlocksKeepCore(http, blocks, bufferSize);
    T.StopKeepsInv(http, blocks, bufferSize);
  }

  lemma NetworkKeeps(http: T.State, n: T.Event, bufferSize: nat)
    requires T.Inv(http, bufferSize) && (n.Task? || n.Completed? || n.FlushTimer?)
    ensures var http' := T.Next(http, n, bufferSize);
            && T.Inv(http', bufferSize) && http'.accepted == http.accepted && http'.encoding == http.encoding
            && (http.encoding ==> http'.running == http.running)
  {
    T.NextKeepsInv(http, n, bufferSize);
  }

  lemma StepKeepsTogether(p: Pair, e: Event, c: nat, emit: Encoding, rate: nat, bufferSize: nat)
    requires Together(p, c, emit, rate, bufferSize) && Modest(emit, bufferSize) && Possible(p, e, c)
    ensures Together(Step(p, e, c, emit, rate, bufferSize), c, emit, rate, bufferSize)
    ensures T.InOrder(p.http, bufferSize) && !IsError(e) ==>
              T.InOrder(Step(p, e, c, emit, rate, bufferSize).http, bufferSize)
  {
    match e {
      case Network(n) =>
        NetworkKeeps(p.http, n, bufferSize);
        T.NextKeepsInv(p.http, n, bufferSize);
      case Upstream(i) =>
        NextGrows(p.st, i, c);
        if Passes(p.st, i, c) {
          var passed := p.st.entries[c].passed;
          EmittedNext(emit, passed, i.chunk);
          ConsumeAccepts(p.http, i.chunk.endOfStream, emit(passed + [i.chunk]), bufferSize);
        }
    }
  }

  ghost predicate IsError(e: Event) {
    e.Network? && T.IsError(e.event)
  }

  /** A run whose every event is possible when it happens. */
  ghost predicate AllPossible(p: Pair, events: seq<Event>, c: nat, emit: Encoding, rate: nat, bufferSize: nat)
    decreases |events|
  {
    events == []
    || (&& T.Inv(p.http, bufferSize) && Possible(p, events[0], c)
        && AllPossible(Step(p, events[0], c, emit, rate, bufferSize), events[1..], c, emit, rate, bufferSize))
  }

  ghost function Run(p: Pair, events: seq<Event>, c: nat, emit: Encoding, rate: nat, bufferSize: nat): Pair
    requires AllPossible(p, events, c, emit, rate, bufferSize)
    decreases |events|
  {
    if events == [] then p
    else Run(Step(p, events[0], c, emit, rate, bufferSize), events[1..], c, emit, rate, bufferSize)
  }

  lemma {:induction false} RunKeepsTogether(p: Pair, events: seq<Event>, c: nat, emit: Encoding, rate: nat,
                                            bufferSize: nat)
    requires Together(p, c, emit, rate, bufferSize) && Modest(emit, bufferSize)
    requires AllPossible(p, events, c, emit, rate, bufferSize)
    requires Inv(p.st)
    ensures var p' := Run(p, events, c, emit, rate, bufferSize);
            && Together(p', c, emit, rate, bufferSize) && Inv(p'.st)
            && (T.InOrder(p.http, bufferSize) && (forall k :: 0 <= k < |events| ==> !IsError(events[k])) ==>
                  T.InOrder(p'.http, bufferSize))
    decreases |events|
  {
    if events != [] {
      var e := events[0];
      StepKeepsTogether(p, e, c, emit, rate, bufferSize);
      if e.Upstream? {
        NextKeepsInv(p.st, e.input);
      }
      RunKeepsTogether(Step(p, e, c, emit, rate, bufferSize), events[1..], c, emit, rate, bufferSize);
    }
  }

  /** From the stream to the wire. An HTTP session is opened and attached in any state of
      any run. However chunks are offered, refused and redelivered, other sessions come and
      go, and writes are split and delayed: until it is detached, attached again, or a new
      stream begins, the bytes it accepted are exactly those the encoder emitted for the
      chunks passed on to it, these are a contiguous part of the stream, and without write
      errors what it sent is the beginning of those bytes, followed by what it holds. */
  lemma {:induction false} WireCarriesTheStream(inputs: seq<Input>, c: nat, pool: Buffers, events: seq<Event>,
                                                emit: Encoding, bufferSize: nat)
    requires c in S.Run(CREATED, inputs).entries
    requires bufferSize > 0 && ValidBuffers(pool, bufferSize) && Available(pool.free) == |pool.free| >= T.MIN_AVAILABLE
    requires Modest(emit, bufferSize)
    requires AllPossible(Opened(inputs, c, pool, emit, bufferSize), events, c, emit,
                         S.Run(CREATED, inputs).samplingRate, bufferSize)
    ensures var p := Run(Opened(inputs, c, pool, emit, bufferSize), events, c, emit,
                         S.Run(CREATED, inputs).samplingRate, bufferSize);
            && c in p.st.entries
            && var e := p.st.entries[c];
               && p.http.accepted == Emitted(emit, e.passed)
               && e.since + |e.passed| <= |p.st.stream + p.st.partial|
               && e.passed == (p.st.stream + p.st.partial)[e.since..e.since + |e.passed|]
               && T.Inv(p.http, bufferSize)
               && ((forall k :: 0 <= k < |events| ==> !IsError(events[k])) ==> T.InOrder(p.http, bufferSize))
  {
    var p := Opened(inputs, c, pool, emit, bufferSize);
    OpenedTogether(inputs, c, pool, emit, bufferSize);
    RunKeepsTogether(p, events, c, emit, p.st.samplingRate, bufferSize);
    var p' := Run(p, events, c, emit, p.st.samplingRate, bufferSize);
    assert Sound(p'.st, p'.st.entries[c]);
  }

  /** A request arrives: the HTTP session starts and is attached. */
  ghost function Opened(inputs: seq<Input>, c: nat, pool: Buffers, emit: Encoding, bufferSize: nat): Pair
    requires c in S.Run(CREATED, inputs).entries
    requires bufferSize > 0 && ValidBuffers(pool, bufferSize)
  {
    Pair(Next(S.Run(CREATED, inputs), Player(c, CommandSession.Streaming(true))), T.Opened(pool, emit([]), bufferSize))
  }

  lemma {:induction false} OpenedTogether(inputs: seq<Input>, c: nat, pool: Buffers, emit: Encoding, bufferSize: nat)
    requires c in S.Run(CREATED, inputs).entries
    requires bufferSize > 0 && ValidBuffers(pool, bufferSize) && Available(pool.free) == |pool.free| >= T.MIN_AVAILABLE
    requires Modest(emit, bufferSize)
    ensures var p := Opened(inputs, c, pool, emit, bufferSize);
            && Inv(p.st) && p.st.samplingRate == S.Run(CREATED, inputs).samplingRate
            && Together(p, c, emit, p.st.samplingRate, bufferSize) && T.InOrder(p.http, bufferSize)
  {
    var st, i := S.Run(CREATED, inputs), Player(c, CommandSession.Streaming(true));
    RunKeepsInv(inputs);
    NextKeepsInv(st, i);
    T.OpenedInOrder(pool, emit([]), bufferSize);
    var fresh' := T.Closed(pool).(running := true, encoding := true);
    T.BlocksAreWholeIff(fresh', emit([]), bufferSize);
    T.BlocksKeepCore(fresh', emit([]), bufferSize);
    assert Next(st, i).entries[c].passed == [];
  }

  // ---------- An end of stream that was refused ----------

  /** Three seconds pass while the streamer prepares. */
  const WAITED: Surroundings := Surroundings(0, 3_000_000_000, 3_000_000_000, [], {})

  /** A player connects, a stream begins, its HTTP session is attached, and has no room
      when the stream ends. */
  function Refusal(first: Chunk, last: Chunk): seq<Input> {
    [Begin, Open(0), Deliver(first, WAITED), Player(0, CommandSession.Streaming(true)),
     Deliver(last, WAITED.(full := {0}))]
  }

  const ID: string := Correlation.Decimal(1)

  const IDLE: CommandSession.Session := CommandSession.Created(ID).(state := Started)

  const OPENED: Streamer := CREATED.(state := Started, nextID := 1, entries := map[0 := Entry(IDLE, 0, 0, [], 0, [])])

  function Prepared(first: Chunk): CommandSession.Session {
    IDLE.(state := Preparing, samplingRate := first.samplingRate,
          trace := Cons(CommandSession.Sent(CommandSession.Start(first.samplingRate, ID)), Nil))
  }

  /** After the first chunk: the session, still without an HTTP session, took it. */
  function Fed(first: Chunk): Streamer {
    OPENED.(state := Buffering, samplingRate := first.samplingRate, bufferingStartedAt := WAITED.buffering,
            streamedChunks := 1, streamedFrames := first.frames, stream := [first],
            entries := map[0 := Entry(Prepared(first), 1, 0, [first], 0, [])])
  }

  function Attached(first: Chunk): CommandSession.Session {
    Prepared(first).(attached := true, trace := Cons(CommandSession.Attached, Prepared(first).trace))
  }

  function Listening(first: Chunk): Streamer {
    Fed(first).(entries := map[0 := Entry(Attached(first), 1, 0, [first], 1, [])])
  }

  /** After the last chunk: the session buffers and is still attached. */
  function Left(first: Chunk, last: Chunk): Streamer {
    Listening(first).(state := Started, partial := [last],
                      entries := map[0 := Entry(Attached(first).(state := Buffering), 1, 0, [first], 1, [])])
  }

  lemma Opens()
    ensures Next(Next(CREATED, Begin), Open(0)) == OPENED
  {
  }

  /** A distribution to a single session. */
  lemma OnlyEntry(st: Streamer, e: Entry, chunk: Chunk, full: set<nat>)
    requires st.entries == map[0 := e]
    ensures OfferedAll(st, chunk, full) == map[0 := OfferTo(st, e, chunk, HasRoom(full, 0)).0]
    ensures AllAccept(st, chunk, full) == OfferTo(st, e, chunk, HasRoom(full, 0)).1
    ensures var e' := OfferTo(st, e, chunk, HasRoom(full, 0)).0;
            Unpausing(e.session, e'.session).None? ==>
              st.unpaused + StartTimes(st.entries, OfferedAll(st, chunk, full)) == st.unpaused
  {
    assert OfferedAll(st, chunk, full)[0] == OfferTo(st, e, chunk, HasRoom(full, 0)).0;
    assert 0 in st.entries && st.entries[0] == e;
  }

  lemma NotReady(st: Streamer, now: Surroundings)
    requires st.state.Buffering? && 0 in st.entries
    requires !CommandSession.Allows(CommandSession.ReadyToPlay, st.entries[0].session)
    ensures MaybePlay(st, now) == st
  {
  }

  lemma FirstIsTaken(first: Chunk)
    requires !first.endOfStream && first.samplingRate != 0
    ensures ConsumeChunk(OPENED, first, WAITED) == (Fed(first), true)
  {
    var st0 := OPENED.(offered := Some(first));
    var e := Entry(Prepared(first), 0, 0, [], 0, []);
    var st1 := TryPrepare(st0, first, WAITED).0;
    assert st1.entries == map[0 := e];
    var st2 := TryBuffer(st1, false, WAITED).0;
    NotReady(st2, WAITED);
    OnlyEntry(st2, e, first, {});
    assert [] + [first] == [first];
    assert OfferTo(st2, e, first, true) == (Entry(Prepared(first), 1, 0, [first], 0, []), true);
    assert TryStream(st2, true, first, WAITED) == StreamChunk(st2, first, {});
  }

  lemma Attaches(first: Chunk)
    ensures Next(Fed(first), Player(0, CommandSession.Streaming(true))) == Listening(first)
  {
  }

  lemma LastIsRefused(first: Chunk, last: Chunk)
    requires first.samplingRate != 0 && last.endOfStream && last.samplingRate == first.samplingRate
    ensures ConsumeChunk(Listening(first), last, WAITED.(full := {0})) == (Left(first, last), true)
  {
    var now := WAITED.(full := {0});
    var st0 := Listening(first).(offered := Some(last));
    var e := Entry(Attached(first), 1, 0, [first], 1, []);
    StreamUnderWay(st0, last, now);
    NotReady(st0, now);
    OnlyEntry(st0, e, last, now.full);
    assert OfferTo(st0, e, last, false) == (e.(session := Attached(first).(state := Buffering)), false);
    TryStreamIs(st0, false, last, now);
  }

  lemma {:induction false} RunAppend(st: Streamer, inputs: seq<Input>, i: Input, st': Streamer)
    requires S.Run(st, inputs) == st'
    ensures S.Run(st, inputs + [i]) == Next(st', i)
  {
    assert (inputs + [i])[..|inputs|] == inputs;
  }

  lemma Delivers(st: Streamer, chunk: Chunk, now: Surroundings)
    requires st.offered.None?
    ensures Next(st, Deliver(chunk, now)) == ConsumeChunk(st, chunk, now).0
  {
  }

  lemma {:induction false} FiveSteps(s0: Streamer, a: Input, s1: Streamer, b: Input, s2: Streamer, c: Input,
                                     s3: Streamer, d: Input, s4: Streamer, e: Input, s5: Streamer)
    requires Next(s0, a) == s1 && Next(s1, b) == s2 && Next(s2, c) == s3 && Next(s3, d) == s4 && Next(s4, e) == s5
    ensures S.Run(s0, [a, b, c, d, e]) == s5
  {
    RunAppend(s0, [], a, s0);
    RunAppend(s0, [] + [a], b, s1);
    RunAppend(s0, [] + [a] + [b], c, s2);
    RunAppend(s0, [] + [a] + [b] + [c], d, s3);
    RunAppend(s0, [] + [a] + [b] + [c] + [d], e, s4);
    assert [a, b, c, d, e] == [] + [a] + [b] + [c] + [d] + [e];
  }

  lemma {:induction false} RefusalLeads(first: Chunk, last: Chunk)
    requires !first.endOfStream && first.samplingRate != 0
    requires last.endOfStream && last.samplingRate == first.samplingRate
    ensures S.Run(CREATED, Refusal(first, last)) == Left(first, last)
  {
    Opens();
    Delivers(OPENED, first, WAITED);
    FirstIsTaken(first);
    Attaches(first);
    Delivers(Listening(first), last, WAITED.(full := {0}));
    LastIsRefused(first, last);
    FiveSteps(CREATED, Begin, Next(CREATED, Begin), Open(0), OPENED, Deliver(first, WAITED), Fed(first),
              Player(0, CommandSession.Streaming(true)), Listening(first),
              Deliver(last, WAITED.(full := {0})), Left(first, last));
  }

  /** It happens: on this run the end of stream is consumed although the only session, which
      has an HTTP session, refused it for lack of room, and the stream is over without it. */
  lemma {:induction false} RefusedEndIsConsumed(first: Chunk, last: Chunk)
    requires !first.endOfStream && first.samplingRate != 0
    requires last.endOfStream && last.samplingRate == first.samplingRate
    ensures var st := S.Run(CREATED, Refusal(first, last));
            && st.offered.None? && st.state.Started? && st.stream == [first]
            && 0 in st.entries && st.entries[0].accepted == [first]
            && CommandSession.PassesOn(st.entries[0].session)
  {
    RefusalLeads(first, last);
  }

  /** When a stream begins, exactly the sessions that were started are told to start it, and
      exactly those still attached and not yet drained pass it on at once. */
  lemma StartedAnewIff(st: Streamer, chunk: Chunk, now: Surroundings, c: nat)
    requires st.state.Started? && chunk.samplingRate != 0 && c in st.entries
    ensures c in Begun(st, chunk, now).entries
    ensures var s, s' := st.entries[c].session, Begun(st, chunk, now).entries[c].session;
            && (s'.trace == if s.state.Started? then
                              Cons(CommandSession.Sent(CommandSession.Start(chunk.samplingRate, s.clientID)), s.trace)
                            else s.trace)
            && (CommandSession.PassesOn(s') <==>
                  s.attached && (s.state.Preparing? || s.state.Buffering? || s.state.Playing?))
  {
    if st.entries[c].session.state.Started? {
      CommandSession.PrepareSends(st.entries[c].session, chunk.samplingRate);
    }
  }

  /** And what that leads to: the next stream goes to the same HTTP session, whose player was
      never told to start it, at whatever rate. */
  lemma {:induction false} NextStreamGoesToOldSession(first: Chunk, last: Chunk, next: Chunk)
    requires !first.endOfStream && first.samplingRate != 0
    requires last.endOfStream && last.samplingRate == first.samplingRate
    requires !next.endOfStream && next.samplingRate != 0
    ensures var before := S.Run(CREATED, Refusal(first, last));
            var (after, result) := ConsumeChunk(before, next, WAITED);
            && result && 0 in before.entries && 0 in after.entries
            && after.entries[0].passed == [next] && after.entries[0].session.trace == before.entries[0].session.trace
  {
    RefusalLeads(first, last);
    NextIsPassedOn(first, last, next);
  }

  lemma NextIsPassedOn(first: Chunk, last: Chunk, next: Chunk)
    requires first.samplingRate != 0 && !next.endOfStream && next.samplingRate != 0
    ensures var (after, result) := ConsumeChunk(Left(first, last), next, WAITED);
            && result && 0 in after.entries
            && after.entries[0].passed == [next] && after.entries[0].session.trace == Attached(first).trace
  {
    var st0 := Left(first, last).(offered := Some(next));
    var s := Attached(first).(state := Buffering, samplingRate := next.samplingRate);
    var e := Entry(s, 0, 0, [], 0, []);
    var st1 := TryPrepare(st0, next, WAITED).0;
    assert st1.entries == map[0 := e];
    var st2 := TryBuffer(st1, false, WAITED).0;
    NotReady(st2, WAITED);
    OnlyEntry(st2, e, next, {});
    assert [] + [next] == [next];
    assert OfferTo(st2, e, next, true) == (Entry(s, 1, 0, [next], 0, [next]), true);
    assert TryStream(st2, true, next, WAITED) == StreamChunk(st2, next, {});
  }
}
