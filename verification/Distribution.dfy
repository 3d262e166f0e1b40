/** What the streamer keeps over every run: exactly-once distribution, agreement of the
    players, held ends of streams, and sessions found again by their requests. */
module Distribution {
  import opened Common
  import opened Chunks
  import opened StateMachine
  import opened PlaybackTime
  import opened S = Streamer
  import CommandSession
  import Correlation

  // ---------- Invariant ----------

  /** Exactly once: the session has the contiguous part of the stream from where it
      joined to its counter, which is at most one chunk ahead of the streamer's. */
  ghost predicate HasSlice(st: Streamer, e: Entry) {
    && st.streamedChunks <= e.sequence <= st.streamedChunks + |st.partial|
    && e.joined <= st.streamedChunks == |st.stream|
    && e.accepted == (st.stream + st.partial)[e.joined..e.sequence]
  }

  /** The HTTP session has the contiguous part of the stream from where it was attached,
      up to the session's counter for as long as the session passes chunks on. */
  ghost predicate HasPassed(st: Streamer, e: Entry) {
    && e.joined <= e.since && e.since + |e.passed| <= e.sequence <= |st.stream + st.partial|
    && e.passed == (st.stream + st.partial)[e.since..e.since + |e.passed|]
    && (CommandSession.PassesOn(e.session) ==> e.since + |e.passed| == e.sequence)
  }

  ghost predicate Sound(st: Streamer, e: Entry) {
    HasSlice(st, e) && HasPassed(st, e) && CommandSession.Inv(e.session)
  }

  predicate Streams(st: Streamer) {
    st.state.Preparing? || st.state.Buffering? || st.state.Playing?
  }

  /** What was distributed to some sessions only is what the producer offers again. */
  ghost predicate Redelivers(st: Streamer) {
    && |st.partial| <= 1
    && (st.state.Preparing? ==> st.partial == [])
    && ((st.state.Buffering? || st.state.Playing?) && st.partial != [] ==> st.offered == Some(st.partial[0]))
  }

  const MIN_START: int := 2_001_000_000

  /** All sessions told to start were told the same start time, 2001 milliseconds or more
      after buffering began. */
  ghost predicate Agrees(st: Streamer) {
    && st.unpaused <= {st.playbackStartedAt}
    && (st.state.Buffering? ==> st.unpaused == {})
    && (st.state.Playing? || st.unpaused != {} ==> st.playbackStartedAt >= st.bufferingStartedAt + MIN_START)
  }

  /** While the streamer plays, more than two seconds were streamed. */
  predicate PlaysAfterBuffering(st: Streamer) {
    st.state.Playing? ==> MIN_BUFFERING < CalculateDuration(st.streamedFrames, MILLISECONDS, st.samplingRate)
  }

  ghost predicate Core(st: Streamer) {
    && st.streamedChunks == |st.stream|
    && st.streamedFrames == TotalFrames(st.stream)
    && (forall c <- st.entries :: Sound(st, st.entries[c]))
    && (Streams(st) ==> st.samplingRate != 0)
    && Redelivers(st)
    && Agrees(st)
    && PlaysAfterBuffering(st)
  }

  ghost predicate Held(st: Streamer) {
    st.fanned > 0 ==> st.fanned == 1 && !Streams(st)
  }

  /** An end-of-stream chunk is distributed at most once in a stream. */
  ghost predicate EndsOnce(st: Streamer) {
    && (st.offered.None? ==> st.fanned == 0)
    && (st.offered.Some? && st.offered.value.endOfStream ==> Held(st))
  }

  ghost predicate Inv(st: Streamer) {
    Core(st) && EndsOnce(st)
  }

  // ---------- Single events ----------

  lemma SoundAnywhere(st: Streamer, st': Streamer, e: Entry)
    requires Sound(st, e)
    requires st'.streamedChunks == st.streamedChunks && st'.stream == st.stream && st'.partial == st.partial
    ensures Sound(st', e)
  {
  }

  lemma PreparingKeepsCore(st: Streamer, now: Surroundings)
    requires Core(st) && st.state.Started? && st.samplingRate != 0
    ensures Core(ProcessEvent(st, PrepareEvent, now).0)
  {
    var st' := ProcessEvent(st, PrepareEvent, now).0;
    forall c <- st'.entries ensures Sound(st', st'.entries[c]) {
      assert Sound(st, st.entries[c]);
      CommandSession.PrepareKeepsInv(st.entries[c].session, st.samplingRate);
    }
  }

  lemma {:induction false} LatenciesArePositive(entries: map<nat, Entry>, order: seq<nat>)
    requires forall c <- entries :: CommandSession.Inv(entries[c].session)
    ensures forall i :: 0 <= i < |Latencies(entries, order)| ==> Latency(Latencies(entries, order)[i]) >= 0
    decreases |order|
  {
    if order != [] {
      LatenciesArePositive(entries, order[..|order| - 1]);
    }
  }

  lemma PlayingKeepsCore(st: Streamer, now: Surroundings)
    requires Core(st) && st.state.Buffering?
    ensures Core(ProcessEvent(st, PlayEvent, now).0)
  {
    var (st', verdict) := ProcessEvent(st, PlayEvent, now);
    if verdict.Done? {
      forall c <- st.entries ensures CommandSession.Inv(st.entries[c].session) && Sound(st', st.entries[c]) {
        assert Sound(st, st.entries[c]);
      }
      LatenciesArePositive(st.entries, now.order);
      DelayIsPositive(Latencies(st.entries, now.order));
      StartAfterStreamed(st.streamedFrames, Delay(Latencies(st.entries, now.order)), st.samplingRate);
    }
  }

  lemma MovingKeepsCore(st: Streamer, event: Event, now: Surroundings)
    requires Core(st) && (event.StartEvent? || event.BufferEvent? || event.DrainEvent? || event.FlushedEvent?)
    ensures Core(ProcessEvent(st, event, now).0)
  {
    var st' := ProcessEvent(st, event, now).0;
    forall c <- st.entries ensures Sound(st', st.entries[c]) {
      SoundAnywhere(st, st', st.entries[c]);
    }
  }

  lemma HaltedIsSound(st: Streamer, st': Streamer, e: Entry)
    requires Sound(st, e)
    requires st'.streamedChunks == st.streamedChunks && st'.stream == st.stream && st'.partial == st.partial
    ensures Sound(st', Halted(e))
  {
    CommandSession.StopKeepsInv(e.session);
    CommandSession.PassingOnChanges(e.session, CommandSession.Halt);
  }

  lemma StopIs(st: Streamer, now: Surroundings)
    ensures ProcessEvent(st, StopEvent, now).0 == if st.state.Stopped? then st else StopAll(st).(state := Stopped)
  {
  }

  lemma StoppingKeepsCore(st: Streamer, now: Surroundings)
    requires Core(st)
    ensures Core(ProcessEvent(st, StopEvent, now).0)
  {
    StopIs(st, now);
    if !st.state.Stopped? {
      HaltingKeepsCore(st);
    }
  }

  lemma HaltingKeepsCore(st: Streamer)
    requires Core(st)
    ensures Core(StopAll(st).(state := Stopped))
  {
    var st' := StopAll(st).(state := Stopped);
    forall c <- st.entries ensures Sound(st', st'.entries[c]) {
      HaltedIsSound(st, st', st.entries[c]);
    }
  }

  // ---------- Distribution ----------

  lemma OfferKeepsSession(st: Streamer, e: Entry, chunk: Chunk, room: bool)
    requires CommandSession.Inv(e.session)
    ensures CommandSession.Inv(OfferTo(st, e, chunk, room).0.session)
    ensures var start := Unpausing(e.session, OfferTo(st, e, chunk, room).0.session);
            start.Some? ==> st.state.Playing? && start.value == st.playbackStartedAt
  {
    CommandSession.ConsumeKeepsInv(e.session, OfferOf(st, chunk, room));
    CommandSession.ConsumeSends(e.session, OfferOf(st, chunk, room));
  }

  /** A part of the stream before a chunk joins it is a part of it afterwards. */
  lemma SamePart(st: Streamer, chunk: Chunk, from: nat, to: nat)
    requires st.partial == [] || st.partial == [chunk]
    requires from <= to <= |st.stream + st.partial|
    ensures (st.stream + st.partial)[from..to] == (st.stream + [chunk])[from..to]
  {
  }

  lemma LongerPart(all: seq<Chunk>, from: nat, to: nat)
    requires from <= to < |all|
    ensures all[from..to] + [all[to]] == all[from..to + 1]
  {
  }

  /** A session that is offered the next chunk of the stream. */
  lemma OfferExtendsSlice(st: Streamer, e: Entry, chunk: Chunk, room: bool)
    requires HasSlice(st, e) && (st.partial == [] || st.partial == [chunk])
    ensures var (e', accepted) := OfferTo(st, e, chunk, room);
            && HasSlice(st.(partial := [chunk]), e')
            && (accepted <==> e'.sequence == st.streamedChunks + 1)
  {
    SamePart(st, chunk, e.joined, e.sequence);
    if e.sequence == st.streamedChunks {
      LongerPart(st.stream + [chunk], e.joined, e.sequence);
    }
  }

  lemma OfferExtendsPassed(st: Streamer, e: Entry, chunk: Chunk, room: bool)
    requires HasSlice(st, e) && HasPassed(st, e) && (st.partial == [] || st.partial == [chunk])
    ensures HasPassed(st.(partial := [chunk]), OfferTo(st, e, chunk, room).0)
  {
    var answer := CommandSession.ConsumeChunk(e.session, OfferOf(st, chunk, room));
    CommandSession.PassingOnChanges(e.session, CommandSession.Offered(OfferOf(st, chunk, room)));
    DealtExtendsPassed(st, e, chunk, answer);
  }

  lemma DealtExtendsPassed(st: Streamer, e: Entry, chunk: Chunk, answer: (CommandSession.Session, bool))
    requires HasSlice(st, e) && HasPassed(st, e) && (st.partial == [] || st.partial == [chunk])
    requires CommandSession.PassesOn(answer.0) ==> CommandSession.PassesOn(e.session)
    ensures HasPassed(st.(partial := [chunk]), Dealt(e, st.streamedChunks, answer, chunk).0)
  {
    SamePart(st, chunk, e.since, e.since + |e.passed|);
    if e.sequence == st.streamedChunks {
      LongerPart(st.stream + [chunk], e.since, e.sequence);
    }
  }

  lemma CompletedSlice(st: Streamer, e: Entry, chunk: Chunk, st': Streamer)
    requires HasSlice(st.(partial := [chunk]), e) && HasPassed(st.(partial := [chunk]), e)
    requires e.sequence == st.streamedChunks + 1
    requires st'.stream == st.stream + [chunk] && st'.streamedChunks == st.streamedChunks + 1 && st'.partial == []
    ensures HasSlice(st', e) && HasPassed(st', e)
  {
    assert st'.stream + st'.partial == st.stream + [chunk];
  }

  /** One entry, in the streamer that the distribution leads to. */
  lemma OfferedIsSound(st: Streamer, e: Entry, chunk: Chunk, room: bool, st': Streamer, result: bool)
    requires Sound(st, e) && (st.partial == [] || st.partial == [chunk])
    requires Distributed(st, chunk, st', result) && (result ==> OfferTo(st, e, chunk, room).1)
    ensures Sound(st', OfferTo(st, e, chunk, room).0)
    ensures OfferTo(st, e, chunk, room).1 <==> OfferTo(st, e, chunk, room).0.sequence == st.streamedChunks + 1
  {
    var e' := OfferTo(st, e, chunk, room).0;
    OfferExtendsSlice(st, e, chunk, room);
    OfferExtendsPassed(st, e, chunk, room);
    OfferKeepsSession(st, e, chunk, room);
    if result {
      CompletedSlice(st, e', chunk, st');
    } else {
      assert HasSlice(st', e') && HasPassed(st', e');
    }
  }

  lemma StreamChunkKeepsEntries(st: Streamer, chunk: Chunk, full: set<nat>)
    requires forall c <- st.entries :: Sound(st, st.entries[c])
    requires st.partial == [] || st.partial == [chunk]
    ensures var (st', result) := StreamChunk(st, chunk, full);
            && (forall c <- st'.entries :: Sound(st', st'.entries[c]))
            && (result ==> forall c <- st'.entries :: st'.entries[c].sequence == st'.streamedChunks)
            && (result <==> forall c <- st'.entries :: st'.entries[c].sequence == st.streamedChunks + 1)
  {
    var (st', result) := StreamChunk(st, chunk, full);
    StreamChunkDistributes(st, chunk, full);
    forall c <- st.entries
      ensures Sound(st', st'.entries[c])
      ensures OfferTo(st, st.entries[c], chunk, HasRoom(full, c)).1
         <==> st'.entries[c].sequence == st.streamedChunks + 1
    {
      OfferedIsSound(st, st.entries[c], chunk, HasRoom(full, c), st', result);
    }
  }

  lemma StreamChunkAgrees(st: Streamer, chunk: Chunk, full: set<nat>)
    requires (forall c <- st.entries :: CommandSession.Inv(st.entries[c].session)) && Agrees(st)
    ensures Agrees(StreamChunk(st, chunk, full).0)
  {
    forall c <- st.entries
      ensures var e' := OfferTo(st, st.entries[c], chunk, HasRoom(full, c)).0;
              var start := Unpausing(st.entries[c].session, e'.session);
              start.Some? ==> st.state.Playing? && start.value == st.playbackStartedAt
    {
      OfferKeepsSession(st, st.entries[c], chunk, HasRoom(full, c));
    }
  }

  /** What distribution leaves alone, and what it counts. */
  ghost predicate Distributed(st: Streamer, chunk: Chunk, st': Streamer, result: bool) {
    && st'.state == st.state && st'.samplingRate == st.samplingRate && st'.offered == st.offered
    && st'.bufferingStartedAt == st.bufferingStartedAt && st'.playbackStartedAt == st.playbackStartedAt
    && st'.entries.Keys == st.entries.Keys && st'.fanned == st.fanned + 1 && st.unpaused <= st'.unpaused
    && (if result then
          && st'.streamedChunks == st.streamedChunks + 1 && st'.streamedFrames == st.streamedFrames + chunk.frames
          && st'.stream == st.stream + [chunk] && st'.partial == []
        else
          && st'.streamedChunks == st.streamedChunks && st'.streamedFrames == st.streamedFrames
          && st'.stream == st.stream && st'.partial == [chunk])
  }

  lemma StreamChunkDistributes(st: Streamer, chunk: Chunk, full: set<nat>)
    ensures Distributed(st, chunk, StreamChunk(st, chunk, full).0, StreamChunk(st, chunk, full).1)
  {
  }

  lemma DistributedCore(st: Streamer, chunk: Chunk, st': Streamer, result: bool)
    requires Core(st) && (st.state.Buffering? || st.state.Playing?) && st.offered == Some(chunk)
    requires Distributed(st, chunk, st', result) && Agrees(st')
    requires forall c <- st'.entries :: Sound(st', st'.entries[c])
    ensures Core(st')
  {
    TotalAppend(st.stream, chunk);
    LongerIsNotShorter(st.streamedFrames, st'.streamedFrames, st.samplingRate);
  }

  lemma LongerIsNotShorter(frames: nat, more: nat, samplingRate: nat)
    requires frames <= more
    ensures CalculateDuration(frames, MILLISECONDS, samplingRate) <= CalculateDuration(more, MILLISECONDS, samplingRate)
  {
    if samplingRate != 0 {
      DivMonotone(frames * MILLISECONDS, more * MILLISECONDS, samplingRate);
    }
  }

  lemma StreamChunkKeepsCore(st: Streamer, chunk: Chunk, full: set<nat>)
    requires Core(st) && (st.state.Buffering? || st.state.Playing?) && st.offered == Some(chunk)
    ensures Core(StreamChunk(st, chunk, full).0)
  {
    assert st.partial == [] || st.partial == [chunk];
    forall c <- st.entries ensures CommandSession.Inv(st.entries[c].session) {
      assert Sound(st, st.entries[c]);
    }
    StreamChunkKeepsEntries(st, chunk, full);
    StreamChunkAgrees(st, chunk, full);
    StreamChunkDistributes(st, chunk, full);
    DistributedCore(st, chunk, StreamChunk(st, chunk, full).0, StreamChunk(st, chunk, full).1);
  }

  // ---------- Consuming ----------

  lemma TryPrepareKeepsCore(st: Streamer, chunk: Chunk, now: Surroundings)
    requires Core(st) && st.offered == Some(chunk)
    ensures var st' := TryPrepare(st, chunk, now).0;
            Core(st') && st'.offered == Some(chunk)
  {
    var st1 := st.(samplingRate := chunk.samplingRate);
    if st.state.Started? && chunk.samplingRate != 0 {
      forall c <- st.entries ensures Sound(st1, st.entries[c]) {
        SoundAnywhere(st, st1, st.entries[c]);
      }
      PreparingKeepsCore(st1, now);
    }
  }

  lemma TryBufferKeepsCore(st: Streamer, result: bool, now: Surroundings)
    requires Core(st)
    ensures Core(TryBuffer(st, result, now).0) && TryBuffer(st, result, now).0.offered == st.offered
  {
    MovingKeepsCore(st, BufferEvent, now);
  }

  lemma MaybePlayKeepsCore(st: Streamer, now: Surroundings)
    requires Core(st) && (st.state.Buffering? || st.state.Playing?)
    ensures var st' := MaybePlay(st, now);
            && Core(st') && (st'.state.Buffering? || st'.state.Playing?)
            && st'.offered == st.offered && st'.samplingRate == st.samplingRate && st'.fanned == st.fanned
            && st'.stream == st.stream && st'.partial == st.partial && st'.entries == st.entries
  {
    if st.state.Buffering? {
      PlayingKeepsCore(st, now);
    }
  }

  /** Distributing a chunk and, after the last one, draining. */
  lemma StreamOrDrainKeepsCore(st: Streamer, chunk: Chunk, now: Surroundings)
    requires Core(st) && (st.state.Buffering? || st.state.Playing?) && st.offered == Some(chunk)
    ensures var (st', r) := StreamChunk(st, chunk, now.full);
            && Core(st') && Core(ProcessEvent(st', DrainEvent, now).0)
            && st'.offered == Some(chunk) && (r ==> st'.partial == [])
            && ProcessEvent(st', DrainEvent, now).0 == st'.(state := Draining)
  {
    StreamChunkKeepsCore(st, chunk, now.full);
    StreamChunkDistributes(st, chunk, now.full);
    DrainKeepsCore(StreamChunk(st, chunk, now.full).0, now);
  }

  lemma DrainKeepsCore(st: Streamer, now: Surroundings)
    requires Core(st) && (st.state.Buffering? || st.state.Playing?)
    ensures ProcessEvent(st, DrainEvent, now).0 == st.(state := Draining) && Core(st.(state := Draining))
  {
    MovingKeepsCore(st, DrainEvent, now);
  }

  lemma TryStreamKeepsCore(st: Streamer, result: bool, chunk: Chunk, now: Surroundings)
    requires Core(st) && st.offered == Some(chunk)
    ensures var (st', r) := TryStream(st, result, chunk, now);
            && Core(st') && st'.offered == Some(chunk)
            && (r && (st'.state.Buffering? || st'.state.Playing?) ==> st'.partial == [])
  {
    if st.state.Buffering? || st.state.Playing? {
      MaybePlayKeepsCore(st, now);
      var st1 := MaybePlay(st, now);
      if st1.samplingRate == chunk.samplingRate {
        StreamOrDrainKeepsCore(st1, chunk, now);
      } else {
        MovingKeepsCore(st1, DrainEvent, now);
      }
    }
  }

  lemma TryFlushKeepsCore(st: Streamer, result: bool, now: Surroundings)
    requires Core(st)
    ensures Core(TryFlush(st, result, now).0) && TryFlush(st, result, now).0.offered == st.offered
  {
    MovingKeepsCore(st, FlushedEvent, now);
  }

  lemma EventFans(st: Streamer, event: Event, now: Surroundings)
    ensures ProcessEvent(st, event, now).0.fanned
         == if event.PrepareEvent? && st.state.Started? then 0 else st.fanned
    ensures ProcessEvent(st, event, now).0.state
         == if ProcessEvent(st, event, now).1.Done? then Transition(event, st.state).value.to else st.state
  {
  }

  lemma TryStreamHolds(st: Streamer, result: bool, chunk: Chunk, now: Surroundings)
    requires Held(st) && chunk.endOfStream
    ensures Held(TryStream(st, result, chunk, now).0)
  {
    if st.state.Buffering? || st.state.Playing? {
      EventFans(st, PlayEvent, now);
      TryStreamIs(st, result, chunk, now);
      StreamChunkDistributes(MaybePlay(st, now), chunk, now.full);
    }
  }

  /** An end of stream is distributed at most once, and then the stream is over. */
  lemma FannedOnce(st: Streamer, chunk: Chunk, now: Surroundings)
    requires Held(st) && chunk.endOfStream
    ensures var (st1, r1) := TryPrepare(st, chunk, now);
            var (st2, r2) := TryBuffer(st1, r1, now);
            var (st3, r3) := TryStream(st2, r2, chunk, now);
            Held(TryFlush(st3, r3, now).0)
  {
    EventFans(st.(samplingRate := chunk.samplingRate), PrepareEvent, now);
    var (st1, r1) := TryPrepare(st, chunk, now);
    EventFans(st1, BufferEvent, now);
    var (st2, r2) := TryBuffer(st1, r1, now);
    TryStreamHolds(st2, r2, chunk, now);
    EventFans(TryStream(st2, r2, chunk, now).0, FlushedEvent, now);
  }

  lemma OfferedKeepsCore(st: Streamer, chunk: Chunk)
    requires Core(st) && (st.offered.None? || st.offered == Some(chunk))
    ensures Core(st.(offered := Some(chunk)))
  {
    var st' := st.(offered := Some(chunk));
    forall c <- st.entries ensures Sound(st', st.entries[c]) {
      SoundAnywhere(st, st', st.entries[c]);
    }
  }

  lemma ConsumeKeepsInv(st: Streamer, chunk: Chunk, now: Surroundings)
    requires Inv(st) && (st.offered.None? || st.offered == Some(chunk))
    ensures Inv(ConsumeChunk(st, chunk, now).0)
  {
    var st0 := st.(offered := Some(chunk));
    OfferedKeepsCore(st, chunk);
    TryPrepareKeepsCore(st0, chunk, now);
    var (st1, r1) := TryPrepare(st0, chunk, now);
    TryBufferKeepsCore(st1, r1, now);
    var (st2, r2) := TryBuffer(st1, r1, now);
    TryStreamKeepsCore(st2, r2, chunk, now);
    var (st3, r3) := TryStream(st2, r2, chunk, now);
    TryFlushKeepsCore(st3, r3, now);
    var (st4, r4) := TryFlush(st3, r3, now);
    if chunk.endOfStream {
      FannedOnce(st0, chunk, now);
    }
    if r4 {
      FinishKeepsCore(st4);
    }
  }

  /** Once a chunk is consumed nothing of it is left to distribute. */
  lemma FinishKeepsCore(st: Streamer)
    requires Core(st) && ((st.state.Buffering? || st.state.Playing?) ==> st.partial == [])
    ensures Core(st.(offered := None, fanned := 0))
  {
    var st' := st.(offered := None, fanned := 0);
    forall c <- st.entries ensures Sound(st', st.entries[c]) {
      SoundAnywhere(st, st', st.entries[c]);
    }
  }

  // ---------- Every run ----------

  lemma EntryKeepsCore(st: Streamer, c: nat, e: Entry)
    requires Core(st) && Sound(st, e)
    ensures Core(st.(entries := st.entries[c := e]))
  {
    var st' := st.(entries := st.entries[c := e]);
    forall k <- st'.entries ensures Sound(st', st'.entries[k]) {
      SoundAnywhere(st, st', st'.entries[k]);
    }
  }

  lemma OpenKeepsCore(st: Streamer, c: nat)
    requires Core(st)
    ensures Core(OnOpen(st, c))
  {
    var session := CommandSession.Created(Correlation.Decimal(st.nextID + 1));
    CommandSession.EventKeepsInv(session, CommandSession.StartEvent, 0);
    CommandSession.PassingOnChanges(session, CommandSession.Begin);
    var n := st.streamedChunks;
    var e := Entry(CommandSession.OnStart(session), n, n, [], n, []);
    assert (st.stream + st.partial)[e.joined..e.sequence] == [];
    EntryKeepsCore(st, c, e);
    var st1 := st.(entries := st.entries[c := e]);
    var st2 := OnOpen(st, c);
    forall k <- st2.entries ensures Sound(st2, st2.entries[k]) {
      SoundAnywhere(st1, st2, st1.entries[k]);
    }
  }

  lemma CloseKeepsCore(st: Streamer, c: nat)
    requires Core(st)
    ensures Core(OnClose(st, c))
  {
    var st' := OnClose(st, c);
    forall k <- st'.entries ensures Sound(st', st'.entries[k]) {
      SoundAnywhere(st, st', st.entries[k]);
    }
  }

  lemma PlayerKeepsCore(st: Streamer, c: nat, input: CommandSession.Input)
    requires Core(st) && c in st.entries && FromPlayer(input)
    ensures Core(st.(entries := st.entries[c := Touched(st.entries[c], input)]))
  {
    assert Sound(st, st.entries[c]);
    CommandSession.NextKeepsInv(st.entries[c].session, input);
    CommandSession.PassingOnChanges(st.entries[c].session, input);
    EntryKeepsCore(st, c, Touched(st.entries[c], input));
  }

  lemma StartOrStopKeepsInv(st: Streamer, event: Event, now: Surroundings)
    requires Inv(st) && (event.StartEvent? || event.StopEvent?)
    ensures Inv(ProcessEvent(st, event, now).0)
  {
    EventFans(st, event, now);
    if event.StartEvent? {
      MovingKeepsCore(st, event, now);
    } else {
      StoppingKeepsCore(st, now);
    }
  }

  lemma NextKeepsInv(st: Streamer, i: Input)
    requires Inv(st)
    ensures Inv(Next(st, i))
  {
    if Enabled(st, i) {
      match i {
        case Begin => StartOrStopKeepsInv(st, StartEvent, NOWHERE);
        case Halt(now) => StartOrStopKeepsInv(st, StopEvent, now);
        case Open(c) => OpenKeepsCore(st, c);
        case Close(c) => CloseKeepsCore(st, c);
        case Player(c, input) => PlayerKeepsCore(st, c, input);
        case Deliver(chunk, now) => ConsumeKeepsInv(st, chunk, now);
      }
    }
  }

  lemma {:induction false} RunKeepsInv(inputs: seq<Input>)
    ensures Inv(Run(CREATED, inputs))
  {
    if inputs != [] {
      RunKeepsInv(inputs[..|inputs| - 1]);
      NextKeepsInv(Run(CREATED, inputs[..|inputs| - 1]), inputs[|inputs| - 1]);
    }
  }

  /** On every run of opens, closes, rejections and redeliveries, each session's counter
      is the streamer's or one more, and what the session accepted in the current stream
      is exactly the contiguous part from where it joined to its counter. */
  lemma {:induction false} ExactlyOnce(inputs: seq<Input>, c: nat)
    requires c in Run(CREATED, inputs).entries
    ensures var st := Run(CREATED, inputs);
            var e := st.entries[c];
            && |st.stream| == st.streamedChunks && st.streamedFrames == TotalFrames(st.stream)
            && (e.sequence == st.streamedChunks || (e.sequence == st.streamedChunks + 1 && |st.partial| == 1))
            && e.joined <= e.sequence && e.accepted == (st.stream + st.partial)[e.joined..e.sequence]
  {
    RunKeepsInv(inputs);
    assert Sound(Run(CREATED, inputs), Run(CREATED, inputs).entries[c]);
  }

  /** On every run, from an attach of an HTTP session on, the chunks passed on to it are a
      contiguous part of the stream that begins where it was attached, and no chunk is
      left out before the next detach or drain. */
  lemma {:induction false} PassedOnInOrder(inputs: seq<Input>, c: nat)
    requires c in Run(CREATED, inputs).entries
    ensures var st := Run(CREATED, inputs);
            var e := st.entries[c];
            && e.joined <= e.since && e.since + |e.passed| <= e.sequence <= |st.stream + st.partial|
            && e.passed == (st.stream + st.partial)[e.since..e.since + |e.passed|]
            && (CommandSession.PassesOn(e.session) ==> e.since + |e.passed| == e.sequence)
  {
    RunKeepsInv(inputs);
    assert Sound(Run(CREATED, inputs), Run(CREATED, inputs).entries[c]);
  }

  /** On every run, all sessions told to start since buffering began were told the same
      start time (less each one's own offset), at least 2001 milliseconds after that; and
      while the streamer plays more than two seconds of sound were streamed. */
  lemma {:induction false} PlayersAgree(inputs: seq<Input>)
    ensures var st := Run(CREATED, inputs);
            && st.unpaused <= {st.playbackStartedAt}
            && (st.state.Playing? || st.unpaused != {} ==> st.playbackStartedAt >= st.bufferingStartedAt + MIN_START)
            && (st.state.Playing? ==>
                  MIN_BUFFERING < CalculateDuration(st.streamedFrames, MILLISECONDS, st.samplingRate))
  {
    RunKeepsInv(inputs);
  }

  /** On every run an end of stream is distributed at most once in a stream, however
      often the producer has to offer it. */
  lemma {:induction false} EndIsDistributedOnce(inputs: seq<Input>)
    requires var st := Run(CREATED, inputs); st.offered.Some? && st.offered.value.endOfStream
    ensures Run(CREATED, inputs).fanned <= 1
    ensures Run(CREATED, inputs).fanned == 1 ==> !Streams(Run(CREATED, inputs))
  {
    RunKeepsInv(inputs);
  }

  lemma TryStreamKeepsStart(st: Streamer, chunk: Chunk, now: Surroundings)
    requires st.state.Playing?
    ensures var st' := TryStream(st, false, chunk, now).0;
            && st'.playbackStartedAt == st.playbackStartedAt && st'.bufferingStartedAt == st.bufferingStartedAt
            && st.unpaused <= st'.unpaused
  {
    StreamChunkDistributes(st, chunk, now.full);
    DrainsFrom(st, now);
    DrainsFrom(StreamChunk(st, chunk, now.full).0, now);
  }

  lemma DeliveryKeepsStart(st: Streamer, chunk: Chunk, now: Surroundings)
    requires st.state.Playing?
    ensures var st' := ConsumeChunk(st, chunk, now).0;
            && st'.playbackStartedAt == st.playbackStartedAt && st'.bufferingStartedAt == st.bufferingStartedAt
            && st.unpaused <= st'.unpaused
  {
    var st0 := st.(offered := Some(chunk));
    StreamUnderWay(st0, chunk, now);
    TryStreamKeepsStart(st0, chunk, now);
    var st3 := TryStream(st0, false, chunk, now).0;
  }

  /** The agreed start time does not move while the streamer plays, up to and including
      the call that ends it. */
  lemma StartTimeIsFixed(st: Streamer, i: Input)
    requires st.state.Playing?
    ensures Next(st, i).playbackStartedAt == st.playbackStartedAt
    ensures Next(st, i).bufferingStartedAt == st.bufferingStartedAt
    ensures st.unpaused <= Next(st, i).unpaused
  {
    if i.Deliver? {
      DeliveryKeepsStart(st, i.chunk, i.now);
    }
  }

  lemma ReadySessionIsTold(st: Streamer, e: Entry, chunk: Chunk, room: bool)
    requires st.state.Playing? && IsToBeTold(st, e)
    ensures OfferTo(st, e, chunk, room).0.session.trace == Told(st, e.session)
  {
    var before, o := e.session, OfferOf(st, chunk, room);
    assert CommandSession.Readied(before, o) == before;
    CommandSession.EventSends(before, CommandSession.PlayEvent, o.start);
    CommandSession.EventSends(CommandSession.Joined(before, o), CommandSession.DrainEvent, o.start);
  }

  predicate IsToBeTold(st: Streamer, e: Entry) {
    && e.sequence <= st.streamedChunks && e.session.state.Buffering?
    && CommandSession.Allows(CommandSession.ReadyToPlay, e.session)
  }

  /** A session's history once it was told the agreed start time. */
  function Told(st: Streamer, s: CommandSession.Session): List<CommandSession.Mark> {
    Cons(CommandSession.Sent(CommandSession.Unpause(st.playbackStartedAt - 1000 * s.timeOffset.UnwrapOr(0))), s.trace)
  }

  /** Every session that is ready when a chunk is offered during playback is told the
      agreed start time there and then, latecomers included. */
  lemma ReadySessionsAreTold(st: Streamer, chunk: Chunk, full: set<nat>)
    requires st.state.Playing?
    ensures forall c <- st.entries :: IsToBeTold(st, st.entries[c]) ==>
              StreamChunk(st, chunk, full).0.entries[c].session.trace == Told(st, st.entries[c].session)
  {
    forall c <- st.entries | IsToBeTold(st, st.entries[c])
      ensures OfferTo(st, st.entries[c], chunk, HasRoom(full, c)).0.session.trace == Told(st, st.entries[c].session)
    {
      ReadySessionIsTold(st, st.entries[c], chunk, HasRoom(full, c));
    }
  }

  // ---------- What was sent ----------

  /** Every Unpause that a step added to a session's history was due, and names the start
      time of the streamer after the step less the session's offset. */
  ghost predicate Tells(before: CommandSession.Session, after: CommandSession.Session, st': Streamer) {
    CommandSession.Adds(before.trace, after.trace, st'.playbackStartedAt in st'.unpaused,
                        st'.playbackStartedAt - 1000 * before.timeOffset.UnwrapOr(0))
  }

  /** The marks that an offer can add. */
  ghost predicate AddsOne(st: Streamer, before: CommandSession.Session, after: CommandSession.Session) {
    || after.trace == before.trace
    || after.trace == Cons(CommandSession.Sent(CommandSession.Start(st.samplingRate, before.clientID)), before.trace)
    || (after.trace == Told(st, before) && Unpausing(before, after) == Some(st.playbackStartedAt))
  }

  lemma OfferTells(st: Streamer, e: Entry, chunk: Chunk, room: bool)
    ensures AddsOne(st, e.session, OfferTo(st, e, chunk, room).0.session)
  {
    var o := OfferOf(st, chunk, room);
    CommandSession.ConsumeSends(e.session, o);
    MarkIsOne(st, e.session, CommandSession.ConsumeChunk(e.session, o).0, o);
  }

  lemma MarkIsOne(st: Streamer, before: CommandSession.Session, after: CommandSession.Session, o: CommandSession.Offer)
    requires o.start == st.playbackStartedAt && o.samplingRate == st.samplingRate
    requires after.timeOffset == before.timeOffset
    requires
      || after.trace == before.trace
      || after.trace == Cons(CommandSession.Sent(CommandSession.Start(o.samplingRate, before.clientID)), before.trace)
      || (var at := o.start - 1000 * before.timeOffset.UnwrapOr(0);
          after.trace == Cons(CommandSession.Sent(CommandSession.Unpause(at)), before.trace))
    ensures AddsOne(st, before, after)
  {
  }

  lemma StartIsRecorded(before: map<nat, Entry>, after: map<nat, Entry>, c: nat, start: int)
    requires before.Keys == after.Keys && c in before
    requires Unpausing(before[c].session, after[c].session) == Some(start)
    ensures start in StartTimes(before, after)
  {
  }

  lemma StreamChunkTells(st: Streamer, chunk: Chunk, full: set<nat>, c: nat)
    requires c in st.entries
    ensures var st' := StreamChunk(st, chunk, full).0;
            Tells(st.entries[c].session, st'.entries[c].session, st')
  {
    var e, room := st.entries[c], HasRoom(full, c);
    StreamChunkRecords(st, chunk, full, c);
    OfferTells(st, e, chunk, room);
    OneMarkTells(st, e.session, OfferTo(st, e, chunk, room).0.session, StreamChunk(st, chunk, full).0);
  }

  lemma StreamChunkRecords(st: Streamer, chunk: Chunk, full: set<nat>, c: nat)
    requires c in st.entries
    ensures var st' := StreamChunk(st, chunk, full).0;
            var e' := OfferTo(st, st.entries[c], chunk, HasRoom(full, c)).0;
            && st'.entries.Keys == st.entries.Keys && st'.entries[c] == e'
            && st'.playbackStartedAt == st.playbackStartedAt
            && (Unpausing(st.entries[c].session, e'.session) == Some(st.playbackStartedAt) ==>
                  st.playbackStartedAt in st'.unpaused)
  {
    var entries := OfferedAll(st, chunk, full);
    if Unpausing(st.entries[c].session, entries[c].session) == Some(st.playbackStartedAt) {
      StartIsRecorded(st.entries, entries, c, st.playbackStartedAt);
    }
  }

  lemma OneMarkTells(st: Streamer, before: CommandSession.Session, after: CommandSession.Session, st': Streamer)
    requires AddsOne(st, before, after)
    requires st'.playbackStartedAt == st.playbackStartedAt
    requires Unpausing(before, after) == Some(st.playbackStartedAt) ==> st.playbackStartedAt in st'.unpaused
    ensures Tells(before, after, st')
  {
  }

  lemma TellsLater(before: CommandSession.Session, after: CommandSession.Session, st: Streamer, st': Streamer)
    requires Tells(before, after, st)
    requires st'.playbackStartedAt == st.playbackStartedAt && st'.unpaused == st.unpaused
    ensures Tells(before, after, st')
  {
  }

  /** The streamer once it distributed a chunk, if it did. */
  ghost function Streamed(st: Streamer, chunk: Chunk, full: set<nat>): Streamer {
    if st.samplingRate == chunk.samplingRate then StreamChunk(st, chunk, full).0 else st
  }

  lemma TryStreamIs(st: Streamer, result: bool, chunk: Chunk, now: Surroundings)
    requires st.state.Buffering? || st.state.Playing?
    ensures var st2 := Streamed(MaybePlay(st, now), chunk, now.full);
            TryStream(st, result, chunk, now).0
            == if st.samplingRate != chunk.samplingRate || chunk.endOfStream then st2.(state := Draining) else st2
  {
    PlayingChangesNoEntry(st, now);
    var st1 := MaybePlay(st, now);
    StreamChunkDistributes(st1, chunk, now.full);
    DrainsFrom(Streamed(st1, chunk, now.full), now);
  }

  lemma TryStreamTells(st: Streamer, result: bool, chunk: Chunk, now: Surroundings, c: nat)
    requires c in st.entries
    ensures var st' := TryStream(st, result, chunk, now).0;
            c in st'.entries && Tells(st.entries[c].session, st'.entries[c].session, st')
  {
    if st.state.Buffering? || st.state.Playing? {
      PlayingChangesNoEntry(st, now);
      TryStreamIs(st, result, chunk, now);
      StreamedTells(MaybePlay(st, now), chunk, now.full, c);
      var st2, st' := Streamed(MaybePlay(st, now), chunk, now.full), TryStream(st, result, chunk, now).0;
      TellsLater(st.entries[c].session, st2.entries[c].session, st2, st');
    }
  }

  lemma StreamedTells(st: Streamer, chunk: Chunk, full: set<nat>, c: nat)
    requires c in st.entries
    ensures var st' := Streamed(st, chunk, full);
            c in st'.entries && Tells(st.entries[c].session, st'.entries[c].session, st')
  {
    StreamChunkTells(st, chunk, full, c);
  }

  lemma FlushTells(st: Streamer, result: bool, now: Surroundings)
    ensures var st' := TryFlush(st, result, now).0;
            st'.entries == st.entries && st'.playbackStartedAt == st.playbackStartedAt && st'.unpaused == st.unpaused
  {
  }

  lemma PrepareTells(st: Streamer, chunk: Chunk, now: Surroundings, c: nat)
    requires c in st.entries
    ensures var st' := TryPrepare(st, chunk, now).0;
            var s := st.entries[c].session;
            && c in st'.entries && st'.entries[c].session.timeOffset == s.timeOffset
            && (st'.entries[c].session.trace == s.trace
                || st'.entries[c].session.trace
                   == Cons(CommandSession.Sent(CommandSession.Start(chunk.samplingRate, s.clientID)), s.trace))
  {
    CommandSession.PrepareAdds(st.entries[c].session, chunk.samplingRate);
  }

  lemma DeliveryTells(st: Streamer, chunk: Chunk, now: Surroundings, c: nat)
    requires c in st.entries
    ensures var st' := ConsumeChunk(st, chunk, now).0;
            c in st'.entries && Tells(st.entries[c].session, st'.entries[c].session, st')
  {
    var st0 := st.(offered := Some(chunk));
    PrepareTells(st0, chunk, now, c);
    var (st1, r1) := TryPrepare(st0, chunk, now);
    BufferTells(st1, r1, now);
    var (st2, r2) := TryBuffer(st1, r1, now);
    TryStreamTells(st2, r2, chunk, now, c);
    var (st3, r3) := TryStream(st2, r2, chunk, now);
    FlushTells(st3, r3, now);
    var before, after, st' := st.entries[c].session, st3.entries[c].session, ConsumeChunk(st, chunk, now).0;
    TellsAfterStart(before, st1.entries[c].session, after, chunk.samplingRate, st3);
    TellsLater(before, after, st3, st');
  }

  lemma BufferTells(st: Streamer, result: bool, now: Surroundings)
    ensures TryBuffer(st, result, now).0.entries == st.entries
  {
  }

  lemma TellsAfterStart(before: CommandSession.Session, prepared: CommandSession.Session,
                        after: CommandSession.Session, samplingRate: nat, st': Streamer)
    requires Tells(prepared, after, st') && prepared.timeOffset == before.timeOffset
    requires || prepared.trace == before.trace
             || prepared.trace
                == Cons(CommandSession.Sent(CommandSession.Start(samplingRate, before.clientID)), before.trace)
    ensures Tells(before, after, st')
  {
    if prepared.trace != before.trace {
      CommandSession.AddsAfter(prepared.trace.head, before.trace, after.trace, st'.playbackStartedAt in st'.unpaused,
                               st'.playbackStartedAt - 1000 * before.timeOffset.UnwrapOr(0));
    }
  }

  lemma HaltTells(st: Streamer, now: Surroundings, c: nat)
    requires c in st.entries
    ensures var st' := ProcessEvent(st, StopEvent, now).0;
            c in st'.entries && Tells(st.entries[c].session, st'.entries[c].session, st')
  {
    StopIs(st, now);
    var st' := ProcessEvent(st, StopEvent, now).0;
    CommandSession.HaltAdds(st.entries[c].session, st'.playbackStartedAt in st'.unpaused,
                            st'.playbackStartedAt - 1000 * st.entries[c].session.timeOffset.UnwrapOr(0));
  }

  lemma PlayerTells(st: Streamer, input: CommandSession.Input, c: nat)
    requires c in st.entries && FromPlayer(input)
    ensures Tells(st.entries[c].session, Touched(st.entries[c], input).session, st)
  {
    var s := st.entries[c].session;
    CommandSession.OnlyOffersUnpause(s, input, st.playbackStartedAt in st.unpaused,
                                     st.playbackStartedAt - 1000 * s.timeOffset.UnwrapOr(0));
  }

  lemma NextTells(st: Streamer, i: Input, c: nat)
    requires c in st.entries && c in Next(st, i).entries
    ensures Tells(st.entries[c].session, Next(st, i).entries[c].session, Next(st, i))
  {
    match i {
      case Deliver(chunk, now) => DeliveryTells(st, chunk, now, c);
      case Halt(now) => HaltTells(st, now, c);
      case Player(d, input) =>
        if d == c && FromPlayer(input) {
          PlayerTells(st, input, c);
          TellsLater(st.entries[c].session, Touched(st.entries[c], input).session, st, Next(st, i));
        }
      case _ =>
    }
  }

  /** The histories before and after a step, and the start time that every Unpause added
      in between names. */
  ghost predicate NamesTheStart(session: CommandSession.Session, session': CommandSession.Session, st': Streamer) {
    var before, after := CommandSession.History(session.trace), CommandSession.History(session'.trace);
    && before <= after
    && forall k :: |before| <= k < |after| && CommandSession.IsUnpause(after[k]) ==>
         && after[k].command.at == st'.playbackStartedAt - 1000 * session.timeOffset.UnwrapOr(0)
         && st'.unpaused == {st'.playbackStartedAt}
         && st'.playbackStartedAt >= st'.bufferingStartedAt + MIN_START
  }

  lemma ToldIsAgreed(session: CommandSession.Session, session': CommandSession.Session, st': Streamer)
    requires Tells(session, session', st') && Agrees(st')
    ensures NamesTheStart(session, session', st')
  {
    CommandSession.AddsToHistory(session.trace, session'.trace, st'.playbackStartedAt in st'.unpaused,
                                 st'.playbackStartedAt - 1000 * session.timeOffset.UnwrapOr(0));
  }

  /** On every run, whatever the next step: every Unpause that it adds to the history of
      a live session names the one start time of the streamer, less that session's own
      time offset, and 2001 milliseconds or more after buffering began. */
  lemma {:induction false} UnpausesNameTheStart(inputs: seq<Input>, i: Input, c: nat)
    requires c in Run(CREATED, inputs).entries && c in Next(Run(CREATED, inputs), i).entries
    ensures var st, st' := Run(CREATED, inputs), Next(Run(CREATED, inputs), i);
            NamesTheStart(st.entries[c].session, st'.entries[c].session, st')
  {
    var st := Run(CREATED, inputs);
    RunKeepsInv(inputs);
    NextKeepsInv(st, i);
    NextTells(st, i, c);
    ToldIsAgreed(st.entries[c].session, Next(st, i).entries[c].session, Next(st, i));
  }

  // ---------- Correlation ----------

  /** The ID is a number that was handed out. */
  ghost predicate IsNamed(session: CommandSession.Session, nextID: nat) {
    exists n: nat :: n <= nextID && session.clientID == Correlation.Decimal(n)
  }

  ghost predicate Named(st: Streamer) {
    && (forall c <- st.entries :: IsNamed(st.entries[c].session, st.nextID))
    && (forall c, d :: c in st.entries && d in st.entries && c != d ==>
          st.entries[c].session.clientID != st.entries[d].session.clientID)
  }

  ghost function Names(entries: map<nat, Entry>): map<nat, string> {
    map c | c in entries :: entries[c].session.clientID
  }

  /** The same connections with the same IDs. */
  ghost predicate SameNames(st: Streamer, st': Streamer) {
    st'.nextID == st.nextID && Names(st'.entries) == Names(st.entries)
  }

  ghost predicate SessionsSound(st: Streamer) {
    forall c <- st.entries :: CommandSession.Inv(st.entries[c].session)
  }

  lemma CoreSessions(st: Streamer)
    requires Core(st)
    ensures SessionsSound(st)
  {
    forall c <- st.entries ensures CommandSession.Inv(st.entries[c].session) {
      assert Sound(st, st.entries[c]);
    }
  }

  lemma PreparingKeepsNames(st: Streamer)
    requires SessionsSound(st)
    ensures Names(Refreshed(st.entries, st.samplingRate)) == Names(st.entries)
  {
    forall c <- st.entries
      ensures Fresh(st.entries[c], st.samplingRate).session.clientID == st.entries[c].session.clientID
    {
      CommandSession.PrepareKeepsInv(st.entries[c].session, st.samplingRate);
    }
  }

  lemma StoppingKeepsNames(st: Streamer)
    requires SessionsSound(st)
    ensures Names(StopAll(st).entries) == Names(st.entries)
  {
    forall c <- st.entries
      ensures CommandSession.OnStop(st.entries[c].session).clientID == st.entries[c].session.clientID
    {
      CommandSession.StopKeepsInv(st.entries[c].session);
    }
  }

  lemma EventKeepsNames(st: Streamer, event: Event, now: Surroundings)
    requires SessionsSound(st)
    ensures SameNames(st, ProcessEvent(st, event, now).0)
  {
    PreparingKeepsNames(st);
    StoppingKeepsNames(st);
  }

  lemma StreamChunkKeepsNames(st: Streamer, chunk: Chunk, full: set<nat>)
    requires SessionsSound(st)
    ensures SameNames(st, StreamChunk(st, chunk, full).0)
  {
    forall c <- st.entries
      ensures OfferTo(st, st.entries[c], chunk, HasRoom(full, c)).0.session.clientID == st.entries[c].session.clientID
    {
      CommandSession.ConsumeKeepsInv(st.entries[c].session, OfferOf(st, chunk, HasRoom(full, c)));
    }
  }

  lemma StreamOrDrainKeepsNames(st: Streamer, chunk: Chunk, now: Surroundings)
    requires Core(st) && (st.state.Buffering? || st.state.Playing?) && st.offered == Some(chunk)
    ensures var st' := StreamChunk(st, chunk, now.full).0;
            SameNames(st, st') && SameNames(st, ProcessEvent(st', DrainEvent, now).0)
    ensures SameNames(st, ProcessEvent(st, DrainEvent, now).0)
  {
    CoreSessions(st);
    StreamChunkKeepsNames(st, chunk, now.full);
    StreamOrDrainKeepsCore(st, chunk, now);
    DrainsFrom(st, now);
  }

  lemma TryStreamKeepsNames(st: Streamer, result: bool, chunk: Chunk, now: Surroundings)
    requires Core(st) && st.offered == Some(chunk)
    ensures SameNames(st, TryStream(st, result, chunk, now).0)
  {
    if st.state.Buffering? || st.state.Playing? {
      CoreSessions(st);
      EventKeepsNames(st, PlayEvent, now);
      MaybePlayKeepsCore(st, now);
      StreamOrDrainKeepsNames(MaybePlay(st, now), chunk, now);
    }
  }

  lemma TryPrepareKeepsNames(st: Streamer, chunk: Chunk, now: Surroundings)
    requires SessionsSound(st)
    ensures SameNames(st, TryPrepare(st, chunk, now).0)
  {
    EventKeepsNames(st.(samplingRate := chunk.samplingRate), PrepareEvent, now);
  }

  lemma OthersKeepNames(st: Streamer, result: bool, now: Surroundings)
    requires SessionsSound(st)
    ensures SameNames(st, TryBuffer(st, result, now).0) && SameNames(st, TryFlush(st, result, now).0)
  {
    EventKeepsNames(st, BufferEvent, now);
    EventKeepsNames(st, FlushedEvent, now);
  }

  lemma ConsumeKeepsNames(st: Streamer, chunk: Chunk, now: Surroundings)
    requires Inv(st) && (st.offered.None? || st.offered == Some(chunk))
    ensures SameNames(st, ConsumeChunk(st, chunk, now).0)
  {
    var st0 := st.(offered := Some(chunk));
    OfferedKeepsCore(st, chunk);
    CoreSessions(st0);
    TryPrepareKeepsNames(st0, chunk, now);
    TryPrepareKeepsCore(st0, chunk, now);
    var (st1, r1) := TryPrepare(st0, chunk, now);
    CoreSessions(st1);
    OthersKeepNames(st1, r1, now);
    TryBufferKeepsCore(st1, r1, now);
    var (st2, r2) := TryBuffer(st1, r1, now);
    TryStreamKeepsNames(st2, r2, chunk, now);
    TryStreamKeepsCore(st2, r2, chunk, now);
    var (st3, r3) := TryStream(st2, r2, chunk, now);
    CoreSessions(st3);
    OthersKeepNames(st3, r3, now);
  }

  lemma SameNamesNamed(st: Streamer, st': Streamer)
    requires Named(st) && SameNames(st, st')
    ensures Named(st')
  {
    forall c <- st'.entries
      ensures c in st.entries && st'.entries[c].session.clientID == st.entries[c].session.clientID
    {
      assert c in Names(st'.entries);
      assert Names(st'.entries)[c] == Names(st.entries)[c];
    }
    forall c <- st'.entries ensures IsNamed(st'.entries[c].session, st'.nextID) {
      assert IsNamed(st.entries[c].session, st.nextID);
    }
  }

  /** A new ID is larger than all before it. */
  lemma OpenKeepsNamed(st: Streamer, c: nat)
    requires Named(st) && c !in st.entries
    ensures Named(OnOpen(st, c))
  {
    var st' := OnOpen(st, c);
    var id := Correlation.Decimal(st'.nextID);
    assert st'.entries[c].session.clientID == id;
    forall d <- st.entries
      ensures IsNamed(st'.entries[d].session, st'.nextID) && st'.entries[d].session.clientID != id
    {
      assert IsNamed(st.entries[d].session, st.nextID);
      var n: nat :| n <= st.nextID && st.entries[d].session.clientID == Correlation.Decimal(n);
      if Correlation.Decimal(n) == id {
        Correlation.DecimalIsInjective(n, st'.nextID);
      }
    }
  }

  lemma CloseKeepsNamed(st: Streamer, c: nat)
    requires Named(st)
    ensures Named(OnClose(st, c))
  {
    forall d <- OnClose(st, c).entries ensures IsNamed(st.entries[d].session, st.nextID) {
    }
  }

  lemma PlayerKeepsNames(st: Streamer, c: nat, input: CommandSession.Input)
    requires SessionsSound(st) && c in st.entries
    ensures Names(st.entries[c := Touched(st.entries[c], input)]) == Names(st.entries)
  {
    CommandSession.NextKeepsInv(st.entries[c].session, input);
  }

  /** Only opening and closing change who has which ID. */
  lemma NextKeepsNames(st: Streamer, i: Input)
    requires Inv(st) && !i.Open? && !i.Close?
    ensures SameNames(st, Next(st, i))
  {
    if Enabled(st, i) {
      CoreSessions(st);
      match i {
        case Begin => EventKeepsNames(st, StartEvent, NOWHERE);
        case Halt(now) => EventKeepsNames(st, StopEvent, now);
        case Player(c, input) => PlayerKeepsNames(st, c, input);
        case Deliver(chunk, now) => ConsumeKeepsNames(st, chunk, now);
      }
    }
  }

  lemma NextKeepsNamed(st: Streamer, i: Input)
    requires Inv(st) && Named(st)
    ensures Named(Next(st, i))
  {
    match i {
      case Open(c) =>
        if Enabled(st, i) {
          OpenKeepsNamed(st, c);
        }
      case Close(c) => CloseKeepsNamed(st, c);
      case _ =>
        NextKeepsNames(st, i);
        SameNamesNamed(st, Next(st, i));
    }
  }

  lemma {:induction false} RunKeepsNamed(inputs: seq<Input>)
    ensures Named(Run(CREATED, inputs))
  {
    if inputs != [] {
      RunKeepsInv(inputs[..|inputs| - 1]);
      RunKeepsNamed(inputs[..|inputs| - 1]);
      NextKeepsNamed(Run(CREATED, inputs[..|inputs| - 1]), inputs[|inputs| - 1]);
    }
  }

  lemma {:induction false} StartCarriesName(trace: List<CommandSession.Mark>, clientID: string, k: nat)
    requires CommandSession.StartsName(trace, clientID)
    requires k < |CommandSession.History(trace)| && CommandSession.IsStart(CommandSession.History(trace)[k])
    ensures CommandSession.History(trace)[k].command.clientID == clientID
  {
    if k < |CommandSession.History(trace.tail)| {
      StartCarriesName(trace.tail, clientID, k);
    }
  }

  /** On every run: the ID parsed out of the request that any Start of a live session put
      on the wire is that session's ID, and no other live session has it. */
  lemma {:induction false} RequestFindsItsSession(inputs: seq<Input>, c: nat, k: nat)
    requires c in Run(CREATED, inputs).entries && Run(CREATED, inputs).nextID < 0x8000_0000_0000_0000
    requires var trace := CommandSession.History(Run(CREATED, inputs).entries[c].session.trace);
             k < |trace| && CommandSession.IsStart(trace[k])
    ensures var st := Run(CREATED, inputs);
            var clientID := CommandSession.History(st.entries[c].session.trace)[k].command.clientID;
            var request := Correlation.Request(clientID);
            && |request| < Correlation.HEADER_SIZE
            && Correlation.ParseClientID(Correlation.Transmitted(Correlation.HeaderField(request)))
               == Some(st.entries[c].session.clientID)
            && forall d <- st.entries :: st.entries[d].session.clientID == st.entries[c].session.clientID ==> d == c
  {
    var st := Run(CREATED, inputs);
    RunKeepsInv(inputs);
    RunKeepsNamed(inputs);
    assert Sound(st, st.entries[c]);
    StartCarriesName(st.entries[c].session.trace, st.entries[c].session.clientID, k);
    assert IsNamed(st.entries[c].session, st.nextID);
    var n: nat :| n <= st.nextID && st.entries[c].session.clientID == Correlation.Decimal(n);
    Correlation.NumbersComeBack(n);
  }

  // ---------- What being consumed means ----------

  /** The stages before distribution: a stream is begun or goes on. */
  lemma BeginsOrGoesOn(st: Streamer, chunk: Chunk, now: Surroundings) returns (st2: Streamer, r2: bool)
    requires Core(st) && st.offered == Some(chunk) && chunk.samplingRate != 0
    requires st.state.Started? || (Streams(st) && st.samplingRate == chunk.samplingRate)
    ensures (st2, r2) == TryBuffer(TryPrepare(st, chunk, now).0, TryPrepare(st, chunk, now).1, now)
    ensures Core(st2) && Streams(st2) && st2.samplingRate == chunk.samplingRate && st2.offered == st.offered
    ensures st2.entries.Keys == st.entries.Keys
    ensures st2.stream == if st.state.Started? then [] else st.stream
    ensures st2.state.Preparing? ==> !r2
  {
    TryPrepareKeepsCore(st, chunk, now);
    var (st1, r1) := TryPrepare(st, chunk, now);
    TryBufferKeepsCore(st1, r1, now);
    st2, r2 := TryBuffer(st1, r1, now).0, TryBuffer(st1, r1, now).1;
  }

  /** The distribution of a chunk at the rate of the stream that does not end it. */
  lemma GoesToEverySession(st: Streamer, result: bool, chunk: Chunk, now: Surroundings)
    requires Core(st) && (st.state.Buffering? || st.state.Playing?) && st.offered == Some(chunk)
    requires st.samplingRate == chunk.samplingRate && !chunk.endOfStream
    ensures var (st', r) := TryStream(st, result, chunk, now);
            && !st'.state.Draining? && st'.entries.Keys == st.entries.Keys
            && st'.stream == (if r then st.stream + [chunk] else st.stream)
            && (r ==> st'.partial == [] && forall c <- st'.entries :: st'.entries[c].sequence == st'.streamedChunks)
  {
    MaybePlayKeepsCore(st, now);
    var st1 := MaybePlay(st, now);
    assert st1.partial == [] || st1.partial == [chunk];
    StreamChunkDistributes(st1, chunk, now.full);
    StreamChunkKeepsEntries(st1, chunk, now.full);
    assert TryStream(st, result, chunk, now) == StreamChunk(st1, chunk, now.full);
  }

  /** A chunk, not the last, at the rate of the stream or beginning one: it is consumed
      exactly when it joins the stream, and then every session's counter is past it. */
  lemma {:induction false} NoSilentLoss(st: Streamer, chunk: Chunk, now: Surroundings)
    requires Inv(st) && (st.offered.None? || st.offered == Some(chunk))
    requires !chunk.endOfStream && chunk.samplingRate != 0
    requires st.state.Started? || (Streams(st) && st.samplingRate == chunk.samplingRate)
    ensures var (st', result) := ConsumeChunk(st, chunk, now);
            var before := if st.state.Started? then [] else st.stream;
            && st'.stream == (if result then before + [chunk] else before)
            && st'.entries.Keys == st.entries.Keys
            && (result ==>
                  && st'.partial == []
                  && forall c <- st'.entries :: st'.entries[c].sequence == st'.streamedChunks)
  {
    OfferedKeepsCore(st, chunk);
    var st2, r2 := BeginsOrGoesOn(st.(offered := Some(chunk)), chunk, now);
    if !st2.state.Preparing? {
      GoesToEverySession(st2, r2, chunk, now);
    }
  }

  lemma AcceptedWithRoom(st: Streamer, chunk: Chunk, full: set<nat>)
    requires full !! st.entries.Keys
    ensures AllAccept(st, chunk, full)
  {
    forall c <- st.entries ensures OfferTo(st, st.entries[c], chunk, HasRoom(full, c)).1 {
      assert HasRoom(full, c);
      CommandSession.RefusedExactlyWhenFull(st.entries[c].session, OfferOf(st, chunk, true));
    }
  }

  /** The first stages when preparing took long enough. */
  lemma BuffersAfterWaiting(st: Streamer, chunk: Chunk, now: Surroundings)
    requires chunk.samplingRate != 0 && (st.state.Started? || Streams(st))
    requires var since := if st.state.Started? then now.preparing else st.preparingStartedAt;
             st.state.Started? || st.state.Preparing? ==> MAX_PREPARING < Quotient(now.waiting - since, 1000)
    ensures var st' := TryBuffer(TryPrepare(st, chunk, now).0, TryPrepare(st, chunk, now).1, now).0;
            st'.state.Buffering? || st'.state.Playing?
  {
  }

  /** Nothing but a full HTTP session holds a chunk back for more than two seconds: a
      chunk, not the last, at the rate of the stream or beginning one, is consumed if every
      HTTP session has room and the streamer has prepared for long enough. */
  lemma {:induction false} RoomMeansConsumed(st: Streamer, chunk: Chunk, now: Surroundings)
    requires Inv(st) && (st.offered.None? || st.offered == Some(chunk))
    requires !chunk.endOfStream && chunk.samplingRate != 0
    requires st.state.Started? || (Streams(st) && st.samplingRate == chunk.samplingRate)
    requires now.full !! st.entries.Keys
    requires var since := if st.state.Started? then now.preparing else st.preparingStartedAt;
             st.state.Started? || st.state.Preparing? ==> MAX_PREPARING < Quotient(now.waiting - since, 1000)
    ensures ConsumeChunk(st, chunk, now).1
  {
    var st0 := st.(offered := Some(chunk));
    OfferedKeepsCore(st, chunk);
    BuffersAfterWaiting(st0, chunk, now);
    var st2, r2 := BeginsOrGoesOn(st0, chunk, now);
    MaybePlayKeepsCore(st2, now);
    AcceptedWithRoom(MaybePlay(st2, now), chunk, now.full);
    GoesToEverySession(st2, r2, chunk, now);
  }

  /** While it drains, the streamer distributes nothing, and the chunk on offer is
      consumed exactly when no session is draining any more. */
  lemma DrainingHoldsBack(st: Streamer, chunk: Chunk, now: Surroundings)
    requires st.state.Draining?
    ensures var (st', result) := ConsumeChunk(st, chunk, now);
            && st'.entries == st.entries && st'.stream == st.stream && st'.streamedFrames == st.streamedFrames
            && (result <==> forall c <- st.entries :: !st.entries[c].session.state.Draining?)
            && st'.state == if result then Started else Draining
  {
  }

  /** A chunk gets as far as being distributed: a stream is under way, or it is one that
      was prepared and may buffer now. */
  predicate Distributes(st: Streamer, now: Surroundings) {
    st.state.Buffering? || st.state.Playing? || (st.state.Preparing? && Allows(ReadyToBuffer, st, now))
  }

  /** The streamer once it began a stream for the chunk, if it begins one. */
  function Begun(st: Streamer, chunk: Chunk, now: Surroundings): Streamer {
    TryPrepare(st.(offered := Some(chunk)), chunk, now).0
  }

  /** What the stages before distribution do. */
  lemma FirstStages(st: Streamer, chunk: Chunk, now: Surroundings)
    ensures var (st1, r1) := TryPrepare(st, chunk, now);
            var (st2, r2) := TryBuffer(st1, r1, now);
            && st2.entries == st1.entries && st2.streamedChunks == st1.streamedChunks && st2.stream == st1.stream
            && st2.samplingRate == st1.samplingRate
            && (if Distributes(st1, now) then st2.state.Buffering? || st2.state.Playing?
                else st2.state == st1.state && (r2 <==> st.state.Started? && chunk.samplingRate == 0))
  {
  }

  predicate NoneDrains(st: Streamer) {
    forall c <- st.entries :: !st.entries[c].session.state.Draining?
  }

  /** From every state: an end of stream, or a chunk at another rate than that of the
      stream, is consumed exactly when its stream was distributed or drains and no session
      is draining any more, and that ends the stream; until then it is held. The one
      exception is an end of stream without a rate where there is no stream, which is
      consumed at once. */
  lemma EndIsHeld(st: Streamer, chunk: Chunk, now: Surroundings)
    requires chunk.endOfStream || (!st.state.Started? && st.samplingRate != chunk.samplingRate)
    ensures var (st', result) := ConsumeChunk(st, chunk, now);
            if st.state.Started? && chunk.samplingRate == 0 then
              result && st'.state.Started? && st'.entries == st.entries
            else if st.state.Draining? || Distributes(Begun(st, chunk, now), now) then
              (result <==> NoneDrains(st')) && st'.state == if result then Started else Draining
            else
              !result && st'.state == Begun(st, chunk, now).state
  {
    var st0 := st.(offered := Some(chunk));
    FirstStages(st0, chunk, now);
    var (st1, r1) := TryPrepare(st0, chunk, now);
    var (st2, r2) := TryBuffer(st1, r1, now);
    if Distributes(st1, now) {
      TryStreamIs(st2, r2, chunk, now);
      FlushDecides(TryStream(st2, r2, chunk, now).0, TryStream(st2, r2, chunk, now).1, now);
    } else if st.state.Draining? {
      FlushDecides(st2, r2, now);
    }
  }

  lemma DrainsFrom(st: Streamer, now: Surroundings)
    requires st.state.Buffering? || st.state.Playing?
    ensures ProcessEvent(st, DrainEvent, now).0 == st.(state := Draining)
  {
  }

  /** The last stage while draining. */
  lemma FlushDecides(st: Streamer, result: bool, now: Surroundings)
    requires st.state.Draining?
    ensures var (st', r) := TryFlush(st, result, now);
            && st'.entries == st.entries && st'.stream == st.stream
            && (r <==> forall c <- st.entries :: !st.entries[c].session.state.Draining?)
            && st'.state == if r then Started else Draining
  {
  }

  /** With a stream under way the first two stages do nothing. */
  lemma StreamUnderWay(st: Streamer, chunk: Chunk, now: Surroundings)
    requires st.state.Buffering? || st.state.Playing?
    ensures TryPrepare(st, chunk, now) == (st, false) && TryBuffer(st, false, now) == (st, false)
  {
  }

  /** A chunk at another rate is never distributed, not even when it is consumed: the
      stream, every session and all the counters stay as they are. */
  lemma OtherRateIsLost(st: Streamer, chunk: Chunk, now: Surroundings)
    requires (st.state.Buffering? || st.state.Playing?) && st.samplingRate != chunk.samplingRate
    ensures var (st', result) := ConsumeChunk(st, chunk, now);
            && st'.entries == st.entries && st'.stream == st.stream && st'.streamedFrames == st.streamedFrames
            && (result <==> forall c <- st.entries :: !st.entries[c].session.state.Draining?)
  {
    var st0 := st.(offered := Some(chunk));
    assert TryBuffer(TryPrepare(st0, chunk, now).0, false, now) == (st0, false);
    var st1 := MaybePlay(st0, now);
    assert TryStream(st0, false, chunk, now) == (st1.(state := Draining), false);
  }

  // ---------- Where an end of stream arrives ----------

  /** A session that will be offered the chunk and refuse it. */
  predicate Refuses(st: Streamer, full: set<nat>, c: nat)
    requires c in st.entries
  {
    && st.entries[c].sequence <= st.streamedChunks
    && CommandSession.PassesOn(st.entries[c].session) && !HasRoom(full, c)
  }

  predicate NoneRefuses(st: Streamer, full: set<nat>) {
    forall c <- st.entries :: !Refuses(st, full, c)
  }

  /** Who gets a chunk that is distributed. */
  lemma StreamChunkReaches(st: Streamer, chunk: Chunk, full: set<nat>)
    ensures Reached(st, chunk, full, StreamChunk(st, chunk, full).0)
  {
    forall c <- st.entries
      ensures OfferTo(st, st.entries[c], chunk, HasRoom(full, c)).1 <==> !Refuses(st, full, c)
      ensures OfferTo(st, st.entries[c], chunk, HasRoom(full, c)).0.accepted
           == if st.entries[c].sequence > st.streamedChunks || Refuses(st, full, c) then st.entries[c].accepted
              else st.entries[c].accepted + [chunk]
    {
      CommandSession.RefusedExactlyWhenFull(st.entries[c].session, OfferOf(st, chunk, HasRoom(full, c)));
    }
  }

  /** From every state: where an end of stream is distributed it reaches exactly the sessions
      that do not refuse it, and counts if and only if there is no session that does; it is
      not distributed again, since the stream is over all the same. Elsewhere it reaches
      no session. */
  lemma EndReachesAllIff(st: Streamer, chunk: Chunk, now: Surroundings)
    requires chunk.endOfStream
    ensures var st', begun := ConsumeChunk(st, chunk, now).0, Begun(st, chunk, now);
            if Distributes(begun, now) && begun.samplingRate == chunk.samplingRate then
              !Streams(st') && Reached(begun, chunk, now.full, st')
            else
              st'.entries == begun.entries && st'.stream == begun.stream
  {
    var st0 := st.(offered := Some(chunk));
    FirstStages(st0, chunk, now);
    var (st1, r1) := TryPrepare(st0, chunk, now);
    var (st2, r2) := TryBuffer(st1, r1, now);
    EndLeaves(st2, r2, chunk, now);
    if Distributes(st1, now) {
      PlayingChangesNoEntry(st2, now);
      var playing := MaybePlay(st2, now);
      if st1.samplingRate == chunk.samplingRate {
        StreamChunkReaches(playing, chunk, now.full);
        ReachedLater(st1, playing, chunk, now.full, Streamed(playing, chunk, now.full), ConsumeChunk(st, chunk, now).0);
      }
    }
  }

  /** What the last chunk of a stream leaves behind is what its distribution did. */
  lemma EndLeaves(st: Streamer, result: bool, chunk: Chunk, now: Surroundings)
    requires chunk.endOfStream
    ensures var (st3, r3) := TryStream(st, result, chunk, now);
            var st' := TryFlush(st3, r3, now).0;
            if st.state.Buffering? || st.state.Playing? then
              var sent := Streamed(MaybePlay(st, now), chunk, now.full);
              !Streams(st') && st'.entries == sent.entries && st'.stream == sent.stream
            else
              st'.entries == st.entries && st'.stream == st.stream
  {
    if st.state.Buffering? || st.state.Playing? {
      TryStreamIs(st, result, chunk, now);
      FlushDecides(TryStream(st, result, chunk, now).0, TryStream(st, result, chunk, now).1, now);
    }
  }

  lemma ReachedLater(st: Streamer, st1: Streamer, chunk: Chunk, full: set<nat>, st2: Streamer, st': Streamer)
    requires Reached(st1, chunk, full, st2)
    requires st1.entries == st.entries && st1.streamedChunks == st.streamedChunks && st1.stream == st.stream
    requires st'.entries == st2.entries && st'.stream == st2.stream
    ensures Reached(st, chunk, full, st')
  {
    SameRefusals(st, st1, full);
    forall c <- st.entries
      ensures st'.entries[c].accepted
           == if st.entries[c].sequence > st.streamedChunks || Refuses(st, full, c) then st.entries[c].accepted
              else st.entries[c].accepted + [chunk]
    {
      assert c in st1.entries;
    }
  }

  /** Who got a chunk that was distributed once, and whether it counts. */
  ghost predicate Reached(st: Streamer, chunk: Chunk, full: set<nat>, st': Streamer) {
    && st'.entries.Keys == st.entries.Keys
    && st'.stream == (if NoneRefuses(st, full) then st.stream + [chunk] else st.stream)
    && forall c <- st.entries ::
         st'.entries[c].accepted
         == if st.entries[c].sequence > st.streamedChunks || Refuses(st, full, c) then st.entries[c].accepted
            else st.entries[c].accepted + [chunk]
  }

  lemma PlayingChangesNoEntry(st: Streamer, now: Surroundings)
    requires st.state.Buffering? || st.state.Playing?
    ensures var st' := MaybePlay(st, now);
            && st'.entries == st.entries && st'.streamedChunks == st.streamedChunks && st'.stream == st.stream
            && st'.samplingRate == st.samplingRate && (st'.state.Buffering? || st'.state.Playing?)
  {
  }

  lemma SameRefusals(st: Streamer, st': Streamer, full: set<nat>)
    requires st'.entries == st.entries && st'.streamedChunks == st.streamedChunks
    ensures forall c <- st.entries :: Refuses(st', full, c) == Refuses(st, full, c)
    ensures NoneRefuses(st', full) == NoneRefuses(st, full)
  {
    assert forall c <- st.entries :: Refuses(st', full, c) == Refuses(st, full, c);
  }

  /** Nothing is distributed while the streamer drains, up to and including the call that
      consumes the end of stream: a session that refused it never gets it. */
  lemma {:induction false} DrainingDistributesNothing(st: Streamer, inputs: seq<Input>)
    requires forall n :: 0 <= n < |inputs| ==> Run(st, inputs[..n]).state.Draining?
    ensures Run(st, inputs).stream == st.stream
  {
    if inputs != [] {
      var last := |inputs| - 1;
      forall n | 0 <= n < last ensures Run(st, inputs[..last][..n]).state.Draining? {
        assert inputs[..last][..n] == inputs[..n];
      }
      DrainingDistributesNothing(st, inputs[..last]);
      var before, i := Run(st, inputs[..last]), inputs[last];
      if i.Deliver? {
        DrainingHoldsBack(before, i.chunk, i.now);
      }
    }
  }

  // ---------- The order of sessions ----------

  lemma {:induction false} LatenciesConcat(entries: map<nat, Entry>, a: seq<nat>, b: seq<nat>)
    ensures Latencies(entries, a + b) == Latencies(entries, a) + Latencies(entries, b)
    decreases |b|
  {
    if b == [] {
      assert a + b == a;
    } else {
      var last := |b| - 1;
      assert (a + b)[..|a + b| - 1] == a + b[..last];
      LatenciesConcat(entries, a, b[..last]);
    }
  }

  /** The playback delay does not depend on the order in which sessions are visited. */
  lemma {:induction false} DelayIgnoresOrder(entries: map<nat, Entry>, a: seq<nat>, b: seq<nat>)
    requires multiset(a) == multiset(b)
    ensures multiset(Latencies(entries, a)) == multiset(Latencies(entries, b))
    ensures Delay(Latencies(entries, a)) == Delay(Latencies(entries, b))
    decreases |a|
  {
    if a == [] {
      assert |multiset(b)| == 0;
    } else {
      var last := |a| - 1;
      assert a[last] in multiset(b);
      var k :| 0 <= k < |b| && b[k] == a[last];
      MultisetWithout(a, last);
      MultisetWithout(b, k);
      assert a[..last] + a[last + 1..] == a[..last];
      DelayIgnoresOrder(entries, a[..last], b[..k] + b[k + 1..]);
      LatenciesSplit(entries, a, last);
      LatenciesSplit(entries, b, k);
    }
    DelayIsOrderFree(Latencies(entries, a), Latencies(entries, b));
  }

  lemma LatenciesSplit(entries: map<nat, Entry>, order: seq<nat>, k: nat)
    requires k < |order|
    ensures multiset(Latencies(entries, order))
         == multiset(Latencies(entries, order[..k] + order[k + 1..])) + multiset(Latencies(entries, [order[k]]))
  {
    assert order == order[..k] + ([order[k]] + order[k + 1..]);
    LatenciesConcat(entries, order[..k], [order[k]] + order[k + 1..]);
    LatenciesConcat(entries, [order[k]], order[k + 1..]);
    LatenciesConcat(entries, order[..k], order[k + 1..]);
  }

  // ---------- When playback starts ----------

  lemma {:induction false} LatencyIsListed(entries: map<nat, Entry>, order: seq<nat>, c: nat) returns (k: nat)
    requires c in order && c in entries
    ensures k < |Latencies(entries, order)| && Latencies(entries, order)[k] == entries[c].session.latency
    decreases |order|
  {
    var last := |order| - 1;
    if order[last] == c {
      k := |Latencies(entries, order[..last])|;
    } else {
      assert order == order[..last] + [order[last]];
      k := LatencyIsListed(entries, order[..last], c);
    }
  }

  /** When playback begins, the start is never later than the streamed duration and the
      delay after buffering began, less than two milliseconds earlier, and the delay
      covers the latency of every session, all being visited. Times are compared in
      nanoseconds times the rate. */
  lemma PlaybackStartIsBounded(st: Streamer, now: Surroundings)
    requires Core(st) && st.state.Buffering? && st.samplingRate >= 1000
    requires ProcessEvent(st, PlayEvent, now).1.Done?
    ensures var delay := Delay(Latencies(st.entries, now.order));
            var startedAt := ProcessEvent(st, PlayEvent, now).0.playbackStartedAt;
            var start := (startedAt - st.bufferingStartedAt) * st.samplingRate;
            var due := 1000 * (st.streamedFrames * MICROSECONDS + delay * st.samplingRate);
            && due - 2_000_000 * st.samplingRate < start <= due
            && forall c <- st.entries :: c in now.order || Enumerates(now.order, st.entries.Keys) ==>
                 delay >= BASE_DELAY + Latency(st.entries[c].session.latency)
  {
    var latencies := Latencies(st.entries, now.order);
    CoreSessions(st);
    LatenciesArePositive(st.entries, now.order);
    DelayIsPositive(latencies);
    StartIsEarlyIff(st.streamedFrames, Delay(latencies), st.samplingRate);
    var offset := StartOffset(st.streamedFrames, Delay(latencies), st.samplingRate);
    assert 1_000_000 * offset * st.samplingRate == 1000 * (offset * 1000 * st.samplingRate);
    DelayCoversSessions(st, now.order);
  }

  lemma DelayCoversSessions(st: Streamer, order: seq<nat>)
    requires Core(st)
    ensures forall c <- st.entries :: c in order || Enumerates(order, st.entries.Keys) ==>
              Delay(Latencies(st.entries, order)) >= BASE_DELAY + Latency(st.entries[c].session.latency)
  {
    CoreSessions(st);
    LatenciesArePositive(st.entries, order);
    forall c <- st.entries | c in order || Enumerates(order, st.entries.Keys)
      ensures Delay(Latencies(st.entries, order)) >= BASE_DELAY + Latency(st.entries[c].session.latency)
    {
      var k := LatencyIsListed(st.entries, order, c);
      DelayCoversLatencies(Latencies(st.entries, order), k);
    }
  }
}
