/** What the streamer gets done: buffering and playback begin, newcomers are started, and
    draining ends. */
module Progress {
  import opened Common
  import opened Chunks
  import opened StateMachine
  import opened PlaybackTime
  import opened S = Streamer
  import opened Distribution
  import CommandSession

  // ---------- A stream begins ----------

  /** A chunk with a rate begins a stream where there is none: the counters start again, and
      preparing starts now. */
  lemma StreamBegins(st: Streamer, chunk: Chunk, now: Surroundings)
    requires st.state.Started? && chunk.samplingRate != 0
    ensures var begun := Begun(st, chunk, now);
            && begun.state.Preparing? && begun.samplingRate == chunk.samplingRate
            && begun.preparingStartedAt == now.preparing && begun.entries.Keys == st.entries.Keys
            && begun.stream == [] && begun.streamedChunks == 0 && begun.streamedFrames == 0
            && forall c <- begun.entries :: begun.entries[c].sequence == 0
  {
  }

  /** What the wait for HTTP sessions is over for: two seconds, or all sessions attached. */
  predicate WaitIsOver(st: Streamer, now: Surroundings) {
    || 2_000_000 < Quotient(now.waiting - st.preparingStartedAt, 1000)
    || forall c <- st.entries :: st.entries[c].session.samplingRate != 0 && st.entries[c].session.attached
  }

  /** A streamer that prepares holds every chunk back until the wait is over, and then begins
      to buffer, now. */
  lemma BufferingBeginsIff(st: Streamer, chunk: Chunk, now: Surroundings)
    requires st.state.Preparing?
    ensures var (st', result) := ConsumeChunk(st, chunk, now);
            if WaitIsOver(st, now) then
              !st'.state.Preparing? && st'.bufferingStartedAt == now.buffering
            else
              !result && st' == st.(offered := Some(chunk))
  {
    var st0 := st.(offered := Some(chunk));
    assert WaitIsOver(st, now) == Allows(ReadyToBuffer, st0, now);
    if WaitIsOver(st, now) {
      var st2 := TryBuffer(st0, false, now).0;
      assert st2 == st0.(state := Buffering, bufferingStartedAt := now.buffering, unpaused := {});
      BufferingIsKept(st2, true, chunk, now);
    }
  }

  lemma BufferingIsKept(st: Streamer, result: bool, chunk: Chunk, now: Surroundings)
    requires st.state.Buffering?
    ensures var (st3, r3) := TryStream(st, result, chunk, now);
            var st' := TryFlush(st3, r3, now).0;
            !st'.state.Preparing? && st'.bufferingStartedAt == st.bufferingStartedAt
  {
    TryStreamIs(st, result, chunk, now);
    MaybePlayIs(st, now);
    StreamChunkDistributes(MaybePlay(st, now), chunk, now.full);
    FlushKeepsTimes(TryStream(st, result, chunk, now).0, TryStream(st, result, chunk, now).1, now);
  }

  lemma FlushKeepsTimes(st: Streamer, result: bool, now: Surroundings)
    ensures var st' := TryFlush(st, result, now).0;
            && st'.bufferingStartedAt == st.bufferingStartedAt && st'.playbackStartedAt == st.playbackStartedAt
            && st'.entries == st.entries
            && (st'.state.Preparing? <==> st.state.Preparing?)
            && (!st.state.Draining? ==> st' == st)
  {
  }

  // ---------- Playback begins ----------

  /** A session that can be told to play. */
  predicate IsReady(s: CommandSession.Session) {
    s.samplingRate != 0 && s.attached && s.timeOffset.Some? && s.clientBufferIsReady
  }

  /** More than two seconds were streamed, and every session is ready. */
  predicate PlaybackIsDue(st: Streamer) {
    && 2_000 < CalculateDuration(st.streamedFrames, MILLISECONDS, st.samplingRate)
    && forall c <- st.entries :: IsReady(st.entries[c].session)
  }

  /** Where playback starts: the streamed duration and the delay after buffering began. */
  function StartOfPlayback(st: Streamer, now: Surroundings): int {
    st.bufferingStartedAt
    + 1_000_000 * StartOffset(st.streamedFrames, Delay(Latencies(st.entries, now.order)), st.samplingRate)
  }

  lemma MaybePlayIs(st: Streamer, now: Surroundings)
    requires st.state.Buffering?
    ensures var st' := MaybePlay(st, now);
            && st'.state == (if PlaybackIsDue(st) then Playing else Buffering)
            && st'.bufferingStartedAt == st.bufferingStartedAt && st'.entries == st.entries
            && st'.streamedChunks == st.streamedChunks && st'.samplingRate == st.samplingRate
            && (PlaybackIsDue(st) ==> st'.playbackStartedAt == StartOfPlayback(st, now))
  {
  }

  /** While buffering, a chunk begins playback exactly when more than two seconds were
      streamed before it and every session is ready; and in that same call every session
      that buffers and is asked is told the start time on its player's clock. */
  lemma PlaybackBeginsIff(st: Streamer, chunk: Chunk, now: Surroundings)
    requires st.state.Buffering? && st.samplingRate == chunk.samplingRate
    ensures var st' := ConsumeChunk(st, chunk, now).0;
            && (!chunk.endOfStream ==> st'.state == if PlaybackIsDue(st) then Playing else Buffering)
            && (PlaybackIsDue(st) ==>
                  && st'.playbackStartedAt == StartOfPlayback(st, now)
                  && st'.entries.Keys == st.entries.Keys
                  && forall c <- st.entries :: IsTold(st.entries[c], st.streamedChunks, st'.entries[c],
                                                      StartOfPlayback(st, now)))
  {
    var st0 := st.(offered := Some(chunk));
    StreamUnderWay(st0, chunk, now);
    MaybePlayIs(st0, now);
    var st1 := MaybePlay(st0, now);
    TryStreamIs(st0, false, chunk, now);
    StreamChunkDistributes(st1, chunk, now.full);
    var (st3, r3) := TryStream(st0, false, chunk, now);
    FlushKeepsTimes(st3, r3, now);
    if PlaybackIsDue(st) {
      assert PlaybackIsDue(st0);
      AllAreTold(st1, chunk, now.full);
    }
  }

  /** A session that buffers, and did not take the chunk yet, gets its Unpause. */
  ghost predicate IsTold(e: Entry, streamedChunks: nat, e': Entry, start: int) {
    e.sequence <= streamedChunks && e.session.state.Buffering? && IsReady(e.session) ==>
      var at := start - 1000 * e.session.timeOffset.value;
      e'.session.trace == Cons(CommandSession.Sent(CommandSession.Unpause(at)), e.session.trace)
  }

  lemma AllAreTold(st: Streamer, chunk: Chunk, full: set<nat>)
    requires st.state.Playing?
    ensures forall c <- st.entries ::
      IsTold(st.entries[c], st.streamedChunks, StreamChunk(st, chunk, full).0.entries[c], st.playbackStartedAt)
  {
    ReadySessionsAreTold(st, chunk, full);
    forall c <- st.entries
      ensures IsTold(st.entries[c], st.streamedChunks, StreamChunk(st, chunk, full).0.entries[c], st.playbackStartedAt)
    {
      var s := st.entries[c].session;
      assert IsReady(s) ==> CommandSession.Allows(CommandSession.ReadyToPlay, s);
    }
  }

  // ---------- Newcomers ----------

  function StartOf(st: Streamer, s: CommandSession.Session): CommandSession.Mark {
    CommandSession.Sent(CommandSession.Start(st.samplingRate, s.clientID))
  }

  /** A session that is there when a chunk is distributed, and was not started yet, is told
      to start the stream in that distribution, takes the chunk and does not pass it on. */
  lemma NewcomersAreStarted(st: Streamer, chunk: Chunk, full: set<nat>)
    requires st.samplingRate != 0
    ensures forall c <- st.entries ::
      st.entries[c].sequence <= st.streamedChunks && st.entries[c].session.state.Started? ==>
        var s, e' := st.entries[c].session, StreamChunk(st, chunk, full).0.entries[c];
        && e'.session.state.Preparing? && e'.sequence == st.entries[c].sequence + 1
        && e'.session.trace == Cons(StartOf(st, s), s.trace)
        && e'.passed == st.entries[c].passed
  {
    forall c <- st.entries | st.entries[c].sequence <= st.streamedChunks && st.entries[c].session.state.Started?
      ensures var s, e' := st.entries[c].session, OfferTo(st, st.entries[c], chunk, HasRoom(full, c)).0;
              && e'.session.state.Preparing? && e'.sequence == st.entries[c].sequence + 1
              && e'.session.trace == Cons(StartOf(st, s), s.trace)
              && e'.passed == st.entries[c].passed
    {
      CommandSession.NewcomerIsStarted(st.entries[c].session, OfferOf(st, chunk, HasRoom(full, c)));
    }
  }

  // ---------- Draining ends ----------

  /** A session that still drains after a run without new greetings drained all along: its
      player did not flush, and its connection did not close. */
  lemma {:induction false} StillDraining(st: Streamer, inputs: seq<Input>, c: nat)
    requires forall n :: 0 <= n <= |inputs| ==> Run(st, inputs[..n]).state.Draining?
    requires forall k :: 0 <= k < |inputs| ==> !Greets(inputs[k])
    requires c in Run(st, inputs).entries && Run(st, inputs).entries[c].session.state.Draining?
    ensures c in st.entries && st.entries[c].session.state.Draining?
    ensures forall k :: 0 <= k < |inputs| ==> inputs[k] != Player(c, CommandSession.Flushed) && inputs[k] != Close(c)
  {
    if inputs != [] {
      var last := |inputs| - 1;
      forall n | 0 <= n <= last ensures Run(st, inputs[..last][..n]).state.Draining? {
        assert inputs[..last][..n] == inputs[..n];
      }
      assert inputs[..|inputs|] == inputs && inputs[..last][..last] == inputs[..last];
      assert Run(st, inputs[..last]).state.Draining? && Run(st, inputs).state.Draining?;
      DrainedBefore(Run(st, inputs[..last]), inputs[last], c);
      StillDraining(st, inputs[..last], c);
    }
  }

  /** A player's first message, after which its session drains. */
  predicate Greets(i: Input) {
    i.Player? && i.input.Hello?
  }

  lemma DrainedBefore(st: Streamer, i: Input, c: nat)
    requires st.state.Draining? && Next(st, i).state.Draining? && !Greets(i)
    requires c in Next(st, i).entries && Next(st, i).entries[c].session.state.Draining?
    ensures c in st.entries && st.entries[c].session.state.Draining?
    ensures i != Player(c, CommandSession.Flushed) && i != Close(c)
  {
    if Enabled(st, i) {
      match i {
        case Deliver(chunk, now) => DrainingHoldsBack(st, chunk, now);
        case Player(d, input) => CommandSession.DrainingChanges(st.entries[d].session, input);
        case Halt(now) => StopIs(st, now);
        case _ =>
      }
    }
  }

  /** Draining ends: on any run through which the streamer drains, once every session that
      was draining was flushed by its player or closed, and no player was greeted anew, the
      next delivery is consumed, and the streamer is ready for the next stream. */
  lemma {:induction false} FlushedPlayersRelease(st: Streamer, inputs: seq<Input>, chunk: Chunk, now: Surroundings)
    requires forall n :: 0 <= n <= |inputs| ==> Run(st, inputs[..n]).state.Draining?
    requires forall k :: 0 <= k < |inputs| ==> !Greets(inputs[k])
    requires forall c <- st.entries | st.entries[c].session.state.Draining? ::
               Player(c, CommandSession.Flushed) in inputs || Close(c) in inputs
    ensures NoneDrains(Run(st, inputs))
    ensures var (st', result) := ConsumeChunk(Run(st, inputs), chunk, now);
            result && st'.state.Started? && st'.offered.None?
  {
    var r := Run(st, inputs);
    assert inputs[..|inputs|] == inputs;
    forall c <- r.entries ensures !r.entries[c].session.state.Draining? {
      if r.entries[c].session.state.Draining? {
        StillDraining(st, inputs, c);
      }
    }
    DrainingHoldsBack(r, chunk, now);
  }

  // ---------- Leaving ----------

  /** A closed connection has no session any more, and nobody else is touched; a halted
      streamer has stopped every session. */
  lemma LeavingIsFinal(st: Streamer, c: nat, now: Surroundings)
    ensures c in st.entries ==>
              var st' := Next(st, Close(c));
              st'.entries.Keys == st.entries.Keys - {c} && forall d <- st'.entries :: st'.entries[d] == st.entries[d]
    ensures !st.state.Stopped? ==>
              var st' := Next(st, Halt(now));
              && st'.state.Stopped? && st'.entries.Keys == st.entries.Keys
              && forall d <- st'.entries :: st'.entries[d].session.state.Stopped?
  {
    StopIs(st, now);
    forall d <- st.entries ensures CommandSession.OnStop(st.entries[d].session).state.Stopped? {
      CommandSession.HaltStops(st.entries[d].session);
    }
  }
}
