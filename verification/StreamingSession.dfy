/** Carrying encoded bytes to a player through pooled buffers and asynchronous writes. */
module StreamingSession {
  import opened Common
  import opened BufferPool

  /** A filled buffer waiting to be written; bytes before `offset` are written. */
  datatype Transfer = Transfer(buffer: nat, size: nat, offset: nat)

  /** A session with the environment's side of it: the bytes of the write in flight,
      the number of posted transfer tasks and flush timers, and the histories of
      bytes accepted from the encoder and sent to the player. */
  datatype State = State(
    pool: Buffers,
    queue: seq<Transfer>,
    transferring: bool,
    running: bool,
    encoding: bool,
    inFlight: seq<byte>,
    tasks: nat,
    flushes: nat,
    accepted: seq<byte>,
    sent: seq<byte>)

  const MIN_AVAILABLE: nat := 10

  /** What the event loop, the encoder and the network may do next. `blocks` is what
      the encoder emits while the event is handled. */
  datatype Event =
    | Consume(sameRate: bool, endOfStream: bool, blocks: seq<seq<byte>>)
    | Stop(blocks: seq<seq<byte>>)
    | Task
    | Completed(error: bool, transferred: nat)
    | FlushTimer

  // ---------- Invariant ----------

  /** What also holds in the middle of an event. */
  ghost predicate Core(s: State, bufferSize: nat) {
    && bufferSize > 0
    && ValidBuffers(s.pool, bufferSize)
    && (forall k :: 0 <= k < |s.queue| ==> ValidTransfer(s.pool, s.queue[k]))
    && Distinct(s.queue)
    && Ledger(s)
    && (s.transferring ==> s.queue != [] && s.inFlight == Pending(s.pool, s.queue[0]))
    && NoLostWakeup(s)
  }

  ghost predicate Inv(s: State, bufferSize: nat) {
    && Core(s, bufferSize)
    && (!s.running ==> !s.encoding && s.queue == [] && !s.transferring)
    && (s.flushes > 0 ==> !s.encoding)
  }

  ghost predicate ValidTransfer(pool: Buffers, t: Transfer) {
    && t.buffer < |pool.free| == |pool.memory|
    && !pool.free[t.buffer]
    && t.offset <= t.size <= |pool.memory[t.buffer]|
  }

  /** No buffer is queued twice. */
  ghost predicate Distinct(queue: seq<Transfer>) {
    forall j, k :: 0 <= j < k < |queue| ==> queue[j].buffer != queue[k].buffer
  }

  /** Every buffer is either free or queued. */
  ghost predicate Ledger(s: State) {
    Available(s.pool.free) + |s.queue| == |s.pool.free|
  }

  /** Whatever is queued will be looked at again. */
  ghost predicate NoLostWakeup(s: State) {
    s.queue != [] ==> s.transferring || s.tasks > 0
  }

  /** The bytes of a queued buffer that are still to be written. */
  function Pending(pool: Buffers, t: Transfer): seq<byte>
    requires t.buffer < |pool.memory| && t.offset <= t.size <= |pool.memory[t.buffer]|
  {
    pool.memory[t.buffer][t.offset..t.size]
  }

  /** All the bytes still to be written, in order. */
  ghost function Unsent(pool: Buffers, queue: seq<Transfer>): seq<byte>
    requires forall k :: 0 <= k < |queue| ==> ValidTransfer(pool, queue[k])
    decreases |queue|
  {
    if queue == [] then []
    else
      assert ValidTransfer(pool, queue[0]);
      Pending(pool, queue[0]) + Unsent(pool, queue[1..])
  }

  // ---------- Operations ----------

  /** Cuts a block into pooled buffers; what finds no free buffer is skipped. */
  function OnEncoded(s: State, data: seq<byte>, bufferSize: nat): State
    requires bufferSize > 0 && ValidBuffers(s.pool, bufferSize)
    decreases |data|
  {
    if data == [] then s
    else
      var i := FirstFree(s.pool.free);
      if i.None? then s
      else
        var n := if |data| < bufferSize then |data| else bufferSize;
        OnEncoded(Enqueue(s, i.value, data[..n]), data[n..], bufferSize)
  }

  /** Fills one buffer, queues it and posts a transfer task. */
  function Enqueue(s: State, i: nat, part: seq<byte>): State
    requires i < |s.pool.free| == |s.pool.memory| && |part| <= |s.pool.memory[i]|
  {
    s.(pool := Fill(s.pool, i, part),
       queue := s.queue + [Transfer(i, |part|, 0)],
       tasks := s.tasks + 1,
       accepted := s.accepted + part)
  }

  function OnBlocks(s: State, blocks: seq<seq<byte>>, bufferSize: nat): (r: State)
    requires bufferSize > 0 && ValidBuffers(s.pool, bufferSize)
    decreases |blocks|
  {
    if blocks == [] then s
    else
      EncodedKeepsBuffers(s, blocks[0], bufferSize);
      OnBlocks(OnEncoded(s, blocks[0], bufferSize), blocks[1..], bufferSize)
  }

  lemma {:induction false} EncodedKeepsBuffers(s: State, data: seq<byte>, bufferSize: nat)
    requires bufferSize > 0 && ValidBuffers(s.pool, bufferSize)
    ensures ValidBuffers(OnEncoded(s, data, bufferSize).pool, bufferSize)
    decreases |data|
  {
    if data != [] && FirstFree(s.pool.free).Some? {
      var n := if |data| < bufferSize then |data| else bufferSize;
      EncodedKeepsBuffers(Enqueue(s, FirstFree(s.pool.free).value, data[..n]), data[n..], bufferSize);
    }
  }

  function OnTask(s: State): State
    requires s.queue != [] ==>
      s.queue[0].buffer < |s.pool.memory| && s.queue[0].offset <= s.queue[0].size <= |s.pool.memory[s.queue[0].buffer]|
  {
    if s.queue == [] || s.transferring then s
    else s.(transferring := true, inFlight := Pending(s.pool, s.queue[0]))
  }

  /** The write in flight ended, with `transferred` of its bytes written. */
  function OnCompleted(s: State, error: bool, transferred: nat): State
    requires s.queue != [] && s.queue[0].buffer < |s.pool.free|
    requires transferred <= |s.inFlight| && s.queue[0].offset <= s.queue[0].size
  {
    var done := s.(transferring := false, tasks := s.tasks + 1, sent := s.sent + s.inFlight[..transferred]);
    var t := s.queue[0];
    if !error && transferred < t.size - t.offset then
      done.(queue := [t.(offset := t.offset + transferred)] + s.queue[1..])
    else
      done.(queue := s.queue[1..], pool := Release(s.pool, t.buffer))
  }

  function ReleaseAll(pool: Buffers, queue: seq<Transfer>): (r: Buffers)
    requires forall k :: 0 <= k < |queue| ==> queue[k].buffer < |pool.free|
    ensures |r.free| == |pool.free| && r.memory == pool.memory
    decreases |queue|
  {
    if queue == [] then pool else ReleaseAll(Release(pool, queue[0].buffer), queue[1..])
  }

  /** Drops what is queued and closes, or tries again later while a write is in flight. */
  function OnFlush(s: State): State
    requires forall k :: 0 <= k < |s.queue| ==> s.queue[k].buffer < |s.pool.free|
  {
    if s.transferring then s.(flushes := s.flushes + 1)
    else s.(pool := ReleaseAll(s.pool, s.queue), queue := [], running := false)
  }

  /** The encoder emits its last blocks, if it is still running, before the flush. */
  function StopEncoder(s: State, blocks: seq<seq<byte>>, bufferSize: nat): State
    requires bufferSize > 0 && ValidBuffers(s.pool, bufferSize)
  {
    if s.encoding then OnBlocks(s, blocks, bufferSize).(encoding := false) else s
  }

  ghost function OnStop(s: State, blocks: seq<seq<byte>>, bufferSize: nat): State
    requires Inv(s, bufferSize)
  {
    if s.running then
      BlocksKeepInv(s, blocks, bufferSize);
      OnFlush(StopEncoder(s, blocks, bufferSize))
    else s
  }

  /** Offers a chunk; the answer is whether it was consumed. */
  ghost function OnConsume(s: State, sameRate: bool, endOfStream: bool, blocks: seq<seq<byte>>, bufferSize: nat)
    : (State, bool)
    requires Inv(s, bufferSize)
  {
    if !s.running then (s, true)
    else if Available(s.pool.free) < MIN_AVAILABLE then (s, false)
    else if !sameRate || endOfStream then (OnStop(s, blocks, bufferSize), true)
    else if s.encoding then (OnBlocks(s, blocks, bufferSize), true)
    else (s, true)
  }

  /** A session that was not started. */
  function Closed(pool: Buffers): State {
    State(pool, [], false, false, false, [], 0, 0, [], [])
  }

  /** A session over an all-free pool whose encoder emitted `blocks` on starting. */
  function Opened(pool: Buffers, blocks: seq<seq<byte>>, bufferSize: nat): State
    requires bufferSize > 0 && ValidBuffers(pool, bufferSize)
  {
    OnBlocks(Closed(pool).(running := true, encoding := true), blocks, bufferSize)
  }

  /** The environment only completes a write that is in flight, never with more than
      it was given, and only runs tasks and timers that were posted. */
  ghost predicate Enabled(s: State, e: Event) {
    match e
    case Task => s.tasks > 0
    case Completed(_, n) => s.transferring && n <= |s.inFlight|
    case FlushTimer => s.flushes > 0
    case _ => true
  }

  ghost function Next(s: State, e: Event, bufferSize: nat): State
    requires Inv(s, bufferSize)
  {
    if !Enabled(s, e) then s else
    match e
    case Consume(sameRate, endOfStream, blocks) => OnConsume(s, sameRate, endOfStream, blocks, bufferSize).0
    case Stop(blocks) => OnStop(s, blocks, bufferSize)
    case Task => OnTask(s.(tasks := s.tasks - 1))
    case Completed(error, n) => OnCompleted(s, error, n)
    case FlushTimer => OnFlush(s.(flushes := s.flushes - 1))
  }

  // ---------- Filling buffers ----------

  lemma {:induction false} UnsentAppend(pool: Buffers, queue: seq<Transfer>, t: Transfer)
    requires forall k :: 0 <= k < |queue| ==> ValidTransfer(pool, queue[k])
    requires ValidTransfer(pool, t)
    ensures Unsent(pool, queue + [t]) == Unsent(pool, queue) + Pending(pool, t)
    decreases |queue|
  {
    if queue == [] {
      assert [t][1..] == [];
    } else {
      assert (queue + [t])[1..] == queue[1..] + [t];
      UnsentAppend(pool, queue[1..], t);
    }
  }

  /** Filling a free buffer does not touch what is queued. */
  lemma {:induction false} UnsentFill(pool: Buffers, queue: seq<Transfer>, i: nat, part: seq<byte>)
    requires forall k :: 0 <= k < |queue| ==> ValidTransfer(pool, queue[k]) && queue[k].buffer != i
    requires i < |pool.free| == |pool.memory| && |part| <= |pool.memory[i]|
    ensures forall k :: 0 <= k < |queue| ==> ValidTransfer(Fill(pool, i, part), queue[k])
    ensures Unsent(Fill(pool, i, part), queue) == Unsent(pool, queue)
    decreases |queue|
  {
    if queue != [] {
      UnsentFill(pool, queue[1..], i, part);
    }
  }

  ghost predicate Conserved(s: State, bufferSize: nat)
    requires Core(s, bufferSize)
  {
    s.sent + Unsent(s.pool, s.queue) == s.accepted
  }

  /** Conservation while the session runs; afterwards what was sent stays a prefix. */
  ghost predicate InOrder(s: State, bufferSize: nat)
    requires Core(s, bufferSize)
  {
    && (s.running ==> Conserved(s, bufferSize))
    && s.sent <= s.accepted
  }

  /** Handing out a buffer: it was not queued, and nothing queued or in flight changes. */
  lemma EnqueueKeepsCore(s: State, i: nat, part: seq<byte>, bufferSize: nat)
    requires Core(s, bufferSize) && i < |s.pool.free| && s.pool.free[i] && |part| <= bufferSize
    ensures forall k :: 0 <= k < |s.queue| ==> s.queue[k].buffer != i
    ensures Core(Enqueue(s, i, part), bufferSize)
    ensures Available(Enqueue(s, i, part).pool.free) == Available(s.pool.free) - 1
    ensures Conserved(s, bufferSize) ==> Conserved(Enqueue(s, i, part), bufferSize)
  {
    var s' := Enqueue(s, i, part);
    var t := Transfer(i, |part|, 0);
    AvailableUpdate(s.pool.free, i, false);
    UnsentFill(s.pool, s.queue, i, part);
    UnsentAppend(s'.pool, s.queue, t);
    assert Pending(s'.pool, t) == part;
    if Conserved(s, bufferSize) {
      assert s.sent + (Unsent(s.pool, s.queue) + part) == s.accepted + part;
    }
  }

  /** What `OnEncoded` leaves alone. */
  ghost predicate SameControl(s: State, s': State) {
    && s'.transferring == s.transferring && s'.running == s.running && s'.encoding == s.encoding
    && s'.inFlight == s.inFlight && s'.flushes == s.flushes && s'.sent == s.sent
    && |s'.pool.free| == |s.pool.free|
  }

  lemma {:induction false} EncodedKeepsCore(s: State, data: seq<byte>, bufferSize: nat)
    requires Core(s, bufferSize)
    ensures var s' := OnEncoded(s, data, bufferSize);
            && Core(s', bufferSize) && SameControl(s, s')
            && (Conserved(s, bufferSize) ==> Conserved(s', bufferSize))
    decreases |data|
  {
    if data != [] && FirstFree(s.pool.free).Some? {
      var s1, n := CutOnce(s, data, bufferSize);
      EncodedKeepsCore(s1, data[n..], bufferSize);
    }
  }

  lemma {:induction false} BlocksKeepCore(s: State, blocks: seq<seq<byte>>, bufferSize: nat)
    requires Core(s, bufferSize)
    ensures var s' := OnBlocks(s, blocks, bufferSize);
            && Core(s', bufferSize) && SameControl(s, s')
            && (Conserved(s, bufferSize) ==> Conserved(s', bufferSize))
    decreases |blocks|
  {
    if blocks != [] {
      EncodedKeepsCore(s, blocks[0], bufferSize);
      BlocksKeepCore(OnEncoded(s, blocks[0], bufferSize), blocks[1..], bufferSize);
    }
  }

  lemma BlocksKeepInv(s: State, blocks: seq<seq<byte>>, bufferSize: nat)
    requires Inv(s, bufferSize) && s.running
    ensures Inv(StopEncoder(s, blocks, bufferSize), bufferSize)
    ensures Inv(OnBlocks(s, blocks, bufferSize), bufferSize)
    ensures InOrder(s, bufferSize) ==> InOrder(StopEncoder(s, blocks, bufferSize), bufferSize)
    ensures InOrder(s, bufferSize) ==> InOrder(OnBlocks(s, blocks, bufferSize), bufferSize)
  {
    BlocksKeepCore(s, blocks, bufferSize);
  }

  // ---------- Emptying buffers ----------

  lemma {:induction false} UnsentRelease(pool: Buffers, queue: seq<Transfer>, i: nat)
    requires forall k :: 0 <= k < |queue| ==> ValidTransfer(pool, queue[k]) && queue[k].buffer != i
    requires i < |pool.free|
    ensures forall k :: 0 <= k < |queue| ==> ValidTransfer(Release(pool, i), queue[k])
    ensures Unsent(Release(pool, i), queue) == Unsent(pool, queue)
    decreases |queue|
  {
    if queue != [] {
      UnsentRelease(pool, queue[1..], i);
    }
  }

  lemma {:induction false} ReleaseAllCounts(pool: Buffers, queue: seq<Transfer>)
    requires forall k :: 0 <= k < |queue| ==> ValidTransfer(pool, queue[k]) && queue[k].buffer < |pool.free|
    requires Distinct(queue)
    ensures Available(ReleaseAll(pool, queue).free) == Available(pool.free) + |queue|
    decreases |queue|
  {
    if queue != [] {
      var i := queue[0].buffer;
      assert ValidTransfer(pool, queue[0]);
      AvailableUpdate(pool.free, i, true);
      UnsentRelease(pool, queue[1..], i);
      ReleaseAllCounts(Release(pool, i), queue[1..]);
    }
  }

  lemma FlushKeepsInv(s: State, bufferSize: nat)
    requires Inv(s, bufferSize) && !s.encoding
    ensures Inv(OnFlush(s), bufferSize)
    ensures InOrder(s, bufferSize) ==> InOrder(OnFlush(s), bufferSize)
  {
    if !s.transferring {
      ReleaseAllCounts(s.pool, s.queue);
    }
  }

  /** A write that ended early: the rest of the buffer stays at the front. */
  lemma PartialKeepsInv(s: State, transferred: nat, bufferSize: nat)
    requires Inv(s, bufferSize) && s.transferring && transferred < s.queue[0].size - s.queue[0].offset
    ensures Inv(OnCompleted(s, false, transferred), bufferSize)
    ensures Conserved(s, bufferSize) ==> Conserved(OnCompleted(s, false, transferred), bufferSize)
  {
    var t, s' := s.queue[0], OnCompleted(s, false, transferred);
    assert ValidTransfer(s.pool, t);
    var t' := t.(offset := t.offset + transferred);
    assert ValidTransfer(s.pool, t');
    assert s'.queue == [t'] + s.queue[1..];
    assert forall k :: 1 <= k < |s.queue| ==> s'.queue[k] == s.queue[k];
    if Conserved(s, bufferSize) {
      PartialConserves(s, t', transferred);
    }
  }

  lemma PartialConserves(s: State, t': Transfer, transferred: nat)
    requires forall k :: 0 <= k < |s.queue| ==> ValidTransfer(s.pool, s.queue[k])
    requires s.queue != [] && ValidTransfer(s.pool, s.queue[0]) && s.inFlight == Pending(s.pool, s.queue[0])
    requires transferred < |s.inFlight|
    requires t' == s.queue[0].(offset := s.queue[0].offset + transferred)
    requires ValidTransfer(s.pool, t')
    requires forall k :: 0 <= k < |([t'] + s.queue[1..])| ==> ValidTransfer(s.pool, ([t'] + s.queue[1..])[k])
    ensures s.sent + s.inFlight[..transferred] + Unsent(s.pool, [t'] + s.queue[1..])
         == s.sent + Unsent(s.pool, s.queue)
  {
    var now, rest := s.inFlight[..transferred], Unsent(s.pool, s.queue[1..]);
    assert ([t'] + s.queue[1..])[1..] == s.queue[1..];
    assert s.inFlight == now + Pending(s.pool, t');
    assert s.sent + (now + Pending(s.pool, t') + rest) == s.sent + now + (Pending(s.pool, t') + rest);
  }

  /** A write that failed or wrote everything: the buffer goes back to the pool. */
  lemma WrittenKeepsInv(s: State, error: bool, transferred: nat, bufferSize: nat)
    requires Inv(s, bufferSize) && s.transferring && transferred <= |s.inFlight|
    requires error || transferred == s.queue[0].size - s.queue[0].offset
    ensures Inv(OnCompleted(s, error, transferred), bufferSize)
    ensures !error && Conserved(s, bufferSize) ==> Conserved(OnCompleted(s, error, transferred), bufferSize)
  {
    var t, queue := s.queue[0], s.queue[1..];
    assert ValidTransfer(s.pool, t);
    assert forall k :: 0 <= k < |queue| ==> queue[k] == s.queue[k + 1];
    UnsentRelease(s.pool, queue, t.buffer);
    AvailableUpdate(s.pool.free, t.buffer, true);
    if !error {
      assert s.inFlight[..transferred] == s.inFlight;
      assert s.sent + (s.inFlight + Unsent(s.pool, queue)) == s.sent + s.inFlight + Unsent(s.pool, queue);
    }
  }

  /** A failed write loses exactly the bytes of its buffer that were not written. */
  lemma ErrorLosesTheRest(s: State, transferred: nat, bufferSize: nat)
    requires Inv(s, bufferSize) && s.transferring && transferred <= |s.inFlight|
    ensures var s' := OnCompleted(s, true, transferred);
            && Inv(s', bufferSize)
            && s'.sent + s.inFlight[transferred..] + Unsent(s'.pool, s'.queue) == s.sent + Unsent(s.pool, s.queue)
  {
    var t, queue := s.queue[0], s.queue[1..];
    WrittenKeepsInv(s, true, transferred, bufferSize);
    assert ValidTransfer(s.pool, t);
    assert forall k :: 0 <= k < |queue| ==> queue[k] == s.queue[k + 1];
    UnsentRelease(s.pool, queue, t.buffer);
    SplitWrite(s.sent, s.inFlight, transferred, Unsent(s.pool, queue));
  }

  lemma SplitWrite(sent: seq<byte>, write: seq<byte>, n: nat, rest: seq<byte>)
    requires n <= |write|
    ensures sent + write[..n] + write[n..] + rest == sent + (write + rest)
  {
    assert write == write[..n] + write[n..];
  }

  lemma CompletedKeepsInv(s: State, error: bool, transferred: nat, bufferSize: nat)
    requires Inv(s, bufferSize) && s.transferring && transferred <= |s.inFlight|
    ensures Inv(OnCompleted(s, error, transferred), bufferSize)
    ensures !error && Conserved(s, bufferSize) ==> Conserved(OnCompleted(s, error, transferred), bufferSize)
  {
    assert ValidTransfer(s.pool, s.queue[0]);
    if !error && transferred < s.queue[0].size - s.queue[0].offset {
      PartialKeepsInv(s, transferred, bufferSize);
    } else {
      WrittenKeepsInv(s, error, transferred, bufferSize);
    }
  }

  // ---------- Every event ----------

  ghost predicate IsError(e: Event) {
    e.Completed? && e.error
  }

  lemma StopKeepsInv(s: State, blocks: seq<seq<byte>>, bufferSize: nat)
    requires Inv(s, bufferSize)
    ensures Inv(OnStop(s, blocks, bufferSize), bufferSize)
    ensures InOrder(s, bufferSize) ==> InOrder(OnStop(s, blocks, bufferSize), bufferSize)
  {
    if s.running {
      BlocksKeepInv(s, blocks, bufferSize);
      FlushKeepsInv(StopEncoder(s, blocks, bufferSize), bufferSize);
    }
  }

  lemma NextKeepsInv(s: State, e: Event, bufferSize: nat)
    requires Inv(s, bufferSize)
    ensures Inv(Next(s, e, bufferSize), bufferSize)
    ensures InOrder(s, bufferSize) && !IsError(e) ==> InOrder(Next(s, e, bufferSize), bufferSize)
  {
    if Enabled(s, e) {
      match e {
        case Consume(sameRate, endOfStream, blocks) =>
          if s.running {
            BlocksKeepInv(s, blocks, bufferSize);
            StopKeepsInv(s, blocks, bufferSize);
          }
        case Stop(blocks) =>
          StopKeepsInv(s, blocks, bufferSize);
        case Task =>
          if s.queue != [] {
            assert ValidTransfer(s.pool, s.queue[0]);
          }
        case Completed(error, n) =>
          CompletedKeepsInv(s, error, n, bufferSize);
        case FlushTimer =>
          FlushKeepsInv(s.(flushes := s.flushes - 1), bufferSize);
      }
    }
  }

  // ---------- Every run ----------

  ghost function Run(s: State, events: seq<Event>, bufferSize: nat): (r: State)
    requires Inv(s, bufferSize)
    ensures Inv(r, bufferSize)
    decreases |events|
  {
    if events == [] then s
    else
      NextKeepsInv(s, events[0], bufferSize);
      Run(Next(s, events[0], bufferSize), events[1..], bufferSize)
  }

  lemma OpenedInOrder(pool: Buffers, blocks: seq<seq<byte>>, bufferSize: nat)
    requires bufferSize > 0 && ValidBuffers(pool, bufferSize) && Available(pool.free) == |pool.free|
    ensures Inv(Opened(pool, blocks, bufferSize), bufferSize)
    ensures InOrder(Opened(pool, blocks, bufferSize), bufferSize)
  {
    BlocksKeepCore(Closed(pool).(running := true, encoding := true), blocks, bufferSize);
  }

  /** Whatever the encoder emits, however writes are split and tasks and timers are
      interleaved: until the flush every byte accepted is either sent or still queued,
      in order, and ever after what was sent is a prefix of what was accepted. */
  lemma {:induction false} BytesAreConserved(s: State, events: seq<Event>, bufferSize: nat)
    requires Inv(s, bufferSize) && InOrder(s, bufferSize)
    requires forall k :: 0 <= k < |events| ==> !IsError(events[k])
    ensures InOrder(Run(s, events, bufferSize), bufferSize)
    decreases |events|
  {
    if events != [] {
      NextKeepsInv(s, events[0], bufferSize);
      BytesAreConserved(Next(s, events[0], bufferSize), events[1..], bufferSize);
    }
  }

  /** The same from the beginning of a session, in full. */
  lemma {:induction false} BytesAreConservedFromTheStart(pool: Buffers, blocks: seq<seq<byte>>, events: seq<Event>,
                                                         bufferSize: nat)
    requires bufferSize > 0 && ValidBuffers(pool, bufferSize) && Available(pool.free) == |pool.free|
    requires forall k :: 0 <= k < |events| ==> !IsError(events[k])
    ensures Inv(Opened(pool, blocks, bufferSize), bufferSize)
    ensures var s := Run(Opened(pool, blocks, bufferSize), events, bufferSize);
            && (forall k :: 0 <= k < |s.queue| ==> ValidTransfer(s.pool, s.queue[k]))
            && (s.running ==> s.sent + Unsent(s.pool, s.queue) == s.accepted)
            && s.sent <= s.accepted
  {
    OpenedInOrder(pool, blocks, bufferSize);
    BytesAreConserved(Opened(pool, blocks, bufferSize), events, bufferSize);
  }

  /** After any run, errors included: every buffer is free or queued, a queue that is
      not empty will be looked at again, the write in flight is of the first queued
      buffer, and the buffer handed out next is neither queued nor in flight. */
  lemma {:induction false} EveryRunIsSafe(pool: Buffers, blocks: seq<seq<byte>>, events: seq<Event>, bufferSize: nat)
    requires bufferSize > 0 && ValidBuffers(pool, bufferSize) && Available(pool.free) == |pool.free|
    ensures Inv(Opened(pool, blocks, bufferSize), bufferSize)
    ensures var s := Run(Opened(pool, blocks, bufferSize), events, bufferSize);
            && Ledger(s) && NoLostWakeup(s)
            && (s.transferring ==> s.queue != [] && s.queue[0].buffer < |s.pool.free|)
            && (FirstFree(s.pool.free).Some? ==>
                  forall k :: 0 <= k < |s.queue| ==> s.queue[k].buffer != FirstFree(s.pool.free).value)
  {
    OpenedInOrder(pool, blocks, bufferSize);
    var s := Run(Opened(pool, blocks, bufferSize), events, bufferSize);
    forall k | 0 <= k < |s.queue| && FirstFree(s.pool.free).Some?
      ensures s.queue[k].buffer != FirstFree(s.pool.free).value
    {
      assert ValidTransfer(s.pool, s.queue[k]);
    }
    if s.transferring {
      assert ValidTransfer(s.pool, s.queue[0]);
    }
  }

  // ---------- Truncation ----------

  /** The number of buffers `n` bytes need. */
  function Needed(n: nat, bufferSize: nat): (r: nat)
    requires bufferSize > 0
    ensures r == 0 <==> n == 0
  {
    if n == 0 then 0 else if n <= bufferSize then 1 else 1 + Needed(n - bufferSize, bufferSize)
  }

  function NeededAll(blocks: seq<seq<byte>>, bufferSize: nat): nat
    requires bufferSize > 0
  {
    if blocks == [] then 0 else Needed(|blocks[0]|, bufferSize) + NeededAll(blocks[1..], bufferSize)
  }

  /** One round of the cutting loop. */
  lemma CutOnce(s: State, data: seq<byte>, bufferSize: nat) returns (s1: State, n: nat)
    requires Core(s, bufferSize) && data != [] && FirstFree(s.pool.free).Some?
    ensures 0 < n <= |data| && Core(s1, bufferSize) && SameControl(s, s1)
    ensures Conserved(s, bufferSize) ==> Conserved(s1, bufferSize)
    ensures Needed(|data|, bufferSize) == 1 + Needed(|data| - n, bufferSize)
    ensures Available(s1.pool.free) == Available(s.pool.free) - 1
    ensures OnEncoded(s, data, bufferSize) == OnEncoded(s1, data[n..], bufferSize)
    ensures s1.accepted + data[n..] == s.accepted + data
  {
    var i := FirstFree(s.pool.free).value;
    n := if |data| < bufferSize then |data| else bufferSize;
    s1 := Enqueue(s, i, data[..n]);
    EnqueueKeepsCore(s, i, data[..n], bufferSize);
    assert s.accepted + data[..n] + data[n..] == s.accepted + data;
  }

  /** The buffers a block takes. */
  lemma {:induction false} BlockTakes(s: State, data: seq<byte>, bufferSize: nat)
    requires Core(s, bufferSize)
    ensures Available(OnEncoded(s, data, bufferSize).pool.free)
         == if Needed(|data|, bufferSize) <= Available(s.pool.free)
            then Available(s.pool.free) - Needed(|data|, bufferSize) else 0
    decreases |data|
  {
    if data != [] {
      if FirstFree(s.pool.free).None? {
        NoneAvailable(s.pool.free);
      } else {
        var s1, n := CutOnce(s, data, bufferSize);
        BlockTakes(s1, data[n..], bufferSize);
      }
    }
  }

  /** A block is accepted whole exactly when enough buffers are free. */
  lemma {:induction false} BlockIsWholeIff(s: State, data: seq<byte>, bufferSize: nat)
    requires Core(s, bufferSize)
    ensures OnEncoded(s, data, bufferSize).accepted == s.accepted + data
       <==> Needed(|data|, bufferSize) <= Available(s.pool.free)
    decreases |data|
  {
    if data != [] {
      if FirstFree(s.pool.free).None? {
        NoneAvailable(s.pool.free);
        assert |s.accepted + data| > |s.accepted|;
      } else {
        var s1, n := CutOnce(s, data, bufferSize);
        BlockIsWholeIff(s1, data[n..], bufferSize);
      }
    }
  }

  lemma {:induction false} NoneAvailable(free: seq<bool>, n: nat := |free|)
    requires n <= |free| && FirstFree(free).None?
    ensures Available(free, n) == 0
    decreases n
  {
    if n > 0 {
      NoneAvailable(free, n - 1);
    }
  }

  /** Of a block that does not fit, the beginning is accepted. */
  lemma {:induction false} AcceptedIsPrefix(s: State, data: seq<byte>, bufferSize: nat)
    requires Core(s, bufferSize)
    ensures OnEncoded(s, data, bufferSize).accepted <= s.accepted + data
    decreases |data|
  {
    if data != [] && FirstFree(s.pool.free).Some? {
      var s1, n := CutOnce(s, data, bufferSize);
      AcceptedIsPrefix(s1, data[n..], bufferSize);
    }
  }

  /** What the encoder emits for one chunk is accepted whole exactly when all its
      blocks together need no more buffers than are free. */
  lemma {:induction false} BlocksAreWholeIff(s: State, blocks: seq<seq<byte>>, bufferSize: nat)
    requires Core(s, bufferSize)
    ensures OnBlocks(s, blocks, bufferSize).accepted == s.accepted + Flatten(blocks)
       <==> NeededAll(blocks, bufferSize) <= Available(s.pool.free)
    ensures |OnBlocks(s, blocks, bufferSize).accepted| <= |s.accepted| + |Flatten(blocks)|
    decreases |blocks|
  {
    if blocks != [] {
      var s1 := OnEncoded(s, blocks[0], bufferSize);
      EncodedKeepsCore(s, blocks[0], bufferSize);
      AcceptedIsPrefix(s, blocks[0], bufferSize);
      BlockTakes(s, blocks[0], bufferSize);
      BlockIsWholeIff(s, blocks[0], bufferSize);
      BlocksAreWholeIff(s1, blocks[1..], bufferSize);
      assert s.accepted + (blocks[0] + Flatten(blocks[1..])) == s.accepted + blocks[0] + Flatten(blocks[1..]);
      if s1.accepted != s.accepted + blocks[0] {
        assert |s1.accepted| < |s.accepted + blocks[0]|;
      }
    }
  }

  /** The backpressure check keeps its promise: a chunk that is not refused, and whose
      blocks need at most ten buffers, is not truncated. */
  lemma AcceptedChunkIsWhole(s: State, blocks: seq<seq<byte>>, bufferSize: nat)
    requires Inv(s, bufferSize) && s.running && s.encoding
    requires NeededAll(blocks, bufferSize) <= MIN_AVAILABLE
    ensures var (s', consumed) := OnConsume(s, true, false, blocks, bufferSize);
            s'.accepted == if consumed then s.accepted + Flatten(blocks) else s.accepted
  {
    BlocksAreWholeIff(s, blocks, bufferSize);
  }

  // ---------- Progress ----------

  /** No wake-up is lost: from any state, running posted tasks and completing writes
      sends everything that is queued, without any further help. */
  lemma {:induction false} Drains(s: State, bufferSize: nat) returns (events: seq<Event>)
    requires Inv(s, bufferSize)
    ensures forall k :: 0 <= k < |events| ==> events[k].Task? || (events[k].Completed? && !events[k].error)
    ensures var r := Run(s, events, bufferSize);
            r.queue == [] && !r.transferring && r.sent == s.sent + Unsent(s.pool, s.queue)
    decreases |s.queue|, if s.transferring then 0 else 1
  {
    if s.queue == [] {
      events := [];
    } else {
      assert ValidTransfer(s.pool, s.queue[0]);
      var e := if s.transferring then Completed(false, |s.inFlight|) else Task;
      var s1 := Next(s, e, bufferSize);
      NextKeepsInv(s, e, bufferSize);
      if s.transferring {
        WriteAll(s, bufferSize);
      }
      var rest := Drains(s1, bufferSize);
      events := [e] + rest;
      assert events[1..] == rest;
      assert s1.sent + Unsent(s1.pool, s1.queue) == s.sent + Unsent(s.pool, s.queue);
    }
  }

  lemma WriteAll(s: State, bufferSize: nat)
    requires Inv(s, bufferSize) && s.transferring
    ensures var s' := OnCompleted(s, false, |s.inFlight|);
            && s'.queue == s.queue[1..]
            && (forall k :: 0 <= k < |s'.queue| ==> ValidTransfer(s'.pool, s'.queue[k]))
            && s'.sent + Unsent(s'.pool, s'.queue) == s.sent + Unsent(s.pool, s.queue)
  {
    var t, queue := s.queue[0], s.queue[1..];
    assert ValidTransfer(s.pool, t);
    assert forall k :: 0 <= k < |queue| ==> queue[k] == s.queue[k + 1];
    UnsentRelease(s.pool, queue, t.buffer);
    assert s.inFlight[..|s.inFlight|] == s.inFlight;
    assert s.sent + (s.inFlight + Unsent(s.pool, queue)) == s.sent + s.inFlight + Unsent(s.pool, queue);
  }

  /** A posted task, or a write that completes without an error and wrote something if
      it had something to write. */
  ghost predicate Progress(s: State, e: Event) {
    Enabled(s, e) && (e.Task? || (e.Completed? && !e.error && (e.transferred > 0 || s.inFlight == [])))
  }

  /** A schedule made of such events alone. */
  ghost predicate Progresses(s: State, events: seq<Event>, bufferSize: nat)
    requires Inv(s, bufferSize)
    decreases |events|
  {
    events == []
    || (Progress(s, events[0])
        && Inv(Next(s, events[0], bufferSize), bufferSize)
        && Progresses(Next(s, events[0], bufferSize), events[1..], bufferSize))
  }

  /** What is left to do: every queued buffer and every unsent byte may take a task and a
      write. */
  ghost function Work(s: State, bufferSize: nat): nat
    requires Inv(s, bufferSize)
  {
    s.tasks + 2 * (|s.queue| + |Unsent(s.pool, s.queue)|)
  }

  /** What `sent` will be once the queue is empty. */
  ghost function Due(s: State, bufferSize: nat): seq<byte>
    requires Inv(s, bufferSize)
  {
    s.sent + Unsent(s.pool, s.queue)
  }

  lemma CompletedWorks(s: State, transferred: nat, bufferSize: nat)
    requires Inv(s, bufferSize) && Progress(s, Completed(false, transferred))
    ensures var s' := OnCompleted(s, false, transferred);
            && Inv(s', bufferSize)
            && Work(s', bufferSize) < Work(s, bufferSize) && Due(s', bufferSize) == Due(s, bufferSize)
  {
    var t, s' := s.queue[0], OnCompleted(s, false, transferred);
    assert ValidTransfer(s.pool, t);
    CompletedKeepsInv(s, false, transferred, bufferSize);
    if transferred < t.size - t.offset {
      var t' := t.(offset := t.offset + transferred);
      assert s'.queue == [t'] + s.queue[1..];
      assert forall k :: 0 <= k < |s'.queue| ==> ValidTransfer(s'.pool, s'.queue[k]);
      assert ValidTransfer(s'.pool, s'.queue[0]);
      PartialConserves(s, t', transferred);
    } else {
      WriteAll(s, bufferSize);
    }
    LessLeft(s.sent, s.inFlight[..transferred], Unsent(s'.pool, s'.queue), Unsent(s.pool, s.queue));
  }

  lemma LessLeft(sent: seq<byte>, write: seq<byte>, after: seq<byte>, before: seq<byte>)
    requires sent + write + after == sent + before
    ensures |after| == |before| - |write|
  {
    assert |sent + write + after| == |sent + before|;
  }

  lemma StepWorks(s: State, e: Event, bufferSize: nat)
    requires Inv(s, bufferSize) && Progress(s, e)
    ensures var s' := Next(s, e, bufferSize);
            && Inv(s', bufferSize)
            && Work(s', bufferSize) < Work(s, bufferSize) && Due(s', bufferSize) == Due(s, bufferSize)
  {
    NextKeepsInv(s, e, bufferSize);
    if e.Completed? {
      CompletedWorks(s, e.transferred, bufferSize);
    }
  }

  /** However tasks and writes are ordered and writes are split: no schedule is longer
      than the work there is, and one that cannot go on has sent everything. */
  lemma {:induction false} EveryScheduleDrains(s: State, events: seq<Event>, bufferSize: nat)
    requires Inv(s, bufferSize) && Progresses(s, events, bufferSize)
    ensures |events| <= Work(s, bufferSize)
    ensures var r := Run(s, events, bufferSize);
            (|events| == Work(s, bufferSize) || forall e :: !Progress(r, e)) ==>
              r.queue == [] && !r.transferring && r.sent == s.sent + Unsent(s.pool, s.queue)
    decreases |events|
  {
    var r := Run(s, events, bufferSize);
    ScheduleWorks(s, events, bufferSize);
    if r.queue != [] {
      assert Progress(r, if r.transferring then Completed(false, |r.inFlight|) else Task);
    }
  }

  lemma {:induction false} ScheduleWorks(s: State, events: seq<Event>, bufferSize: nat)
    requires Inv(s, bufferSize) && Progresses(s, events, bufferSize)
    ensures var r := Run(s, events, bufferSize);
            Work(r, bufferSize) + |events| <= Work(s, bufferSize) && Due(r, bufferSize) == Due(s, bufferSize)
    decreases |events|
  {
    if events != [] {
      StepWorks(s, events[0], bufferSize);
      ScheduleWorks(Next(s, events[0], bufferSize), events[1..], bufferSize);
    }
  }

  // ---------- Stopping ----------

  /** Stopping with no write in flight drops exactly the bytes not yet sent, the
      encoder's last blocks included, and gives every buffer back. */
  lemma StopDropsTheUnsent(s: State, blocks: seq<seq<byte>>, bufferSize: nat)
    requires Inv(s, bufferSize) && InOrder(s, bufferSize) && s.running && !s.transferring
    ensures var s' := OnStop(s, blocks, bufferSize);
            var last := StopEncoder(s, blocks, bufferSize);
            && Inv(last, bufferSize)
            && !s'.running && s'.queue == [] && Available(s'.pool.free) == |s.pool.free|
            && s'.sent == s.sent
            && s'.accepted == s.sent + Unsent(last.pool, last.queue)
  {
    BlocksKeepCore(s, blocks, bufferSize);
    BlocksKeepInv(s, blocks, bufferSize);
    var last := StopEncoder(s, blocks, bufferSize);
    FlushKeepsInv(last, bufferSize);
    assert Conserved(last, bufferSize);
  }

  /** A session that stopped never sends or accepts another byte. */
  lemma {:induction false} StoppedIsSilent(s: State, events: seq<Event>, bufferSize: nat)
    requires Inv(s, bufferSize) && !s.running
    ensures var r := Run(s, events, bufferSize);
            !r.running && r.sent == s.sent && r.accepted == s.accepted
    decreases |events|
  {
    if events != [] {
      NextKeepsInv(s, events[0], bufferSize);
      StoppedIsSilent(Next(s, events[0], bufferSize), events[1..], bufferSize);
    }
  }

  // ---------- Stopping completes ----------

  /** A session that was stopped and waits for its write in flight. */
  ghost predicate Stopping(s: State) {
    s.running && !s.encoding && s.flushes > 0
  }

  /** Stopping a running session ends its encoder at once; the session ends with it, unless a
      write is in flight: then a timer will try again. */
  lemma StopEndsOrWaits(s: State, blocks: seq<seq<byte>>, bufferSize: nat)
    requires Inv(s, bufferSize) && s.running
    ensures var s' := OnStop(s, blocks, bufferSize);
            && Inv(s', bufferSize) && !s'.encoding
            && (if s.transferring then Stopping(s') && s'.transferring && s'.inFlight == s.inFlight
                else !s'.running && s'.queue == [])
  {
    StopKeepsInv(s, blocks, bufferSize);
    BlocksKeepCore(s, blocks, bufferSize);
  }

  /** An end of stream, or a chunk at another rate, stops the session if it is accepted. */
  lemma EndStops(s: State, sameRate: bool, endOfStream: bool, blocks: seq<seq<byte>>, bufferSize: nat)
    requires Inv(s, bufferSize) && s.running && Available(s.pool.free) >= MIN_AVAILABLE
    requires !sameRate || endOfStream
    ensures var (s', consumed) := OnConsume(s, sameRate, endOfStream, blocks, bufferSize);
            consumed && (if s.transferring then Stopping(s') else !s'.running && s'.queue == [])
  {
    StopEndsOrWaits(s, blocks, bufferSize);
  }

  /** A write that completes, with an error or without; a task; or a timer that finds no
      write in flight. */
  ghost predicate Advances(s: State, e: Event) {
    && Enabled(s, e)
    && (|| e.Task?
        || (e.Completed? && (e.error || e.transferred > 0 || s.inFlight == []))
        || (e.FlushTimer? && !s.transferring))
  }

  /** A timer that finds a write in flight: it is posted again. */
  ghost predicate Retries(s: State, e: Event) {
    Enabled(s, e) && e.FlushTimer? && s.transferring
  }

  lemma RetryChangesNothing(s: State, e: Event, bufferSize: nat)
    requires Inv(s, bufferSize) && Retries(s, e)
    ensures Next(s, e, bufferSize) == s
  {
  }

  /** A schedule of events that advance the session and of timers that try again. */
  ghost predicate Ends(s: State, events: seq<Event>, bufferSize: nat)
    requires Inv(s, bufferSize)
    decreases |events|
  {
    events == []
    || (&& (Advances(s, events[0]) || Retries(s, events[0]))
        && Inv(Next(s, events[0], bufferSize), bufferSize)
        && Ends(Next(s, events[0], bufferSize), events[1..], bufferSize))
  }

  /** The number of events of a schedule that advance the session. */
  ghost function Advancing(s: State, events: seq<Event>, bufferSize: nat): nat
    requires Inv(s, bufferSize) && Ends(s, events, bufferSize)
    decreases |events|
  {
    if events == [] then 0
    else
      (if Advances(s, events[0]) then 1 else 0) + Advancing(Next(s, events[0], bufferSize), events[1..], bufferSize)
  }

  ghost function WorkAndTimers(s: State, bufferSize: nat): nat
    requires Inv(s, bufferSize)
  {
    Work(s, bufferSize) + s.flushes
  }

  lemma FlushWorks(s: State, bufferSize: nat)
    requires Inv(s, bufferSize) && s.flushes > 0 && !s.transferring
    ensures var s' := Next(s, FlushTimer, bufferSize);
            && Inv(s', bufferSize) && WorkAndTimers(s', bufferSize) < WorkAndTimers(s, bufferSize)
            && !s'.running && s'.queue == []
  {
    NextKeepsInv(s, FlushTimer, bufferSize);
  }

  lemma ErrorWorks(s: State, transferred: nat, bufferSize: nat)
    requires Inv(s, bufferSize) && s.transferring && transferred <= |s.inFlight|
    ensures var s' := OnCompleted(s, true, transferred);
            Inv(s', bufferSize) && Work(s', bufferSize) < Work(s, bufferSize)
  {
    ErrorLosesTheRest(s, transferred, bufferSize);
    var s' := OnCompleted(s, true, transferred);
    assert |s'.sent + s.inFlight[transferred..] + Unsent(s'.pool, s'.queue)| == |s.sent + Unsent(s.pool, s.queue)|;
  }

  lemma StepAdvances(s: State, e: Event, bufferSize: nat)
    requires Inv(s, bufferSize) && Advances(s, e) && (Stopping(s) || !s.running)
    ensures var s' := Next(s, e, bufferSize);
            && Inv(s', bufferSize) && WorkAndTimers(s', bufferSize) < WorkAndTimers(s, bufferSize)
            && (Stopping(s') || !s'.running)
  {
    NextKeepsInv(s, e, bufferSize);
    match e {
      case Task => StepWorks(s, e, bufferSize);
      case Completed(error, n) =>
        if error {
          ErrorWorks(s, n, bufferSize);
        } else {
          StepWorks(s, e, bufferSize);
        }
      case FlushTimer => FlushWorks(s, bufferSize);
    }
  }

  lemma {:induction false} EndingWorks(s: State, events: seq<Event>, bufferSize: nat)
    requires Inv(s, bufferSize) && Ends(s, events, bufferSize) && (Stopping(s) || !s.running)
    ensures var r := Run(s, events, bufferSize);
            && WorkAndTimers(r, bufferSize) + Advancing(s, events, bufferSize) <= WorkAndTimers(s, bufferSize)
            && (Stopping(r) || !r.running)
    decreases |events|
  {
    if events != [] {
      if Advances(s, events[0]) {
        StepAdvances(s, events[0], bufferSize);
      } else {
        RetryChangesNothing(s, events[0], bufferSize);
      }
      EndingWorks(Next(s, events[0], bufferSize), events[1..], bufferSize);
    }
  }

  /** A stop completes: whatever the order of completions, failed or not, tasks and timers,
      a stopped session can advance only so often, and where it cannot go on it is ended,
      with an empty queue and every buffer back in the pool. */
  lemma {:induction false} EveryStopEnds(s: State, events: seq<Event>, bufferSize: nat)
    requires Inv(s, bufferSize) && Stopping(s) && Ends(s, events, bufferSize)
    ensures Advancing(s, events, bufferSize) <= WorkAndTimers(s, bufferSize)
    ensures var r := Run(s, events, bufferSize);
            (forall e :: !Advances(r, e)) ==>
              !r.running && r.queue == [] && Available(r.pool.free) == |r.pool.free|
  {
    var r := Run(s, events, bufferSize);
    EndingWorks(s, events, bufferSize);
    if r.running {
      assert Advances(r, if r.transferring then Completed(false, |r.inFlight|) else FlushTimer);
    }
  }

  /** The shortest way: the write in flight completes, however much of it was written, and
      the timer fires. */
  lemma StopAfterWrite(s: State, error: bool, transferred: nat, bufferSize: nat)
    requires Inv(s, bufferSize) && Stopping(s) && s.transferring && transferred <= |s.inFlight|
    ensures var s1 := Next(s, Completed(error, transferred), bufferSize);
            && Inv(s1, bufferSize) && Enabled(s1, FlushTimer)
            && var s2 := Next(s1, FlushTimer, bufferSize);
               !s2.running && s2.queue == [] && Available(s2.pool.free) == |s2.pool.free|
  {
    var s1 := Next(s, Completed(error, transferred), bufferSize);
    NextKeepsInv(s, Completed(error, transferred), bufferSize);
    FlushWorks(s1, bufferSize);
  }

  // ---------- In memory ----------

  lemma {:induction false} EncodedIgnoresRunning(s: State, data: seq<byte>, bufferSize: nat)
    requires bufferSize > 0 && ValidBuffers(s.pool, bufferSize)
    ensures OnEncoded(s.(running := true), data, bufferSize) == OnEncoded(s, data, bufferSize).(running := true)
    decreases |data|
  {
    if data != [] && FirstFree(s.pool.free).Some? {
      var n := if |data| < bufferSize then |data| else bufferSize;
      EncodedIgnoresRunning(Enqueue(s, FirstFree(s.pool.free).value, data[..n]), data[n..], bufferSize);
    }
  }

  lemma {:induction false} BlocksIgnoreRunning(s: State, blocks: seq<seq<byte>>, bufferSize: nat)
    requires bufferSize > 0 && ValidBuffers(s.pool, bufferSize)
    ensures OnBlocks(s.(running := true), blocks, bufferSize) == OnBlocks(s, blocks, bufferSize).(running := true)
    decreases |blocks|
  {
    if blocks != [] {
      EncodedIgnoresRunning(s, blocks[0], bufferSize);
      EncodedKeepsBuffers(s, blocks[0], bufferSize);
      BlocksIgnoreRunning(OnEncoded(s, blocks[0], bufferSize), blocks[1..], bufferSize);
    }
  }

  class Session {
    const bufferPool: Pool
    var transferBufferQueue: seq<Transfer>
    var transferring: bool
    var running: bool
    var encoding: bool

    // The environment: bytes handed to the network, posted tasks, timers, histories.
    ghost var inFlight: seq<byte>
    ghost var tasks: nat
    ghost var flushes: nat
    ghost var accepted: seq<byte>
    ghost var sent: seq<byte>

    ghost predicate Valid()
      reads this, bufferPool
    {
      bufferPool.Valid() && bufferPool.bufferSize > 0
    }

    ghost function View(): (s: State)
      requires Valid()
      reads this, bufferPool, bufferPool.free, bufferPool.memory
      ensures ValidBuffers(s.pool, bufferPool.bufferSize) && |s.pool.free| == bufferPool.poolSize
    {
      State(bufferPool.View(), transferBufferQueue, transferring, running, encoding,
            inFlight, tasks, flushes, accepted, sent)
    }

    constructor (poolSize: nat, bufferSize: nat)
      requires bufferSize > 0
      ensures Valid() && fresh(bufferPool) && fresh(bufferPool.free) && fresh(bufferPool.memory)
      ensures bufferPool.poolSize == poolSize && bufferPool.bufferSize == bufferSize
      ensures View() == Closed(View().pool) && Available(View().pool.free) == poolSize
    {
      bufferPool := new Pool(poolSize, bufferSize);
      transferBufferQueue, transferring, running, encoding := [], false, false, false;
      inFlight, tasks, flushes, accepted, sent := [], 0, 0, [], [];
      new;
      AllAvailable(View().pool.free);
    }

    /** Starts the encoder, which emits `blocks`, then the session. */
    method Start(blocks: seq<seq<byte>>)
      requires Valid() && View() == Closed(View().pool)
      modifies this, bufferPool.free, bufferPool.memory
      ensures Valid() && View() == Opened(old(View()).pool, blocks, bufferPool.bufferSize)
    {
      encoding := true;
      BlocksIgnoreRunning(View(), blocks, bufferPool.bufferSize);
      Encode(blocks);
      running := true;
    }

    /** One round of the callback: copies to a pooled buffer, if one is free, and queues it. */
    method Submit(part: seq<byte>) returns (submitted: bool)
      requires Valid() && |part| <= bufferPool.bufferSize
      modifies this, bufferPool.free, bufferPool.memory
      ensures Valid() && submitted == FirstFree(old(View()).pool.free).Some?
      ensures View() == if submitted then Enqueue(old(View()), FirstFree(old(View()).pool.free).value, part)
                        else old(View())
    {
      var pooledBuffer := bufferPool.Allocate();
      if pooledBuffer.None? {
        return false;
      }
      bufferPool.Write(pooledBuffer.value, part);
      transferBufferQueue := transferBufferQueue + [Transfer(pooledBuffer.value, |part|, 0)];
      tasks := tasks + 1;
      accepted := accepted + part;
      submitted := true;
    }

    /** The encoder's callback. */
    method EncodedCallback(encodedData: seq<byte>)
      requires Valid()
      modifies this, bufferPool.free, bufferPool.memory
      ensures Valid() && View() == OnEncoded(old(View()), encodedData, bufferPool.bufferSize)
    {
      var offset := 0;
      while offset < |encodedData|
        invariant 0 <= offset <= |encodedData|
        invariant OnEncoded(View(), encodedData[offset..], bufferPool.bufferSize)
               == OnEncoded(old(View()), encodedData, bufferPool.bufferSize)
      {
        ghost var rest := encodedData[offset..];
        var left := |encodedData| - offset;
        var chunkSize := if left < bufferPool.bufferSize then left else bufferPool.bufferSize;
        assert rest[..chunkSize] == encodedData[offset..offset + chunkSize];
        assert rest[chunkSize..] == encodedData[offset + chunkSize..];
        var submitted := Submit(encodedData[offset..offset + chunkSize]);
        if !submitted {
          return;
        }
        offset := offset + chunkSize;
      }
    }

    /** The encoder at work: it calls back once for every block it emits. */
    method Encode(blocks: seq<seq<byte>>)
      requires Valid()
      modifies this, bufferPool.free, bufferPool.memory
      ensures Valid() && View() == OnBlocks(old(View()), blocks, bufferPool.bufferSize)
    {
      var i := 0;
      while i < |blocks|
        invariant 0 <= i <= |blocks|
        invariant OnBlocks(View(), blocks[i..], bufferPool.bufferSize)
               == OnBlocks(old(View()), blocks, bufferPool.bufferSize)
      {
        EncodedCallback(blocks[i]);
        assert blocks[i..][1..] == blocks[i + 1..];
        i := i + 1;
      }
    }

    /** Hands the unwritten part of the first queued buffer to the network. */
    method TransferTask() returns (write: Option<seq<byte>>)
      requires Valid() && Inv(View(), bufferPool.bufferSize)
      modifies this
      ensures Valid() && View() == OnTask(old(View()))
      ensures write == if old(transferBufferQueue == [] || transferring) then None else Some(View().inFlight)
    {
      if transferBufferQueue == [] || transferring {
        return None;
      }
      var t := transferBufferQueue[0];
      assert ValidTransfer(View().pool, t);
      transferring := true;
      var data := bufferPool.Read(t.buffer, t.offset, t.size);
      inFlight := data;
      write := Some(data);
    }

    /** Gives the front buffer back to the pool. */
    method PopFront()
      requires Valid() && transferBufferQueue != [] && transferBufferQueue[0].buffer < bufferPool.poolSize
      modifies this`transferBufferQueue, bufferPool.free
      ensures Valid()
      ensures View() == old(View()).(queue := old(View()).queue[1..],
                                     pool := Release(old(View()).pool, old(View()).queue[0].buffer))
    {
      bufferPool.Free(transferBufferQueue[0].buffer);
      transferBufferQueue := transferBufferQueue[1..];
    }

    method WriteCompleted(error: bool, sizeTransferred: nat)
      requires Valid() && Inv(View(), bufferPool.bufferSize)
      requires transferring && sizeTransferred <= |inFlight|
      modifies this, bufferPool.free
      ensures Valid() && View() == OnCompleted(old(View()), error, sizeTransferred)
    {
      var t := transferBufferQueue[0];
      assert ValidTransfer(View().pool, t);
      sent := sent + inFlight[..sizeTransferred];
      if !error && sizeTransferred < t.size - t.offset {
        transferBufferQueue := [t.(offset := t.offset + sizeTransferred)] + transferBufferQueue[1..];
      } else {
        PopFront();
      }
      transferring := false;
      tasks := tasks + 1;
    }

    method Flush()
      requires Valid() && Inv(View(), bufferPool.bufferSize)
      modifies this, bufferPool.free
      ensures Valid() && View() == OnFlush(old(View()))
    {
      if transferring {
        flushes := flushes + 1;
        return;
      }
      ghost var s := View();
      while transferBufferQueue != []
        invariant forall k :: 0 <= k < |transferBufferQueue| ==> transferBufferQueue[k].buffer < bufferPool.poolSize
        invariant View() == s.(pool := View().pool, queue := transferBufferQueue)
        invariant ReleaseAll(View().pool, transferBufferQueue) == ReleaseAll(s.pool, s.queue)
        decreases |transferBufferQueue|
      {
        PopFront();
      }
      running := false;
    }

    /** `blocks` is what the encoder emits when it finishes. */
    method Stop(blocks: seq<seq<byte>>)
      requires Valid() && Inv(View(), bufferPool.bufferSize)
      modifies this, bufferPool.free, bufferPool.memory
      ensures Valid() && View() == OnStop(old(View()), blocks, bufferPool.bufferSize)
    {
      if running {
        BlocksKeepInv(View(), blocks, bufferPool.bufferSize);
        if encoding {
          Encode(blocks);
          encoding := false;
        }
        Flush();
      }
    }

    /** `blocks` is what the encoder emits while the chunk is handled. */
    method ConsumeChunk(sameRate: bool, endOfStream: bool, blocks: seq<seq<byte>>) returns (consumed: bool)
      requires Valid() && Inv(View(), bufferPool.bufferSize)
      modifies this, bufferPool.free, bufferPool.memory
      ensures Valid()
      ensures (View(), consumed) == OnConsume(old(View()), sameRate, endOfStream, blocks, bufferPool.bufferSize)
    {
      if running {
        var available := bufferPool.GetAvailableSize();
        if available < MIN_AVAILABLE {
          return false;
        }
        if !sameRate {
          Stop(blocks);
          return true;
        }
        if endOfStream {
          Stop(blocks);
        } else if encoding {
          Encode(blocks);
        }
      }
      return true;
    }
  }
}
