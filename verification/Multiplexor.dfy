/** Draining the capture queues: the consumer side of a source, and the
    round-robin multiplexor over the sources. */
module Multiplexor {
  import opened Common
  import opened Chunks

  /** The consumer side of a source: its queue, and whether a stream is under way. */
  datatype Reader = Reader(items: seq<Chunk>, consuming: bool)

  /** `active` tells whether a current producer was ever chosen. */
  datatype Mux = Mux(readers: seq<Reader>, active: bool, index: nat, emptySwitches: nat)

  /** A chunk handed over by a source. */
  datatype Taken = Taken(source: nat, chunk: Chunk)

  const BUSY_DELAY: nat := 10
  const IDLE_DELAY: nat := 100

  ghost predicate ValidMux(m: Mux) {
    m.active ==> m.index < |m.readers|
  }

  /** One attempt to feed the consumer; the pause asked for, and the chunk taken. */
  function Offer(r: Reader, accepted: bool): (Reader, Option<nat>, Option<Chunk>) {
    if r.items == [] then
      (r, if r.consuming then Some(BUSY_DELAY) else None, None)
    else if !accepted then
      (r.(consuming := true), Some(BUSY_DELAY), None)
    else
      var c := r.items[0];
      (Reader(r.items[1..], !c.endOfStream), if c.endOfStream then None else Some(0), Some(c))
  }

  function SwitchToNext(m: Mux): (r: Mux)
    ensures r.readers == m.readers && r.emptySwitches == m.emptySwitches
    ensures ValidMux(r) && (r.active <==> m.readers != [])
  {
    var next := if m.index + 1 >= |m.readers| then 0 else m.index + 1;
    m.(index := next, active := |m.readers| > 0)
  }

  /** The current producer's turn. */
  function Turn(m: Mux, accepted: bool): (r: (Mux, Option<nat>, Option<Taken>))
    requires ValidMux(m)
    ensures ValidMux(r.0) && |r.0.readers| == |m.readers|
  {
    if m.active then
      var (reader, delay, chunk) := Offer(m.readers[m.index], accepted);
      (m.(readers := m.readers[m.index := reader]), delay,
       if chunk.Some? then Some(Taken(m.index, chunk.value)) else None)
    else
      (m, None, None)
  }

  function PollOnce(m: Mux, accepted: bool): (r: (Mux, Option<nat>, Option<Taken>))
    requires ValidMux(m)
    ensures ValidMux(r.0) && |r.0.readers| == |m.readers|
  {
    var m0 := if m.active then m else SwitchToNext(m);
    var (m1, delay, taken) := Turn(m0, accepted);
    if delay.Some? then
      (m1.(emptySwitches := 0), delay, taken)
    else
      var m2 := SwitchToNext(m1);
      if m2.emptySwitches + 1 >= |m2.readers| then (m2.(emptySwitches := 0), Some(IDLE_DELAY), taken)
      else (m2.(emptySwitches := m2.emptySwitches + 1), None, taken)
  }

  /** Consuming without a consumer never changes the current producer. */
  function SkipChunk(m: Mux): (r: (Mux, Option<nat>, Option<Taken>))
    requires ValidMux(m)
    ensures ValidMux(r.0) && |r.0.readers| == |m.readers|
  {
    Turn(m, true)
  }

  // ---------- What is on offer ----------

  /** The chunk that the next poll offers to the consumer. */
  function OnOffer(m: Mux): Option<Taken>
    requires ValidMux(m)
  {
    var m0 := if m.active then m else SwitchToNext(m);
    if m0.active && m0.readers[m0.index].items != [] then Some(Taken(m0.index, m0.readers[m0.index].items[0])) else None
  }

  /** A poll hands over the chunk on offer if it is accepted, and otherwise nothing. */
  lemma PollHandsOver(m: Mux, accepted: bool)
    requires ValidMux(m)
    ensures PollOnce(m, accepted).2 == if accepted then OnOffer(m) else None
  {
  }

  /** The current source keeps its turn: it has a chunk that is refused or is not the last of
      its stream, or it waits for the rest of a stream under way. */
  predicate KeepsItsTurn(r: Reader, accepted: bool) {
    if r.items != [] then !(accepted && r.items[0].endOfStream) else r.consuming
  }

  /** A poll leaves the turn with the current source exactly while that keeps it, and
      otherwise passes it to the next, from the last to the first. */
  lemma TurnPassesIff(m: Mux, accepted: bool)
    requires ValidMux(m) && m.active
    ensures var m' := PollOnce(m, accepted).0;
            && m'.active
            && m'.index == if KeepsItsTurn(m.readers[m.index], accepted) then m.index
                           else if m.index + 1 == |m.readers| then 0 else m.index + 1
  {
  }

  /** What a poll does to the current source: only an accepted chunk leaves its queue, and a
      stream is under way from its first chunk on offer to its accepted end. */
  lemma PollTouchesItsSource(m: Mux, accepted: bool)
    requires ValidMux(m) && m.active
    ensures var r, r' := m.readers[m.index], PollOnce(m, accepted).0.readers[m.index];
            && r'.items == (if r.items != [] && accepted then r.items[1..] else r.items)
            && r'.consuming == KeepsItsTurn(r, accepted)
    ensures forall k :: 0 <= k < |m.readers| && k != m.index ==> PollOnce(m, accepted).0.readers[k] == m.readers[k]
  {
  }

  /** Consuming without a consumer takes the front chunk of the current source, if any, and
      never passes the turn on. */
  lemma SkipTakesTheFirst(m: Mux)
    requires ValidMux(m) && m.active
    ensures var (m', _, taken) := SkipChunk(m);
            var items := m.readers[m.index].items;
            && m'.index == m.index && m'.active
            && taken == (if items == [] then None else Some(Taken(m.index, items[0])))
            && m'.readers[m.index].items == if items == [] then [] else items[1..]
  {
  }

  /** The pause a poll asks for: none at all where the turn passes on, except that after a
      whole round of such turns it is a hundred milliseconds; no time after a chunk was
      handed over; and ten milliseconds where the current source keeps its turn without
      handing over anything. */
  lemma PauseMeans(m: Mux, accepted: bool)
    requires ValidMux(m) && m.active
    ensures var (m', delay, taken) := PollOnce(m, accepted);
            if KeepsItsTurn(m.readers[m.index], accepted) then
              delay == Some(if taken.Some? then 0 else 10) && m'.emptySwitches == 0
            else if m.emptySwitches + 1 < |m.readers| then
              delay == None && m'.emptySwitches == m.emptySwitches + 1
            else
              delay == Some(100) && m'.emptySwitches == 0
  {
  }

  // ---------- Bounded waiting ----------

  /** The number of switches that separate the current producer from another. */
  function Distance(m: Mux, j: nat): nat
    requires m.index < |m.readers| && j < |m.readers|
  {
    if m.index <= j then j - m.index else |m.readers| - m.index + j
  }

  // ---------- In memory ----------

  class Source {
    var queue: seq<Chunk>
    var consuming: bool

    ghost function View(): Reader
      reads this
    {
      Reader(queue, consuming)
    }

    constructor ()
      ensures View() == Reader([], false)
    {
      queue, consuming := [], false;
    }

    /** Dequeues one chunk into the consumer; the consumer's verdict is `accepted`. */
    method Producer(accepted: bool) returns (delay: Option<nat>, taken: Option<Chunk>)
      modifies this
      ensures (View(), delay, taken) == Offer(old(View()), accepted)
    {
      delay, taken := None, None;
      if queue != [] {
        var chunk := queue[0];
        consuming := true;
        if accepted {
          if chunk.endOfStream {
            consuming := false;
          } else {
            delay := Some(0);
          }
          queue := queue[1..];
          taken := Some(chunk);
        } else {
          delay := Some(BUSY_DELAY);
        }
      } else if consuming {
        delay := Some(BUSY_DELAY);
      }
    }
  }

  class Switch {
    const producers: seq<Source>
    var currentProducerIndex: nat
    var currentProducer: Source?
    var emptySwitches: nat

    ghost predicate Valid()
      reads this
    {
      && (forall i, j :: 0 <= i < j < |producers| ==> producers[i] != producers[j])
      && (currentProducer != null ==>
            currentProducerIndex < |producers| && producers[currentProducerIndex] == currentProducer)
    }

    ghost function View(): Mux
      reads this, producers
    {
      Mux(seq(|producers|, i requires 0 <= i < |producers| reads this, producers => producers[i].View()),
          currentProducer != null, currentProducerIndex, emptySwitches)
    }

    constructor (producers: seq<Source>)
      requires forall i, j :: 0 <= i < j < |producers| ==> producers[i] != producers[j]
      ensures Valid() && this.producers == producers
      ensures !View().active && View().index == 0 && View().emptySwitches == 0
    {
      this.producers := producers;
      currentProducerIndex, currentProducer, emptySwitches := 0, null, 0;
    }

    method SwitchToNextProducer()
      requires Valid()
      modifies this
      ensures Valid()
      ensures View() == SwitchToNext(old(View()))
    {
      currentProducerIndex := currentProducerIndex + 1;
      if currentProducerIndex >= |producers| {
        currentProducerIndex := 0;
      }
      if |producers| > 0 {
        currentProducer := producers[currentProducerIndex];
      } else {
        currentProducer := null;
      }
    }

    /** Lets the current producer, if any, produce. */
    method TakeTurn(accepted: bool) returns (delay: Option<nat>, taken: Option<Taken>)
      requires Valid()
      modifies producers
      ensures Valid()
      ensures (View(), delay, taken) == Turn(old(View()), accepted)
    {
      delay, taken := None, None;
      if currentProducer != null {
        ghost var readers := View().readers;
        ghost var k := currentProducerIndex;
        var chunk;
        delay, chunk := currentProducer.Producer(accepted);
        assert View().readers == readers[k := Offer(readers[k], accepted).0];
        taken := if chunk.Some? then Some(Taken(currentProducerIndex, chunk.value)) else None;
      }
    }

    method ProduceChunk(accepted: bool) returns (delay: Option<nat>, taken: Option<Taken>)
      requires Valid()
      modifies this, producers
      ensures Valid()
      ensures (View(), delay, taken) == PollOnce(old(View()), accepted)
    {
      if currentProducer == null {
        SwitchToNextProducer();
      }
      delay, taken := TakeTurn(accepted);
      ghost var readers := View().readers;
      if delay.None? {
        SwitchToNextProducer();
        emptySwitches := emptySwitches + 1;
        if emptySwitches >= |producers| {
          delay := Some(IDLE_DELAY);
          emptySwitches := 0;
        }
      } else {
        emptySwitches := 0;
      }
      assert View().readers == readers;
    }
  }
}

/** Capture threads, queues and multiplexor together. */
module Pipeline {
  import opened Common
  import opened Chunks
  import opened Multiplexor
  import Capture

  /** For every source: its device parameters, its producer thread's memory and
      all it read; the multiplexor; and the chunks handed over so far. */
  datatype State = State(
    parameters: seq<Capture.Parameters>,
    captures: seq<Capture.State>,
    histories: seq<seq<Capture.Read>>,
    capacity: nat,
    mux: Mux,
    taken: seq<Taken>)

  datatype Event =
    | Capture(source: nat, frames: List<Capture.Frame>, timestamp: int)
    | Poll(accepted: bool)
    | Skip

  ghost predicate WellFormed(s: State) {
    && |s.captures| == |s.histories| == |s.mux.readers| == |s.parameters|
    && ValidMux(s.mux)
    && (forall i :: 0 <= i < |s.parameters| ==> Capture.ValidParameters(s.parameters[i]))
  }

  /** Before anything was read. */
  function Start(parameters: seq<Capture.Parameters>, capacity: nat): State {
    State(parameters,
          seq(|parameters|, _ => Capture.INITIAL),
          seq(|parameters|, _ => []),
          capacity,
          Mux(seq(|parameters|, _ => Reader([], false)), false, 0, 0),
          [])
  }

  function OnCapture(s: State, e: Event): (r: State)
    requires WellFormed(s) && e.Capture? && e.source < |s.parameters|
    ensures WellFormed(r)
  {
    var i := e.source;
    var reader := s.mux.readers[i];
    var read := Capture.Read(e.frames, |reader.items| < s.capacity, e.timestamp);
    var (capture, chunk) := Capture.OnRead(s.parameters[i], s.captures[i], read);
    var items := if chunk.Some? then reader.items + [chunk.value] else reader.items;
    s.(captures := s.captures[i := capture],
       histories := s.histories[i := s.histories[i] + [read]],
       mux := s.mux.(readers := s.mux.readers[i := reader.(items := items)]))
  }

  function Next(s: State, e: Event): (r: State)
    requires WellFormed(s)
    ensures WellFormed(r) && r.parameters == s.parameters
  {
    match e
    case Capture(i, _, _) => if i < |s.parameters| then OnCapture(s, e) else s
    case Poll(accepted) => HandOver(s, PollOnce(s.mux, accepted))
    case Skip => HandOver(s, SkipChunk(s.mux))
  }

  function HandOver(s: State, r: (Mux, Option<nat>, Option<Taken>)): State {
    s.(mux := r.0, taken := if r.2.Some? then s.taken + [r.2.value] else s.taken)
  }

  function Run(s: State, events: seq<Event>): (r: State)
    requires WellFormed(s)
    ensures WellFormed(r) && r.parameters == s.parameters
    decreases |events|
  {
    if events == [] then s else Run(Next(s, events[0]), events[1..])
  }

  /** The chunks handed over by one source, in order. */
  function From(taken: seq<Taken>, i: nat): seq<Chunk> {
    if taken == [] then []
    else
      var last := taken[|taken| - 1];
      var rest := From(taken[..|taken| - 1], i);
      if last.source == i then rest + [last.chunk] else rest
  }

  /** A source whose last chunk handed over was not the end of its stream. */
  ghost predicate MidStream(taken: seq<Taken>, i: nat) {
    var own := From(taken, i);
    own != [] && !own[|own| - 1].endOfStream
  }

  /** The sequence is a concatenation of whole streams, each of a single source,
      non-empty, and closed by its only end chunk; the last may be unfinished. */
  ghost predicate WholeStreams(taken: seq<Taken>) {
    forall k :: 0 <= k < |taken| ==>
      if k == 0 || taken[k - 1].chunk.endOfStream then !taken[k].chunk.endOfStream
      else taken[k].source == taken[k - 1].source
  }

  ghost predicate Inv(s: State) {
    && WellFormed(s)
    && (forall i :: 0 <= i < |s.parameters| ==> SourceInv(s, i))
    && (forall k :: 0 <= k < |s.taken| ==> s.taken[k].source < |s.parameters|)
    && WholeStreams(s.taken)
  }

  /** Only the current source consumes; only it can be mid-stream; and what a source
      handed over or still holds is what it captured. */
  ghost predicate SourceInv(s: State, i: nat)
    requires WellFormed(s) && i < |s.parameters|
  {
    && (s.mux.readers[i].consuming ==> s.mux.active && s.mux.index == i)
    && (MidStream(s.taken, i) ==> s.mux.readers[i].consuming && s.taken[|s.taken| - 1].source == i)
    && (s.captures[i], From(s.taken, i) + s.mux.readers[i].items) == Capture.Run(s.parameters[i], s.histories[i])
  }

  // ---------- One event ----------

  lemma FromAppend(taken: seq<Taken>, t: Taken, i: nat)
    ensures From(taken + [t], i) == if t.source == i then From(taken, i) + [t.chunk] else From(taken, i)
  {
    assert (taken + [t])[..|taken|] == taken;
  }

  lemma CaptureKeepsInv(s: State, e: Event)
    requires Inv(s) && e.Capture? && e.source < |s.parameters|
    ensures Inv(OnCapture(s, e))
  {
    var s' := OnCapture(s, e);
    forall i | 0 <= i < |s.parameters| ensures SourceInv(s', i) {
      assert SourceInv(s, i);
      if i == e.source {
        var h := s'.histories[i];
        assert h[..|h| - 1] == s.histories[i];
        var own := From(s.taken, i);
        var items, items' := s.mux.readers[i].items, s'.mux.readers[i].items;
        if items' != items {
          assert own + items' == own + items + [items'[|items|]];
        }
      }
    }
  }

  /** A turn of the current producer, before any switch. */
  lemma TurnKeepsInv(s: State, accepted: bool)
    requires Inv(s)
    ensures Inv(HandOver(s, Turn(s.mux, accepted)))
    ensures var (m, delay, _) := Turn(s.mux, accepted);
            delay.None? && m.active ==> !m.readers[m.index].consuming
  {
    var (m, delay, t) := Turn(s.mux, accepted);
    var s' := HandOver(s, (m, delay, t));
    if s.mux.active {
      var c := s.mux.index;
      assert SourceInv(s, c);
      if t.Some? {
        TakenKeepsStreams(s, t.value);
      }
      forall i | 0 <= i < |s.parameters| ensures SourceInv(s', i) {
        assert SourceInv(s, i);
        if t.Some? {
          FromAppend(s.taken, t.value, i);
          if i == c {
            assert From(s'.taken, i) + s'.mux.readers[i].items == From(s.taken, i) + s.mux.readers[i].items;
          }
        }
      }
    } else {
      forall i | 0 <= i < |s.parameters| ensures SourceInv(s', i) {
        assert SourceInv(s, i);
      }
    }
  }

  /** The last chunk handed over is the last its source handed over. */
  lemma LastIsOwn(taken: seq<Taken>)
    requires taken != []
    ensures var last := taken[|taken| - 1];
            var own := From(taken, last.source);
            own != [] && own[|own| - 1] == last.chunk
  {
  }

  /** A stream under way is that of the current source. */
  lemma UnfinishedIsCurrent(s: State)
    requires Inv(s) && s.taken != [] && !s.taken[|s.taken| - 1].chunk.endOfStream
    ensures s.mux.active && s.taken[|s.taken| - 1].source == s.mux.index
  {
    LastIsOwn(s.taken);
    assert SourceInv(s, s.taken[|s.taken| - 1].source);
  }

  /** An end chunk comes right after a data chunk of the same source. */
  lemma EndFollowsData(s: State, i: nat)
    requires Inv(s) && i < |s.parameters|
    requires s.mux.readers[i].items != [] && s.mux.readers[i].items[0].endOfStream
    ensures s.taken != [] && s.taken[|s.taken| - 1].source == i && !s.taken[|s.taken| - 1].chunk.endOfStream
  {
    assert SourceInv(s, i);
    Capture.CapturedChunkGrammar(s.parameters[i], s.histories[i]);
    DataBeforeEnd(From(s.taken, i), s.mux.readers[i].items);
    LastIsOwn(s.taken);
  }

  lemma DataBeforeEnd(own: seq<Chunk>, items: seq<Chunk>)
    requires Capture.InGrammar(own + items) && items != [] && items[0].endOfStream
    ensures own != [] && !own[|own| - 1].endOfStream
  {
    var all := own + items;
    assert all[|own|] == items[0];
    assert own != [] ==> all[|own| - 1] == own[|own| - 1];
  }

  /** The next chunk of the current source continues the streams handed over. */
  lemma TakenKeepsStreams(s: State, t: Taken)
    requires Inv(s) && s.mux.active && t.source == s.mux.index
    requires s.mux.readers[t.source].items != [] && t.chunk == s.mux.readers[t.source].items[0]
    ensures WholeStreams(s.taken + [t])
  {
    if t.chunk.endOfStream {
      EndFollowsData(s, t.source);
    }
    if s.taken != [] && !s.taken[|s.taken| - 1].chunk.endOfStream {
      UnfinishedIsCurrent(s);
    }
    AppendStream(s.taken, t);
  }

  lemma AppendStream(taken: seq<Taken>, t: Taken)
    requires WholeStreams(taken)
    requires taken == [] || taken[|taken| - 1].chunk.endOfStream ==> !t.chunk.endOfStream
    requires taken != [] && !taken[|taken| - 1].chunk.endOfStream ==> t.source == taken[|taken| - 1].source
    ensures WholeStreams(taken + [t])
  {
  }

  lemma SwitchKeepsInv(s: State)
    requires Inv(s) && (s.mux.active ==> !s.mux.readers[s.mux.index].consuming)
    ensures Inv(s.(mux := SwitchToNext(s.mux)))
  {
    var s' := s.(mux := SwitchToNext(s.mux));
    forall i | 0 <= i < |s.parameters| ensures SourceInv(s', i) {
      assert SourceInv(s, i);
    }
  }

  lemma CounterIsFree(s: State, n: nat)
    requires Inv(s)
    ensures Inv(s.(mux := s.mux.(emptySwitches := n)))
  {
    var s' := s.(mux := s.mux.(emptySwitches := n));
    forall i | 0 <= i < |s.parameters| ensures SourceInv(s', i) {
      assert SourceInv(s, i);
    }
  }

  lemma PollKeepsInv(s: State, accepted: bool)
    requires Inv(s)
    ensures Inv(HandOver(s, PollOnce(s.mux, accepted)))
  {
    var s0 := s.(mux := if s.mux.active then s.mux else SwitchToNext(s.mux));
    if !s.mux.active {
      SwitchKeepsInv(s);
    }
    TurnKeepsInv(s0, accepted);
    var s1 := HandOver(s0, Turn(s0.mux, accepted));
    if Turn(s0.mux, accepted).1.None? {
      SwitchKeepsInv(s1);
      CounterIsFree(s1.(mux := SwitchToNext(s1.mux)), HandOver(s, PollOnce(s.mux, accepted)).mux.emptySwitches);
    } else {
      CounterIsFree(s1, 0);
    }
  }

  lemma NextKeepsInv(s: State, e: Event)
    requires Inv(s)
    ensures Inv(Next(s, e))
  {
    match e {
      case Capture(i, _, _) =>
        if i < |s.parameters| {
          CaptureKeepsInv(s, e);
        }
      case Poll(accepted) => PollKeepsInv(s, accepted);
      case Skip => TurnKeepsInv(s, true);
    }
  }

  lemma {:induction false} RunKeepsInv(s: State, events: seq<Event>)
    requires Inv(s)
    ensures Inv(Run(s, events))
    decreases |events|
  {
    if events != [] {
      NextKeepsInv(s, events[0]);
      RunKeepsInv(Next(s, events[0]), events[1..]);
    }
  }

  // ---------- Whole runs ----------

  ghost predicate Devices(parameters: seq<Capture.Parameters>) {
    forall i :: 0 <= i < |parameters| ==> Capture.ValidParameters(parameters[i])
  }

  lemma StartInv(parameters: seq<Capture.Parameters>, capacity: nat)
    requires Devices(parameters)
    ensures Inv(Start(parameters, capacity))
  {
    var s := Start(parameters, capacity);
    forall i | 0 <= i < |parameters| ensures SourceInv(s, i) {
      assert From([], i) + s.mux.readers[i].items == [];
    }
  }

  /** A rejected chunk is the one offered again, whatever is captured and rejected
      meanwhile. */
  lemma {:induction false} RejectedIsOfferedAgain(s: State, events: seq<Event>)
    requires WellFormed(s) && OnOffer(s.mux).Some?
    requires forall k :: 0 <= k < |events| ==> events[k].Capture? || events[k] == Poll(false)
    ensures OnOffer(Run(s, events).mux) == OnOffer(s.mux)
    ensures Run(s, events).taken == s.taken
    decreases |events|
  {
    if events != [] {
      var e := events[0];
      PollHandsOver(s.mux, false);
      assert e.Capture? || e == Poll(false);
      assert OnOffer(Next(s, e).mux) == OnOffer(s.mux) && Next(s, e).taken == s.taken;
      RejectedIsOfferedAgain(Next(s, e), events[1..]);
    }
  }

  /** Captures, and polls that find nothing on offer. */
  ghost predicate Quiet(s: State, events: seq<Event>)
    requires WellFormed(s)
    decreases |events|
  {
    events == []
    || ((events[0].Capture? || (events[0].Poll? && OnOffer(s.mux).None?)) && Quiet(Next(s, events[0]), events[1..]))
  }

  function PollCount(events: seq<Event>): nat {
    if events == [] then 0 else (if events[0].Poll? then 1 else 0) + PollCount(events[1..])
  }

  ghost predicate NoneConsuming(m: Mux) {
    forall k :: 0 <= k < |m.readers| ==> !m.readers[k].consuming
  }

  /** With no stream under way, every idle poll brings the current producer one place nearer
      to a source with a chunk, whatever is captured meanwhile: the chunk waits for at most
      as many idle polls as its source is places away before some chunk is offered. */
  lemma {:induction false} IdlePollsAreBounded(s: State, events: seq<Event>, j: nat)
    requires WellFormed(s) && s.mux.active && NoneConsuming(s.mux)
    requires j < |s.mux.readers| && s.mux.readers[j].items != []
    requires Quiet(s, events)
    ensures var m := Run(s, events).mux;
            && m.active && NoneConsuming(m) && j < |m.readers| && m.readers[j].items != []
            && Distance(s.mux, j) == Distance(m, j) + PollCount(events)
    decreases |events|
  {
    if events != [] {
      var s' := Next(s, events[0]);
      QuietStep(s, events[0], j);
      IdlePollsAreBounded(s', events[1..], j);
    }
  }

  lemma QuietStep(s: State, e: Event, j: nat)
    requires WellFormed(s) && s.mux.active && NoneConsuming(s.mux)
    requires j < |s.mux.readers| && s.mux.readers[j].items != []
    requires e.Capture? || (e.Poll? && OnOffer(s.mux).None?)
    ensures var m := Next(s, e).mux;
            && m.active && NoneConsuming(m) && j < |m.readers| && m.readers[j].items != []
            && Distance(s.mux, j) == Distance(m, j) + (if e.Poll? then 1 else 0)
  {
  }

  /** A read finds room exactly while its source holds fewer chunks than the queue can, and
      what it enqueues goes to the end of that queue. */
  lemma CaptureFindsRoomIff(s: State, e: Event)
    requires Inv(s) && e.Capture? && e.source < |s.parameters|
    ensures var i, s' := e.source, Next(s, e);
            var items, items' := s.mux.readers[i].items, s'.mux.readers[i].items;
            var read := Capture.Read(e.frames, |items| < s.capacity, e.timestamp);
            var chunk := Capture.OnRead(s.parameters[i], s.captures[i], read).1;
            && s'.histories[i] == s.histories[i] + [read]
            && items' == (if chunk.Some? then items + [chunk.value] else items)
            && (chunk.Some? ==> |items| < s.capacity)
            && s'.taken == s.taken && forall k :: 0 <= k < |s.parameters| && k != i ==>
                 s'.mux.readers[k] == s.mux.readers[k] && s'.histories[k] == s.histories[k]
  {
  }

  ghost predicate Bounded(s: State)
    requires WellFormed(s)
  {
    forall i :: 0 <= i < |s.parameters| ==> |s.mux.readers[i].items| <= s.capacity
  }

  /** No queue ever holds more than it can. */
  lemma {:induction false} QueuesAreBounded(s: State, events: seq<Event>)
    requires Inv(s) && Bounded(s)
    ensures Bounded(Run(s, events)) && Run(s, events).capacity == s.capacity
    decreases |events|
  {
    if events != [] {
      NextKeepsInv(s, events[0]);
      if events[0].Capture? && events[0].source < |s.parameters| {
        CaptureFindsRoomIff(s, events[0]);
      }
      QueuesAreBounded(Next(s, events[0]), events[1..]);
    }
  }

  /** However captures, polls, rejections and skips interleave, streams of different
      sources never do: what is handed over is one whole stream after another, and
      each source's chunks arrive in the order captured, none lost or repeated. */
  lemma {:induction false} StreamsNeverInterleave(parameters: seq<Capture.Parameters>, capacity: nat,
                                                  events: seq<Event>)
    requires Devices(parameters)
    ensures WellFormed(Start(parameters, capacity))
    ensures var s := Run(Start(parameters, capacity), events);
            && WholeStreams(s.taken)
            && forall i :: 0 <= i < |parameters| ==>
                 From(s.taken, i) + s.mux.readers[i].items == Capture.Run(parameters[i], s.histories[i]).1
  {
    StartInv(parameters, capacity);
    RunKeepsInv(Start(parameters, capacity), events);
    var s := Run(Start(parameters, capacity), events);
    forall i | 0 <= i < |parameters|
      ensures From(s.taken, i) + s.mux.readers[i].items == Capture.Run(parameters[i], s.histories[i]).1
    {
      assert SourceInv(s, i);
    }
  }

  /** From device to consumer: for a source that never lost selected frames to a full
      queue, the payload handed over, followed by the payload still queued, is what
      the marker filter selects from everything the device delivered. */
  lemma {:induction false} DeliveredIsFiltered(parameters: seq<Capture.Parameters>, capacity: nat,
                                               events: seq<Event>, i: nat)
    requires Devices(parameters) && i < |parameters|
    ensures WellFormed(Start(parameters, capacity))
    ensures var s := Run(Start(parameters, capacity), events);
            Capture.NothingLost(s.histories[i]) ==>
              Capture.AllPayload(From(s.taken, i)) + Capture.AllPayload(s.mux.readers[i].items)
              == Capture.Payload(Capture.Selected(false, Capture.AllFrames(s.histories[i])))
  {
    StreamsNeverInterleave(parameters, capacity, events);
    var s := Run(Start(parameters, capacity), events);
    if Capture.NothingLost(s.histories[i]) {
      Capture.CaptureIsOneFilter(parameters[i], s.histories[i]);
      AllPayloadConcat(From(s.taken, i), s.mux.readers[i].items);
    }
  }

  lemma {:induction false} AllPayloadConcat(a: seq<Chunk>, b: seq<Chunk>)
    ensures Capture.AllPayload(a + b) == Capture.AllPayload(a) + Capture.AllPayload(b)
    decreases |b|
  {
    if b == [] {
      assert a + b == a;
    } else {
      var last := |b| - 1;
      assert (a + b)[..|a + b| - 1] == a + b[..last];
      AllPayloadConcat(a, b[..last]);
    }
  }
}
