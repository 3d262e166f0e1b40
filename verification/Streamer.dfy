/** Distributing one stream of chunks to every player's session. */
module Streamer {
  import opened Common
  import opened Chunks
  import opened StateMachine
  import opened PlaybackTime
  import CommandSession
  import Correlation

  datatype Event = StartEvent | PrepareEvent | BufferEvent | PlayEvent | DrainEvent | FlushedEvent | StopEvent

  datatype Action = Nothing | ToPreparing | ToBuffering | ToPlaying | ToStopped

  datatype Guard = Always | ReadyToBuffer | ReadyToPlay | NotDraining

  /** A session, the number of the next chunk it needs, and its history in the current
      stream: where it joined and the chunks it accepted, and where an HTTP session was
      last attached or detached and the chunks passed on since. */
  datatype Entry = Entry(
    session: CommandSession.Session,
    sequence: nat,
    joined: nat,
    accepted: seq<Chunk>,
    since: nat,
    passed: seq<Chunk>)

  /** Sessions by connection. Timestamps are in nanoseconds. The last fields are history:
      the chunks distributed to all, the one distributed to some, the one the producer
      will offer again, the start times sent since buffering began, and how often the
      chunk on offer was distributed. */
  datatype Streamer = Streamer(
    state: State,
    samplingRate: nat,
    preparingStartedAt: int,
    bufferingStartedAt: int,
    playbackStartedAt: int,
    streamedChunks: nat,
    streamedFrames: nat,
    bufferedFrames: int,
    nextID: nat,
    entries: map<nat, Entry>,
    stream: seq<Chunk>,
    partial: seq<Chunk>,
    offered: Option<Chunk>,
    unpaused: set<int>,
    fanned: nat)

  const CREATED: Streamer := Streamer(Stopped, 0, 0, 0, 0, 0, 0, 0, 0, map[], [], [], None, {}, 0)

  /** What a call depends on besides its chunk: clock readings, the order in which the
      sessions are visited, and the sessions whose HTTP session has no room. */
  datatype Surroundings = Surroundings(preparing: int, waiting: int, buffering: int, order: seq<nat>, full: set<nat>)

  /** For events that depend on nothing. */
  const NOWHERE: Surroundings := Surroundings(0, 0, 0, [], {})

  // ---------- Transition table ----------

  const START_ROWS: seq<Row<Event, Action, Guard>> := [
    Row(StartEvent, Started, Started, Nothing, Always),
    Row(StartEvent, Preparing, Preparing, Nothing, Always),
    Row(StartEvent, Buffering, Buffering, Nothing, Always),
    Row(StartEvent, Playing, Playing, Nothing, Always),
    Row(StartEvent, Draining, Draining, Nothing, Always),
    Row(StartEvent, Stopped, Started, Nothing, Always)]

  const PREPARE_ROWS: seq<Row<Event, Action, Guard>> := [
    Row(PrepareEvent, Started, Preparing, ToPreparing, Always),
    Row(PrepareEvent, Preparing, Preparing, Nothing, Always)]

  const BUFFER_ROWS: seq<Row<Event, Action, Guard>> := [
    Row(BufferEvent, Preparing, Buffering, ToBuffering, ReadyToBuffer),
    Row(BufferEvent, Buffering, Buffering, Nothing, Always),
    Row(BufferEvent, Playing, Playing, Nothing, Always)]

  const PLAY_ROWS: seq<Row<Event, Action, Guard>> := [
    Row(PlayEvent, Buffering, Playing, ToPlaying, ReadyToPlay),
    Row(PlayEvent, Playing, Playing, Nothing, Always)]

  const DRAIN_ROWS: seq<Row<Event, Action, Guard>> := [
    Row(DrainEvent, Preparing, Draining, Nothing, Always),
    Row(DrainEvent, Buffering, Draining, Nothing, Always),
    Row(DrainEvent, Playing, Draining, Nothing, Always),
    Row(DrainEvent, Draining, Draining, Nothing, Always),
    Row(DrainEvent, Started, Started, Nothing, Always)]

  const FLUSHED_ROWS: seq<Row<Event, Action, Guard>> := [
    Row(FlushedEvent, Started, Started, Nothing, Always),
    Row(FlushedEvent, Playing, Playing, Nothing, Always),
    Row(FlushedEvent, Draining, Started, Nothing, NotDraining)]

  const STOP_ROWS: seq<Row<Event, Action, Guard>> := [
    Row(StopEvent, Stopped, Stopped, Nothing, Always),
    Row(StopEvent, Started, Stopped, ToStopped, Always),
    Row(StopEvent, Preparing, Stopped, ToStopped, Always),
    Row(StopEvent, Buffering, Stopped, ToStopped, Always),
    Row(StopEvent, Playing, Stopped, ToStopped, Always),
    Row(StopEvent, Draining, Stopped, ToStopped, Always)]

  const EVENTS: seq<Event> := [StartEvent, PrepareEvent, BufferEvent, PlayEvent, DrainEvent, FlushedEvent, StopEvent]

  const TRANSITIONS: seq<Row<Event, Action, Guard>> :=
    Flatten(seq(|EVENTS|, i requires 0 <= i < |EVENTS| => RowsOf(EVENTS[i])))

  function RowsOf(event: Event): seq<Row<Event, Action, Guard>> {
    match event
    case StartEvent => START_ROWS
    case PrepareEvent => PREPARE_ROWS
    case BufferEvent => BUFFER_ROWS
    case PlayEvent => PLAY_ROWS
    case DrainEvent => DRAIN_ROWS
    case FlushedEvent => FLUSHED_ROWS
    case StopEvent => STOP_ROWS
  }

  /** What the table means. */
  function Transition(event: Event, state: State): Option<Step<Action, Guard>> {
    match event
    case StartEvent => Some(Step(if state.Stopped? then Started else state, Nothing, Always))
    case PrepareEvent =>
      if state.Started? then Some(Step(Preparing, ToPreparing, Always))
      else if state.Preparing? then Some(Step(Preparing, Nothing, Always))
      else None
    case BufferEvent =>
      if state.Preparing? then Some(Step(Buffering, ToBuffering, ReadyToBuffer))
      else if state.Buffering? || state.Playing? then Some(Step(state, Nothing, Always))
      else None
    case PlayEvent =>
      if state.Buffering? then Some(Step(Playing, ToPlaying, ReadyToPlay))
      else if state.Playing? then Some(Step(Playing, Nothing, Always))
      else None
    case DrainEvent =>
      if state.Stopped? then None
      else Some(Step(if state.Started? then Started else Draining, Nothing, Always))
    case FlushedEvent =>
      if state.Draining? then Some(Step(Started, Nothing, NotDraining))
      else if state.Started? || state.Playing? then Some(Step(state, Nothing, Always))
      else None
    case StopEvent => Some(Step(Stopped, if state.Stopped? then Nothing else ToStopped, Always))
  }

  function RowIndex(event: Event, state: State): Option<nat> {
    match event
    case StartEvent =>
      Some(match state case Started => 0 case Preparing => 1 case Buffering => 2 case Playing => 3
        case Draining => 4 case Stopped => 5)
    case PrepareEvent => (match state case Started => Some(0) case Preparing => Some(1) case _ => None)
    case BufferEvent =>
      (match state case Preparing => Some(0) case Buffering => Some(1) case Playing => Some(2)
        case _ => None)
    case PlayEvent => (match state case Buffering => Some(0) case Playing => Some(1) case _ => None)
    case DrainEvent =>
      (match state case Preparing => Some(0) case Buffering => Some(1) case Playing => Some(2)
        case Draining => Some(3) case Started => Some(4) case _ => None)
    case FlushedEvent =>
      (match state case Started => Some(0) case Playing => Some(1) case Draining => Some(2)
        case _ => None)
    case StopEvent =>
      Some(match state case Stopped => 0 case Started => 1 case Preparing => 2 case Buffering => 3
        case Playing => 4 case Draining => 5)
  }

  lemma OtherRows(group: Event, event: Event, state: State)
    requires group != event
    ensures Find(RowsOf(group), event, state) == None
  {
    FindsNothing(RowsOf(group), event, state);
  }

  lemma RowsMeanTransition(event: Event, state: State)
    ensures Find(RowsOf(event), event, state) == Transition(event, state)
  {
    var rows := RowsOf(event);
    match RowIndex(event, state) {
      case None => FindsNothing(rows, event, state);
      case Some(k) =>
        assert k < |rows| && rows[k].event == event && rows[k].from == state;
        FindsFirst(rows, k);
    }
  }

  /** The first row of the table for an event and a state says what `Transition` says. */
  lemma TableMeansTransition(event: Event, state: State)
    ensures Find(TRANSITIONS, event, state) == Transition(event, state)
  {
    var groups := seq(|EVENTS|, i requires 0 <= i < |EVENTS| => RowsOf(EVENTS[i]));
    var k := match event
      case StartEvent => 0 case PrepareEvent => 1 case BufferEvent => 2 case PlayEvent => 3
      case DrainEvent => 4 case FlushedEvent => 5 case StopEvent => 6;
    forall j | 0 <= j < |groups| && j != k ensures Find(groups[j], event, state) == None {
      OtherRows(EVENTS[j], event, state);
    }
    FindInGroup(groups, k, event, state);
    RowsMeanTransition(event, state);
  }

  // ---------- Guards and actions ----------

  const MAX_PREPARING: int := 2_000_000
  const MIN_BUFFERING: int := 2_000

  predicate Allows(guard: Guard, st: Streamer, now: Surroundings) {
    match guard
    case Always => true
    case ReadyToBuffer =>
      || MAX_PREPARING < Quotient(now.waiting - st.preparingStartedAt, 1000)
      || forall c <- st.entries :: CommandSession.Allows(CommandSession.ReadyToBuffer, st.entries[c].session)
    case ReadyToPlay =>
      && MIN_BUFFERING < CalculateDuration(st.streamedFrames, MILLISECONDS, st.samplingRate)
      && forall c <- st.entries :: CommandSession.Allows(CommandSession.ReadyToPlay, st.entries[c].session)
    case NotDraining => forall c <- st.entries :: !st.entries[c].session.state.Draining?
  }

  /** The latencies of the sessions, in the order in which they are visited. */
  function Latencies(entries: map<nat, Entry>, order: seq<nat>): seq<Option<int>> {
    if order == [] then []
    else
      var rest := Latencies(entries, order[..|order| - 1]);
      var c := order[|order| - 1];
      if c in entries then rest + [entries[c].session.latency] else rest
  }

  function Fresh(e: Entry, samplingRate: nat): Entry {
    Entry(CommandSession.Prepare(e.session, samplingRate), 0, 0, [], 0, [])
  }

  function Refreshed(entries: map<nat, Entry>, samplingRate: nat): map<nat, Entry> {
    map c | c in entries :: Fresh(entries[c], samplingRate)
  }

  function BeginPreparing(st: Streamer, now: Surroundings): Streamer {
    st.(preparingStartedAt := now.preparing,
        streamedFrames := 0, bufferedFrames := 0, streamedChunks := 0,
        entries := Refreshed(st.entries, st.samplingRate),
        stream := [], partial := [], fanned := 0)
  }

  function BeginPlaying(st: Streamer, delay: int): Streamer {
    var buffered := BufferedFrames(st.streamedFrames, delay, st.samplingRate);
    st.(bufferedFrames := buffered,
        playbackStartedAt := StartTime(st.bufferingStartedAt, buffered, st.samplingRate))
  }

  function Halted(e: Entry): Entry {
    e.(session := CommandSession.OnStop(e.session))
  }

  function AllHalted(entries: map<nat, Entry>): map<nat, Entry> {
    map c | c in entries :: Halted(entries[c])
  }

  function StopAll(st: Streamer): Streamer {
    st.(entries := AllHalted(st.entries))
  }

  function Perform(action: Action, st: Streamer, now: Surroundings): Streamer {
    match action
    case Nothing => st
    case ToPreparing => BeginPreparing(st, now)
    case ToBuffering => st.(bufferingStartedAt := now.buffering, unpaused := {})
    case ToPlaying => BeginPlaying(st, Delay(Latencies(st.entries, now.order)))
    case ToStopped => StopAll(st)
  }

  function ProcessEvent(st: Streamer, event: Event, now: Surroundings): (Streamer, Verdict) {
    match Transition(event, st.state)
    case None => (st, Missing)
    case Some(step) =>
      if Allows(step.guard, st, now) then (Perform(step.action, st, now).(state := step.to), Done)
      else (st, Refused)
  }

  // ---------- Distributing a chunk ----------

  /** Whether the HTTP session behind a connection, if there is one, has room. */
  predicate HasRoom(full: set<nat>, c: nat) {
    c !in full
  }

  function OfferOf(st: Streamer, chunk: Chunk, room: bool): CommandSession.Offer {
    CommandSession.Offer(chunk.endOfStream, st.samplingRate, st.state.Playing?, st.playbackStartedAt, room)
  }

  /** An entry once its session answered an offer, if it was made one: a session that
      accepted the chunk before is not asked again. What a session that passes chunks on
      accepts, its HTTP session has. */
  function Dealt(e: Entry, streamedChunks: nat, answer: (CommandSession.Session, bool), chunk: Chunk): (Entry, bool) {
    if e.sequence > streamedChunks then (e, true)
    else if answer.1 then
      (e.(session := answer.0, sequence := e.sequence + 1, accepted := e.accepted + [chunk],
          passed := if CommandSession.PassesOn(e.session) then e.passed + [chunk] else e.passed),
       true)
    else (e.(session := answer.0), false)
  }

  function OfferTo(st: Streamer, e: Entry, chunk: Chunk, room: bool): (Entry, bool) {
    Dealt(e, st.streamedChunks, CommandSession.ConsumeChunk(e.session, OfferOf(st, chunk, room)), chunk)
  }

  /** The start time named by an Unpause that was sent between two states of a session. */
  function Unpausing(before: CommandSession.Session, after: CommandSession.Session): Option<int> {
    if after.trace.Cons? && after.trace.tail == before.trace && CommandSession.IsUnpause(after.trace.head) then
      Some(after.trace.head.command.at + 1000 * after.timeOffset.UnwrapOr(0))
    else
      None
  }

  function OfferedAll(st: Streamer, chunk: Chunk, full: set<nat>): map<nat, Entry> {
    map c | c in st.entries :: OfferTo(st, st.entries[c], chunk, HasRoom(full, c)).0
  }

  predicate AllAccept(st: Streamer, chunk: Chunk, full: set<nat>) {
    forall c <- st.entries :: OfferTo(st, st.entries[c], chunk, HasRoom(full, c)).1
  }

  /** The start times sent between two states of the sessions. */
  ghost function StartTimes(before: map<nat, Entry>, after: map<nat, Entry>): set<int>
    requires before.Keys == after.Keys
  {
    set c | c in before && Unpausing(before[c].session, after[c].session).Some?
      :: Unpausing(before[c].session, after[c].session).value
  }

  /** What a distribution leads to: the chunk counts if every session consumed it. */
  ghost function Counted(st: Streamer, entries: map<nat, Entry>, chunk: Chunk, result: bool): Streamer
    requires entries.Keys == st.entries.Keys
  {
    var unpaused := st.unpaused + StartTimes(st.entries, entries);
    var st' := st.(entries := entries, unpaused := unpaused, fanned := st.fanned + 1);
    if result then
      st'.(streamedChunks := st.streamedChunks + 1, streamedFrames := st.streamedFrames + chunk.frames,
           stream := st.stream + [chunk], partial := [])
    else
      st'.(partial := [chunk])
  }

  ghost function StreamChunk(st: Streamer, chunk: Chunk, full: set<nat>): (Streamer, bool) {
    var entries, result := OfferedAll(st, chunk, full), AllAccept(st, chunk, full);
    (Counted(st, entries, chunk, result), result)
  }

  // ---------- Consuming a chunk ----------

  /** In the Started state a chunk with a rate begins a new stream; one without is skipped. */
  function TryPrepare(st: Streamer, chunk: Chunk, now: Surroundings): (Streamer, bool) {
    if !st.state.Started? then (st, false)
    else if chunk.samplingRate == 0 then (st, true)
    else
      var (st', verdict) := ProcessEvent(st.(samplingRate := chunk.samplingRate), PrepareEvent, now);
      (st', verdict.Missing?)
  }

  function TryBuffer(st: Streamer, result: bool, now: Surroundings): (Streamer, bool) {
    if !st.state.Preparing? then (st, result)
    else
      var (st', verdict) := ProcessEvent(st, BufferEvent, now);
      (st', verdict.Done?)
  }

  /** The streamer once it decided whether playback starts. */
  function MaybePlay(st: Streamer, now: Surroundings): Streamer {
    if st.state.Buffering? then ProcessEvent(st, PlayEvent, now).0 else st
  }

  /** Buffering and playing: perhaps starting playback, distributing a chunk whose rate
      matches, and draining after an end of stream or a change of rate. */
  ghost function TryStream(st: Streamer, result: bool, chunk: Chunk, now: Surroundings): (Streamer, bool) {
    if !st.state.Buffering? && !st.state.Playing? then (st, result)
    else
      var st1 := MaybePlay(st, now);
      var (st2, streamed) :=
        if st1.samplingRate == chunk.samplingRate then StreamChunk(st1, chunk, now.full) else (st1, false);
      if st1.samplingRate != chunk.samplingRate || chunk.endOfStream then (ProcessEvent(st2, DrainEvent, now).0, false)
      else (st2, streamed)
  }

  function TryFlush(st: Streamer, result: bool, now: Surroundings): (Streamer, bool) {
    if !st.state.Draining? then (st, result)
    else
      var (st', verdict) := ProcessEvent(st, FlushedEvent, now);
      (st', verdict.Done?)
  }

  /** The answer is whether the chunk was consumed; one that was not is offered again. */
  ghost function ConsumeChunk(st: Streamer, chunk: Chunk, now: Surroundings): (Streamer, bool) {
    var (st1, r1) := TryPrepare(st.(offered := Some(chunk)), chunk, now);
    var (st2, r2) := TryBuffer(st1, r1, now);
    var (st3, r3) := TryStream(st2, r2, chunk, now);
    var (st4, r4) := TryFlush(st3, r3, now);
    (if r4 then st4.(offered := None, fanned := 0) else st4, r4)
  }

  /** The answers of the transition table to the events that a call processes. */
  ghost function Verdicts(st: Streamer, chunk: Chunk, now: Surroundings): seq<Verdict> {
    var (st1, r1) := TryPrepare(st, chunk, now);
    var (st2, r2) := TryBuffer(st1, r1, now);
    var (st3, r3) := TryStream(st2, r2, chunk, now);
    (if st.state.Started? && chunk.samplingRate != 0 then
       [ProcessEvent(st.(samplingRate := chunk.samplingRate), PrepareEvent, now).1]
     else [])
    + (if st1.state.Preparing? then [ProcessEvent(st1, BufferEvent, now).1] else [])
    + (if st2.state.Buffering? then [ProcessEvent(st2, PlayEvent, now).1] else [])
    + (if st2.state.Buffering? || st2.state.Playing? then DrainVerdict(MaybePlay(st2, now), chunk, now) else [])
    + (if st3.state.Draining? then [ProcessEvent(st3, FlushedEvent, now).1] else [])
  }

  ghost function DrainVerdict(st: Streamer, chunk: Chunk, now: Surroundings): seq<Verdict> {
    if st.samplingRate != chunk.samplingRate then [ProcessEvent(st, DrainEvent, now).1]
    else if chunk.endOfStream then [ProcessEvent(StreamChunk(st, chunk, now.full).0, DrainEvent, now).1]
    else []
  }

  /** The table has a row for every event processed on behalf of a chunk, in every state:
      the handlers for missing transitions inside `consumeChunk` are never called. */
  lemma ConsumeFindsItsRows(st: Streamer, chunk: Chunk, now: Surroundings)
    ensures Missing !in Verdicts(st, chunk, now)
  {
    var (st1, r1) := TryPrepare(st, chunk, now);
    var (st2, r2) := TryBuffer(st1, r1, now);
    if st2.state.Buffering? || st2.state.Playing? {
      DrainFindsItsRow(MaybePlay(st2, now), chunk, now);
    }
    EventFindsItsRow(st.(samplingRate := chunk.samplingRate), PrepareEvent, now);
    EventFindsItsRow(st1, BufferEvent, now);
    EventFindsItsRow(st2, PlayEvent, now);
    EventFindsItsRow(TryStream(st2, r2, chunk, now).0, FlushedEvent, now);
  }

  lemma EventFindsItsRow(st: Streamer, event: Event, now: Surroundings)
    ensures ProcessEvent(st, event, now).1.Missing? <==> Transition(event, st.state).None?
  {
  }

  lemma DrainFindsItsRow(st: Streamer, chunk: Chunk, now: Surroundings)
    requires st.state.Buffering? || st.state.Playing?
    ensures Missing !in DrainVerdict(st, chunk, now)
  {
    EventFindsItsRow(st, DrainEvent, now);
    EventFindsItsRow(StreamChunk(st, chunk, now.full).0, DrainEvent, now);
  }

  /** A new session gets the next number as its ID and joins where the stream is. */
  function OnOpen(st: Streamer, c: nat): Streamer {
    var session := CommandSession.OnStart(CommandSession.Created(Correlation.Decimal(st.nextID + 1)));
    var n := st.streamedChunks;
    st.(nextID := st.nextID + 1, entries := st.entries[c := Entry(session, n, n, [], n, [])])
  }

  function OnClose(st: Streamer, c: nat): Streamer {
    st.(entries := st.entries - {c})
  }

  // ---------- Runs ----------

  /** What a player, or the HTTP side, does to a session. */
  predicate FromPlayer(i: CommandSession.Input) {
    !i.Begin? && !i.Prepared? && !i.Offered? && !i.Halt?
  }

  /** What that does to an entry. */
  function Touched(e: Entry, input: CommandSession.Input): Entry {
    var e' := e.(session := CommandSession.Next(e.session, input));
    if input.Streaming? then e'.(since := e.sequence, passed := []) else e'
  }

  datatype Input =
    | Begin
    | Halt(now: Surroundings)
    | Open(connection: nat)
    | Close(connection: nat)
    | Player(connection: nat, input: CommandSession.Input)
    | Deliver(chunk: Chunk, now: Surroundings)

  /** Connections open and close once, only players that are there act, and a chunk that
      was not consumed is the next one to be offered. */
  predicate Enabled(st: Streamer, i: Input) {
    match i
    case Open(c) => c !in st.entries
    case Close(c) => c in st.entries
    case Player(c, input) => c in st.entries && FromPlayer(input)
    case Deliver(chunk, _) => st.offered.None? || st.offered == Some(chunk)
    case _ => true
  }

  ghost function Next(st: Streamer, i: Input): Streamer {
    if !Enabled(st, i) then st else
    match i
    case Begin => ProcessEvent(st, StartEvent, NOWHERE).0
    case Halt(now) => ProcessEvent(st, StopEvent, now).0
    case Open(c) => OnOpen(st, c)
    case Close(c) => OnClose(st, c)
    case Player(c, input) => st.(entries := st.entries[c := Touched(st.entries[c], input)])
    case Deliver(chunk, now) => ConsumeChunk(st, chunk, now).0
  }

  ghost function Run(st: Streamer, inputs: seq<Input>): Streamer {
    if inputs == [] then st else Next(Run(st, inputs[..|inputs| - 1]), inputs[|inputs| - 1])
  }

  // ---------- In memory ----------

  lemma VisitOne(entries: map<nat, Entry>, order: seq<nat>, i: nat)
    requires i < |order| && order[i] in entries
    ensures Delay(Latencies(entries, order[..i + 1]))
         == Delay(Latencies(entries, order[..i])) + Latency(entries[order[i]].session.latency)
  {
    var before := Latencies(entries, order[..i]);
    assert order[..i + 1][..i] == order[..i];
    assert (before + [entries[order[i]].session.latency])[..|before|] == before;
  }

  /** Every key once, in some order. */
  ghost predicate Enumerates(order: seq<nat>, keys: set<nat>) {
    && (forall c :: c in order <==> c in keys)
    && (forall j, k :: 0 <= j < k < |order| ==> order[j] != order[k])
    && multiset(order) == multiset(keys)
  }

  /** The order in which a hash map is traversed. */
  method Traverse(keys: set<nat>) returns (order: seq<nat>)
    ensures Enumerates(order, keys)
  {
    order := [];
    var todo := keys;
    while todo != {}
      invariant todo <= keys
      invariant Enumerates(order, keys - todo)
      decreases |todo|
    {
      var c :| c in todo;
      TraverseOne(order, keys, todo, c);
      order, todo := order + [c], todo - {c};
    }
    assert keys - {} == keys;
  }

  lemma TraverseOne(order: seq<nat>, keys: set<nat>, todo: set<nat>, c: nat)
    requires todo <= keys && c in todo && Enumerates(order, keys - todo)
    ensures Enumerates(order + [c], keys - (todo - {c}))
  {
    assert keys - (todo - {c}) == (keys - todo) + {c};
    assert multiset((keys - todo) + {c}) == multiset(keys - todo) + multiset{c};
  }

  /** Replaces every entry, one after another in whatever order. */
  method ForEach(entries: map<nat, Entry>, f: Entry -> Entry) returns (updated: map<nat, Entry>)
    ensures updated == map c | c in entries :: f(entries[c])
  {
    updated := entries;
    var todo := entries.Keys;
    while todo != {}
      invariant updated.Keys == entries.Keys && todo <= entries.Keys
      invariant forall c <- entries :: updated[c] == if c in todo then entries[c] else f(entries[c])
      decreases |todo|
    {
      var c :| c in todo;
      updated, todo := updated[c := f(updated[c])], todo - {c};
    }
  }

  type Answer = (CommandSession.Session, bool)

  function Asked(entries: map<nat, Entry>, c: nat, streamedChunks: nat, chunk: Chunk,
                 consume: (nat, CommandSession.Session) -> Answer): (Entry, bool)
    requires c in entries
  {
    Dealt(entries[c], streamedChunks, consume(c, entries[c].session), chunk)
  }

  /** The distribution loop: every session whose counter is not past the chunk is asked
      to consume it, and counts it if it does. */
  method OfferEach(entries: map<nat, Entry>, streamedChunks: nat, chunk: Chunk,
                   consume: (nat, CommandSession.Session) -> Answer)
    returns (updated: map<nat, Entry>, result: bool)
    ensures updated.Keys == entries.Keys
    ensures forall c <- entries :: updated[c] == Asked(entries, c, streamedChunks, chunk, consume).0
    ensures result <==> forall c <- entries :: Asked(entries, c, streamedChunks, chunk, consume).1
  {
    updated, result := entries, true;
    var todo := entries.Keys;
    while todo != {}
      invariant updated.Keys == entries.Keys && todo <= entries.Keys
      invariant forall c <- entries ::
                  updated[c] == if c in todo then entries[c] else Asked(entries, c, streamedChunks, chunk, consume).0
      invariant result <==> forall c <- entries :: c in todo || Asked(entries, c, streamedChunks, chunk, consume).1
      decreases |todo|
    {
      var c :| c in todo;
      var e, accepted := Ask(entries, c, streamedChunks, chunk, consume);
      updated, todo := updated[c := e], todo - {c};
      if !accepted {
        result := false;
      }
    }
  }

  /** One round: asks a session to consume the chunk and counts it if it does. */
  method Ask(entries: map<nat, Entry>, c: nat, streamedChunks: nat, chunk: Chunk,
             consume: (nat, CommandSession.Session) -> Answer)
    returns (e: Entry, accepted: bool)
    requires c in entries
    ensures (e, accepted) == Asked(entries, c, streamedChunks, chunk, consume)
  {
    e, accepted := entries[c], true;
    if e.sequence <= streamedChunks {
      var (session, consumed) := consume(c, e.session);
      e := e.(session := session);
      if consumed {
        var passed := if CommandSession.PassesOn(entries[c].session) then e.passed + [chunk] else e.passed;
        e := e.(sequence := e.sequence + 1, accepted := e.accepted + [chunk], passed := passed);
      } else {
        accepted := false;
      }
    }
  }

  /** What the loop does when sessions consume as they do. */
  lemma LoopIsOfferedAll(st: Streamer, chunk: Chunk, full: set<nat>, consume: (nat, CommandSession.Session) -> Answer,
                         updated: map<nat, Entry>, result: bool)
    requires forall c <- st.entries ::
      consume(c, st.entries[c].session)
      == CommandSession.ConsumeChunk(st.entries[c].session, OfferOf(st, chunk, HasRoom(full, c)))
    requires updated.Keys == st.entries.Keys
    requires forall c <- st.entries :: updated[c] == Asked(st.entries, c, st.streamedChunks, chunk, consume).0
    requires result <==> forall c <- st.entries :: Asked(st.entries, c, st.streamedChunks, chunk, consume).1
    ensures updated == OfferedAll(st, chunk, full) && result == AllAccept(st, chunk, full)
  {
  }

  /** The history of the streamer. */
  datatype History = History(
    stream: seq<Chunk>, partial: seq<Chunk>, offered: Option<Chunk>, unpaused: set<int>, fanned: nat)

  class SlimStreamer {
    var state: State
    var samplingRate: nat
    var preparingStartedAt: int
    var bufferingStartedAt: int
    var playbackStartedAt: int
    var streamedChunks: nat
    var streamedFrames: nat
    var bufferedFrames: int
    var nextID: nat
    var entries: map<nat, Entry>
    // The IDs of the HTTP sessions, by HTTP connection.
    var streamingSessions: map<nat, string>
    ghost var history: History

    ghost function View(): Streamer
      reads this
    {
      Streamer(state, samplingRate, preparingStartedAt, bufferingStartedAt, playbackStartedAt,
               streamedChunks, streamedFrames, bufferedFrames, nextID, entries,
               history.stream, history.partial, history.offered, history.unpaused, history.fanned)
    }

    constructor ()
      ensures View() == CREATED && streamingSessions == map[]
    {
      state, samplingRate, preparingStartedAt, bufferingStartedAt, playbackStartedAt := Stopped, 0, 0, 0, 0;
      streamedChunks, streamedFrames, bufferedFrames, nextID, entries, streamingSessions := 0, 0, 0, 0, map[], map[];
      history := History([], [], None, {}, 0);
    }

    // ---------- Guards ----------

    /** Whether no session fails a guard of its own. */
    method AllAllow(guard: CommandSession.Guard) returns (all: bool)
      ensures all <==> forall c <- entries :: CommandSession.Allows(guard, entries[c].session)
    {
      var order := Traverse(entries.Keys);
      var notReady := 0;
      for i := 0 to |order|
        invariant notReady == 0 <==> forall k :: 0 <= k < i ==> CommandSession.Allows(guard, entries[order[k]].session)
      {
        if !CommandSession.Allows(guard, entries[order[i]].session) {
          notReady := notReady + 1;
        }
      }
      all := notReady == 0;
      forall c <- entries | all ensures CommandSession.Allows(guard, entries[c].session) {
        assert c in order;
      }
    }

    method NoneDrains() returns (none: bool)
      ensures none <==> forall c <- entries :: !entries[c].session.state.Draining?
    {
      var order := Traverse(entries.Keys);
      var draining := 0;
      for i := 0 to |order|
        invariant draining == 0 <==> forall k :: 0 <= k < i ==> !entries[order[k]].session.state.Draining?
      {
        if entries[order[i]].session.state.Draining? {
          draining := draining + 1;
        }
      }
      none := draining == 0;
      forall c <- entries | none ensures !entries[c].session.state.Draining? {
        assert c in order;
      }
    }

    method Evaluate(guard: Guard, now: Surroundings) returns (allowed: bool)
      ensures allowed == Allows(guard, View(), now)
    {
      match guard {
        case Always =>
          allowed := true;
        case ReadyToBuffer =>
          var waitThresholdReached := MAX_PREPARING < Quotient(now.waiting - preparingStartedAt, 1000);
          var ready := AllAllow(CommandSession.ReadyToBuffer);
          allowed := waitThresholdReached || ready;
        case ReadyToPlay =>
          var ready := AllAllow(CommandSession.ReadyToPlay);
          allowed := MIN_BUFFERING < CalculateDuration(streamedFrames, MILLISECONDS, samplingRate) && ready;
        case NotDraining =>
          allowed := NoneDrains();
      }
    }

    // ---------- Actions ----------

    /** Visits every session once and sums the latencies. */
    method CalculateDelay() returns (delay: int, order: seq<nat>)
      ensures Enumerates(order, entries.Keys)
      ensures delay == Delay(Latencies(entries, order))
    {
      order := Traverse(entries.Keys);
      delay := 1000;
      for i := 0 to |order|
        invariant delay == Delay(Latencies(entries, order[..i]))
      {
        VisitOne(entries, order, i);
        if entries[order[i]].session.latency.Some? {
          delay := delay + entries[order[i]].session.latency.value;
        }
      }
      assert order[..|order|] == order;
    }

    method ChangeToPreparing(now: Surroundings)
      modifies this
      ensures streamingSessions == old(streamingSessions)
      ensures View() == BeginPreparing(old(View()), now)
    {
      ResetCounters(now);
      var rate := samplingRate;
      entries := ForEach(entries, e => Fresh(e, rate));
    }

    method ResetCounters(now: Surroundings)
      modifies this
      ensures streamingSessions == old(streamingSessions)
      ensures View() == old(View()).(
                preparingStartedAt := now.preparing, streamedFrames := 0, bufferedFrames := 0, streamedChunks := 0,
                stream := [], partial := [], fanned := 0)
    {
      preparingStartedAt := now.preparing;
      streamedFrames, bufferedFrames, streamedChunks := 0, 0, 0;
      history := history.(stream := [], partial := [], fanned := 0);
    }

    method ChangeToPlaying() returns (order: seq<nat>)
      modifies this
      ensures streamingSessions == old(streamingSessions)
      ensures Enumerates(order, View().entries.Keys)
      ensures View() == BeginPlaying(old(View()), Delay(Latencies(old(View()).entries, order)))
    {
      var playbackDelay;
      playbackDelay, order := CalculateDelay();
      bufferedFrames := BufferedFrames(streamedFrames, playbackDelay, samplingRate);
      playbackStartedAt := StartTime(bufferingStartedAt, bufferedFrames, samplingRate);
    }

    method ChangeToStopped()
      modifies this
      ensures streamingSessions == old(streamingSessions)
      ensures View() == StopAll(old(View()))
    {
      entries := ForEach(entries, e => Halted(e));
    }

    /** Searches the table; the guard decides, and the action runs before the state
        changes. `order` is the order in which the sessions were visited, if they were. */
    method Process(event: Event, now: Surroundings) returns (verdict: Verdict, order: seq<nat>)
      modifies this
      ensures streamingSessions == old(streamingSessions)
      ensures (View(), verdict) == ProcessEvent(old(View()), event, now.(order := order))
      ensures order == now.order || (event.PlayEvent? && Enumerates(order, View().entries.Keys))
    {
      order := now.order;
      TableMeansTransition(event, state);
      var found := Search(TRANSITIONS, event, state);
      if found.None? {
        return Missing, order;
      }
      var allowed := Evaluate(found.value.guard, now);
      if !allowed {
        return Refused, order;
      }
      order := Act(found.value.action, now);
      state := found.value.to;
      return Done, order;
    }

    method Act(action: Action, now: Surroundings) returns (order: seq<nat>)
      modifies this
      ensures streamingSessions == old(streamingSessions)
      ensures View() == Perform(action, old(View()), now.(order := order))
      ensures order == now.order || (action.ToPlaying? && Enumerates(order, View().entries.Keys))
    {
      order := now.order;
      match action {
        case Nothing =>
        case ToPreparing => ChangeToPreparing(now);
        case ToBuffering => BeginBuffering(now);
        case ToPlaying => order := ChangeToPlaying();
        case ToStopped => ChangeToStopped();
      }
    }

    method BeginBuffering(now: Surroundings)
      modifies this`bufferingStartedAt, this`history
      ensures View() == old(View()).(bufferingStartedAt := now.buffering, unpaused := {})
    {
      bufferingStartedAt := now.buffering;
      history := history.(unpaused := {});
    }

    // ---------- Chunks ----------

    /** The distribution loop on this streamer's sessions. */
    method OfferToAll(chunk: Chunk, full: set<nat>) returns (result: bool)
      modifies this`entries
      ensures entries == OfferedAll(old(View()), chunk, full)
      ensures result == AllAccept(old(View()), chunk, full)
    {
      ghost var was := View();
      var offer := CommandSession.Offer(chunk.endOfStream, samplingRate, state.Playing?, playbackStartedAt, true);
      var consume := (c: nat, s: CommandSession.Session) =>
        CommandSession.ConsumeChunk(s, offer.(room := HasRoom(full, c)));
      entries, result := OfferEach(entries, streamedChunks, chunk, consume);
      LoopIsOfferedAll(was, chunk, full, consume, entries, result);
    }

    method Distribute(chunk: Chunk, full: set<nat>) returns (result: bool)
      modifies this`entries, this`streamedChunks, this`streamedFrames, this`history
      ensures (View(), result) == StreamChunk(old(View()), chunk, full)
    {
      ghost var was := View();
      result := OfferToAll(chunk, full);
      Count(chunk, result, was);
    }

    /** The counters after the loop. */
    method Count(chunk: Chunk, result: bool, ghost was: Streamer)
      requires entries.Keys == was.entries.Keys && View() == was.(entries := entries)
      modifies this`streamedChunks, this`streamedFrames, this`history
      ensures View() == Counted(was, entries, chunk, result)
    {
      history := history.(unpaused := history.unpaused + StartTimes(was.entries, entries),
                          fanned := history.fanned + 1);
      if result {
        streamedChunks := streamedChunks + 1;
        streamedFrames := streamedFrames + chunk.frames;
        history := history.(stream := history.stream + [chunk], partial := []);
      } else {
        history := history.(partial := [chunk]);
      }
    }

    method Prepare(chunk: Chunk, now: Surroundings) returns (result: bool)
      modifies this
      ensures streamingSessions == old(streamingSessions)
      ensures (View(), result) == TryPrepare(old(View()), chunk, now)
    {
      result := false;
      if state.Started? {
        if chunk.samplingRate != 0 {
          samplingRate := chunk.samplingRate;
          var verdict, _ := Process(PrepareEvent, now);
          result := verdict.Missing?;
        } else {
          result := true;
        }
      }
    }

    method Buffer(before: bool, now: Surroundings) returns (result: bool)
      modifies this
      ensures streamingSessions == old(streamingSessions)
      ensures (View(), result) == TryBuffer(old(View()), before, now)
    {
      result := before;
      if state.Preparing? {
        var verdict, _ := Process(BufferEvent, now);
        result := verdict.Done?;
      }
    }

    method Stream(before: bool, chunk: Chunk, now: Surroundings) returns (result: bool, order: seq<nat>)
      modifies this
      ensures streamingSessions == old(streamingSessions)
      ensures (View(), result) == TryStream(old(View()), before, chunk, now.(order := order))
      ensures order == now.order || Enumerates(order, old(View()).entries.Keys)
    {
      result, order := before, now.order;
      if state.Buffering? || state.Playing? {
        order := BeginPlayback(now);
        result := false;
        if samplingRate == chunk.samplingRate {
          result := Distribute(chunk, now.full);
        }
        if samplingRate != chunk.samplingRate || chunk.endOfStream {
          var _, _ := Process(DrainEvent, now.(order := order));
          result := false;
        }
      }
    }

    /** Starts playback if buffering is over. */
    method BeginPlayback(now: Surroundings) returns (order: seq<nat>)
      modifies this
      ensures streamingSessions == old(streamingSessions)
      ensures View() == MaybePlay(old(View()), now.(order := order))
      ensures order == now.order || Enumerates(order, old(View()).entries.Keys)
    {
      order := now.order;
      if state.Buffering? {
        var verdict;
        verdict, order := Process(PlayEvent, now);
      }
    }

    method Flush(before: bool, now: Surroundings) returns (result: bool)
      modifies this
      ensures streamingSessions == old(streamingSessions)
      ensures (View(), result) == TryFlush(old(View()), before, now)
    {
      result := before;
      if state.Draining? {
        var verdict, _ := Process(FlushedEvent, now);
        result := verdict.Done?;
      }
    }

    /** `order` is the order in which the sessions were visited, if playback began. */
    method Consume(chunk: Chunk, now: Surroundings) returns (result: bool, order: seq<nat>)
      modifies this
      ensures streamingSessions == old(streamingSessions)
      ensures (View(), result) == ConsumeChunk(old(View()), chunk, now.(order := order))
    {
      history := history.(offered := Some(chunk));
      ghost var st0 := View();
      result := Prepare(chunk, now);
      ghost var st1, r1 := View(), result;
      result := Buffer(result, now);
      ghost var st2, r2 := View(), result;
      result, order := Stream(result, chunk, now);
      OrderIsForPlaying(st0, st1, r1, chunk, now, order);
      result := Flush(result, now.(order := order));
      if result {
        history := history.(offered := None, fanned := 0);
      }
    }

    method Open(c: nat)
      requires c !in entries
      modifies this
      ensures streamingSessions == old(streamingSessions)
      ensures View() == OnOpen(old(View()), c)
    {
      nextID := nextID + 1;
      var session := CommandSession.OnStart(CommandSession.Created(Correlation.Decimal(nextID)));
      entries := entries[c := Entry(session, streamedChunks, streamedChunks, [], streamedChunks, [])];
    }

    /** Finds a session by its ID, in whatever order the sessions are visited. */
    method FindSessionByID(clientID: string) returns (found: Option<nat>)
      ensures found.None? ==> forall c <- entries :: entries[c].session.clientID != clientID
      ensures found.Some? ==> found.value in entries && entries[found.value].session.clientID == clientID
    {
      var order := Traverse(entries.Keys);
      for i := 0 to |order|
        invariant forall k :: 0 <= k < i ==> entries[order[k]].session.clientID != clientID
      {
        if entries[order[i]].session.clientID == clientID {
          return Some(order[i]);
        }
      }
      found := None;
      forall c <- entries ensures entries[c].session.clientID != clientID {
        assert c in order;
      }
    }

    /** Bytes on an HTTP connection: the first request attaches it to the session it
        names. An answer of none to that one stands for the source's exceptions; a
        connection that is attached already has nothing to find. */
    method OnHTTPData(connection: nat, request: string) returns (attached: Option<nat>)
      modifies this
      ensures match attached
              case None =>
                && View() == old(View()) && streamingSessions == old(streamingSessions)
                && (connection !in streamingSessions ==>
                      forall c <- entries :: Correlation.ParseClientID(request) != Some(entries[c].session.clientID))
              case Some(c) =>
                && connection !in old(streamingSessions) && c in old(entries)
                && Correlation.ParseClientID(request) == Some(old(entries)[c].session.clientID)
                && streamingSessions == old(streamingSessions)[connection := old(entries)[c].session.clientID]
                && View() == Next(old(View()), Player(c, CommandSession.Streaming(true)))
    {
      if connection in streamingSessions {
        return None;
      }
      var clientID := Correlation.ParseClientID(request);
      if clientID.None? {
        return None;
      }
      attached := FindSessionByID(clientID.value);
      if attached.Some? {
        SetStreamingSession(attached.value, true);
        streamingSessions := streamingSessions[connection := clientID.value];
      }
    }

    /** An HTTP connection closed: the session with its ID is detached from whatever HTTP
        session it has by now. The connection is forgotten only later, by `OnHTTPStopped`. */
    method OnHTTPClose(connection: nat) returns (detached: Option<nat>)
      modifies this
      ensures streamingSessions == old(streamingSessions)
      ensures match detached
              case None =>
                && View() == old(View())
                && (connection in streamingSessions ==>
                      forall c <- entries :: entries[c].session.clientID != streamingSessions[connection])
              case Some(c) =>
                && connection in streamingSessions && c in old(entries)
                && old(entries)[c].session.clientID == streamingSessions[connection]
                && View() == Next(old(View()), Player(c, CommandSession.Streaming(false)))
    {
      detached := None;
      if connection in streamingSessions {
        detached := FindSessionByID(streamingSessions[connection]);
        if detached.Some? {
          SetStreamingSession(detached.value, false);
        }
      }
    }

    /** The HTTP session of a closed connection finished: its encoder stopped, and the flush
        ended. */
    method OnHTTPStopped(connection: nat)
      modifies this`streamingSessions
      ensures streamingSessions == old(streamingSessions) - {connection}
    {
      streamingSessions := streamingSessions - {connection};
    }

    method SetStreamingSession(c: nat, attached: bool)
      requires c in entries
      modifies this`entries
      ensures View() == Next(old(View()), Player(c, CommandSession.Streaming(attached)))
    {
      var e := entries[c];
      entries := entries[c := e.(session := CommandSession.SetStreamingSession(e.session, attached),
                                 since := e.sequence, passed := [])];
    }

    method Close(c: nat)
      modifies this
      ensures streamingSessions == old(streamingSessions)
      ensures View() == OnClose(old(View()), c)
    {
      entries := entries - {c};
    }
  }

  /** The stages before playback do not look at the order of the sessions. */
  lemma OrderIsForPlaying(st0: Streamer, st1: Streamer, r1: bool, chunk: Chunk, now: Surroundings, order: seq<nat>)
    ensures TryPrepare(st0, chunk, now.(order := order)) == TryPrepare(st0, chunk, now)
    ensures TryBuffer(st1, r1, now.(order := order)) == TryBuffer(st1, r1, now)
  {
  }
}
