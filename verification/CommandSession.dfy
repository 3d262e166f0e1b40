/** The server's side of the control connection to one player. */
module CommandSession {
  import opened Common
  import opened StateMachine

  datatype Event =
    | StartEvent | HandshakeEvent | PrepareEvent | BufferEvent | PlayEvent | DrainEvent | FlushedEvent | StopEvent

  datatype Action = Nothing | ToPreparing | ToPlaying | ToStopped

  datatype Guard = Always | ReadyToPrepare | ReadyToBuffer | ReadyToPlay

  /** Commands to the player. An Unpause names the player's clock. */
  datatype Command = Setup | Stop | Start(samplingRate: nat, clientID: string) | Unpause(at: int)

  /** What matters of a session's history: what was sent, and what the player did. */
  datatype Mark = Sent(command: Command) | BufferLoaded | Attached | Detached

  /** Durations are in microseconds. `closes` counts the times an error handler closed
      the connection; `trace` is the history, latest first. */
  datatype Session = Session(
    clientID: string,
    state: State,
    samplingRate: nat,
    attached: bool,
    clientBufferIsReady: bool,
    greeted: bool,
    timeOffset: Option<int>,
    latency: Option<int>,
    closes: nat,
    trace: List<Mark>)

  function Created(clientID: string): Session {
    Session(clientID, Stopped, 0, false, false, false, None, None, 0, Nil)
  }

  // ---------- Transition table ----------

  const START_ROWS: seq<Row<Event, Action, Guard>> := [
    Row(StartEvent, Started, Started, Nothing, Always),
    Row(StartEvent, Preparing, Preparing, Nothing, Always),
    Row(StartEvent, Buffering, Buffering, Nothing, Always),
    Row(StartEvent, Playing, Playing, Nothing, Always),
    Row(StartEvent, Draining, Draining, Nothing, Always),
    Row(StartEvent, Stopped, Started, Nothing, Always)]

  const HANDSHAKE_ROWS: seq<Row<Event, Action, Guard>> := [
    Row(HandshakeEvent, Started, Draining, Nothing, Always)]

  const PREPARE_ROWS: seq<Row<Event, Action, Guard>> := [
    Row(PrepareEvent, Started, Preparing, ToPreparing, ReadyToPrepare),
    Row(PrepareEvent, Preparing, Preparing, Nothing, Always),
    Row(PrepareEvent, Buffering, Buffering, Nothing, Always),
    Row(PrepareEvent, Playing, Playing, Nothing, Always)]

  const BUFFER_ROWS: seq<Row<Event, Action, Guard>> := [
    Row(BufferEvent, Preparing, Buffering, Nothing, ReadyToBuffer),
    Row(BufferEvent, Buffering, Buffering, Nothing, Always),
    Row(BufferEvent, Playing, Playing, Nothing, Always)]

  const PLAY_ROWS: seq<Row<Event, Action, Guard>> := [
    Row(PlayEvent, Buffering, Playing, ToPlaying, ReadyToPlay),
    Row(PlayEvent, Playing, Playing, Nothing, Always)]

  const DRAIN_ROWS: seq<Row<Event, Action, Guard>> := [
    Row(DrainEvent, Preparing, Draining, Nothing, Always),
    Row(DrainEvent, Buffering, Draining, Nothing, Always),
    Row(DrainEvent, Playing, Draining, Nothing, Always),
    Row(DrainEvent, Draining, Draining, Nothing, Always),
    Row(DrainEvent, Started, Started, Nothing, Always)]

  const FLUSHED_ROWS: seq<Row<Event, Action, Guard>> := [
    Row(FlushedEvent, Started, Started, Nothing, Always),
    Row(FlushedEvent, Preparing, Preparing, Nothing, Always),
    Row(FlushedEvent, Playing, Playing, Nothing, Always),
    Row(FlushedEvent, Draining, Started, Nothing, Always)]

  const STOP_ROWS: seq<Row<Event, Action, Guard>> := [
    Row(StopEvent, Stopped, Stopped, Nothing, Always),
    Row(StopEvent, Started, Stopped, ToStopped, Always),
    Row(StopEvent, Preparing, Stopped, ToStopped, Always),
    Row(StopEvent, Buffering, Stopped, ToStopped, Always),
    Row(StopEvent, Playing, Stopped, ToStopped, Always),
    Row(StopEvent, Draining, Stopped, ToStopped, Always)]

  const EVENTS: seq<Event> :=
    [StartEvent, HandshakeEvent, PrepareEvent, BufferEvent, PlayEvent, DrainEvent, FlushedEvent, StopEvent]

  const TRANSITIONS: seq<Row<Event, Action, Guard>> :=
    Flatten(seq(|EVENTS|, i requires 0 <= i < |EVENTS| => RowsOf(EVENTS[i])))

  /** What the table means. */
  function Transition(event: Event, state: State): Option<Step<Action, Guard>> {
    match event
    case StartEvent => Some(Step(if state.Stopped? then Started else state, Nothing, Always))
    case HandshakeEvent => if state.Started? then Some(Step(Draining, Nothing, Always)) else None
    case PrepareEvent =>
      if state.Started? then Some(Step(Preparing, ToPreparing, ReadyToPrepare))
      else if state.Draining? || state.Stopped? then None
      else Some(Step(state, Nothing, Always))
    case BufferEvent =>
      if state.Preparing? then Some(Step(Buffering, Nothing, ReadyToBuffer))
      else if state.Buffering? || state.Playing? then Some(Step(state, Nothing, Always))
      else None
    case PlayEvent =>
      if state.Buffering? then Some(Step(Playing, ToPlaying, ReadyToPlay))
      else if state.Playing? then Some(Step(Playing, Nothing, Always))
      else None
    case DrainEvent =>
      if state.Stopped? then None
      else Some(Step(if state.Started? then Started else Draining, Nothing, Always))
    case FlushedEvent =>
      if state.Draining? then Some(Step(Started, Nothing, Always))
      else if state.Buffering? || state.Stopped? then None
      else Some(Step(state, Nothing, Always))
    case StopEvent => Some(Step(Stopped, if state.Stopped? then Nothing else ToStopped, Always))
  }

  function RowsOf(event: Event): seq<Row<Event, Action, Guard>> {
    match event
    case StartEvent => START_ROWS
    case HandshakeEvent => HANDSHAKE_ROWS
    case PrepareEvent => PREPARE_ROWS
    case BufferEvent => BUFFER_ROWS
    case PlayEvent => PLAY_ROWS
    case DrainEvent => DRAIN_ROWS
    case FlushedEvent => FLUSHED_ROWS
    case StopEvent => STOP_ROWS
  }

  lemma OtherRows(group: Event, event: Event, state: State)
    requires group != event
    ensures Find(RowsOf(group), event, state) == None
  {
    FindsNothing(RowsOf(group), event, state);
  }

  /** The position of the row for an event and a state in its group, if there is one. */
  function RowIndex(event: Event, state: State): Option<nat> {
    match event
    case StartEvent =>
      Some(match state case Started => 0 case Preparing => 1 case Buffering => 2 case Playing => 3
        case Draining => 4 case Stopped => 5)
    case HandshakeEvent => if state.Started? then Some(0) else None
    case PrepareEvent =>
      (match state case Started => Some(0) case Preparing => Some(1) case Buffering => Some(2)
        case Playing => Some(3) case _ => None)
    case BufferEvent =>
      (match state case Preparing => Some(0) case Buffering => Some(1) case Playing => Some(2)
        case _ => None)
    case PlayEvent => (match state case Buffering => Some(0) case Playing => Some(1) case _ => None)
    case DrainEvent =>
      (match state case Preparing => Some(0) case Buffering => Some(1) case Playing => Some(2)
        case Draining => Some(3) case Started => Some(4) case _ => None)
    case FlushedEvent =>
      (match state case Started => Some(0) case Preparing => Some(1) case Playing => Some(2)
        case Draining => Some(3) case _ => None)
    case StopEvent =>
      Some(match state case Stopped => 0 case Started => 1 case Preparing => 2 case Buffering => 3
        case Playing => 4 case Draining => 5)
  }

  lemma RowsMeanTransition(event: Event, state: State)
    ensures Find(RowsOf(event), event, state) == Transition(event, state)
  {
    var rows := RowsOf(event);
    match RowIndex(event, state) {
      case None => FindsNothing(rows, event, state);
      case Some(k) =>
        assert k < |rows| && rows[k].event == event && rows[k].from == state;
        FindsFirst(rows, k);
    }
  }

  /** The first row of the table for an event and a state says what `Transition` says. */
  lemma TableMeansTransition(event: Event, state: State)
    ensures Find(TRANSITIONS, event, state) == Transition(event, state)
  {
    var groups := seq(|EVENTS|, i requires 0 <= i < |EVENTS| => RowsOf(EVENTS[i]));
    var k := match event
      case StartEvent => 0 case HandshakeEvent => 1 case PrepareEvent => 2 case BufferEvent => 3
      case PlayEvent => 4 case DrainEvent => 5 case FlushedEvent => 6 case StopEvent => 7;
    forall j | 0 <= j < |groups| && j != k ensures Find(groups[j], event, state) == None {
      OtherRows(EVENTS[j], event, state);
    }
    FindInGroup(groups, k, event, state);
    RowsMeanTransition(event, state);
  }

  // ---------- Events and guards ----------

  predicate Allows(guard: Guard, s: Session) {
    match guard
    case Always => true
    case ReadyToPrepare => s.samplingRate != 0
    case ReadyToBuffer => s.samplingRate != 0 && s.attached
    case ReadyToPlay => s.samplingRate != 0 && s.attached && s.timeOffset.Some? && s.clientBufferIsReady
  }

  function Send(s: Session, command: Command): Session {
    s.(trace := Cons(Sent(command), s.trace))
  }

  /** `start` is the streamer's playback start time, in nanoseconds. */
  function Perform(action: Action, s: Session, start: int): Session {
    match action
    case Nothing => s
    case ToPreparing => Send(s.(clientBufferIsReady := false, attached := false), Start(s.samplingRate, s.clientID))
    case ToPlaying => Send(s, Unpause(start - 1000 * s.timeOffset.UnwrapOr(0)))
    case ToStopped => s.(samplingRate := 0)
  }

  /** The guard is asked first, the action runs before the state changes, and a guard
      that fails is silent. */
  function ProcessEvent(s: Session, event: Event, start: int): (Session, Verdict) {
    match Transition(event, s.state)
    case None => (s, Missing)
    case Some(step) =>
      if Allows(step.guard, s) then (Perform(step.action, s, start).(state := step.to), Done)
      else (s, Refused)
  }

  /** An event whose error handler closes the connection. */
  function ProcessOrClose(s: Session, event: Event, start: int): Session {
    var (s', verdict) := ProcessEvent(s, event, start);
    if verdict.Missing? then s'.(closes := s'.closes + 1) else s'
  }

  function Prepare(s: Session, samplingRate: nat): Session {
    var (s', verdict) := ProcessEvent(s.(samplingRate := samplingRate), PrepareEvent, 0);
    if verdict.Done? then s' else s'.(samplingRate := s.samplingRate)
  }

  /** A chunk offered by the streamer: what the streamer is doing, and whether the
      HTTP session, if one is attached, has room for it. */
  datatype Offer = Offer(endOfStream: bool, samplingRate: nat, playing: bool, start: int, room: bool)

  /** Getting ready: a session created while streaming is prepared, and a prepared one
      starts buffering once its HTTP session is there. */
  function Readied(s: Session, o: Offer): Session {
    var s1 := if s.state.Started? then Prepare(s, o.samplingRate) else s;
    if s1.state.Preparing? then ProcessOrClose(s1, BufferEvent, o.start) else s1
  }

  /** Joining the playback that is under way. */
  function Joined(s: Session, o: Offer): Session {
    if s.state.Buffering? && o.playing then ProcessOrClose(s, PlayEvent, o.start) else s
  }

  function Drained(s: Session, o: Offer): Session {
    if o.endOfStream then ProcessOrClose(s, DrainEvent, o.start) else s
  }

  /** Only a session that buffers or plays passes the chunk on, and only its HTTP session
      can refuse it. */
  function ConsumeChunk(s: Session, o: Offer): (Session, bool) {
    var s1 := Readied(s, o);
    if s1.state.Buffering? || s1.state.Playing? then
      var s2 := Joined(s1, o);
      if s2.attached ==> o.room then (Drained(s2, o), true) else (s2, false)
    else
      (s1, true)
  }

  function OnHELO(s: Session): Session {
    if s.greeted then s
    else ProcessOrClose(Send(Send(s.(greeted := true), Setup), Stop), HandshakeEvent, 0)
  }

  function OnSTMf(s: Session): Session {
    ProcessEvent(s, FlushedEvent, 0).0
  }

  function OnSTMl(s: Session): Session {
    s.(clientBufferIsReady := true, trace := Cons(BufferLoaded, s.trace))
  }

  function OnSTMu(s: Session): Session {
    if s.state.Draining? then Send(s, Stop) else s
  }

  function SetStreamingSession(s: Session, attached: bool): Session {
    s.(attached := attached, trace := Cons(if attached then Attached else Detached, s.trace))
  }

  function OnStart(s: Session): Session {
    ProcessOrClose(s, StartEvent, 0)
  }

  function OnStop(s: Session): Session {
    if s.state.Stopped? then s
    else ProcessEvent(if s.state.Started? then s else Send(s, Stop), StopEvent, 0).0
  }

  // ---------- Inputs ----------

  datatype Input =
    | Begin
    | Prepared(samplingRate: nat)
    | Offered(offer: Offer)
    | Hello
    | Flushed
    | Loaded
    | Underrun
    | Streaming(attached: bool)
    | Measured(latency: nat, timeOffset: int)
    | Halt

  function Next(s: Session, i: Input): Session {
    match i
    case Begin => OnStart(s)
    case Prepared(rate) => Prepare(s, rate)
    case Offered(offer) => ConsumeChunk(s, offer).0
    case Hello => OnHELO(s)
    case Flushed => OnSTMf(s)
    case Loaded => OnSTMl(s)
    case Underrun => OnSTMu(s)
    case Streaming(attached) => SetStreamingSession(s, attached)
    case Measured(latency, offset) => s.(latency := Some(latency), timeOffset := Some(offset))
    case Halt => OnStop(s)
  }

  function Run(s: Session, inputs: seq<Input>): Session {
    if inputs == [] then s else Next(Run(s, inputs[..|inputs| - 1]), inputs[|inputs| - 1])
  }

  // ---------- Command discipline ----------

  /** What a history allows next: nothing was started, a start waits for its Unpause
      with what happened since, or a rule was broken. */
  datatype Phase = Idle | Begun(loaded: bool, attached: bool) | Broken

  function Advance(p: Phase, m: Mark): Phase {
    match m
    case Sent(Start(rate, _)) => if p.Broken? || rate == 0 then Broken else Begun(false, false)
    case Sent(Unpause(_)) => if p == Begun(true, true) then Idle else Broken
    case Sent(_) => p
    case BufferLoaded => if p.Begun? then p.(loaded := true) else p
    case Attached => if p.Begun? then p.(attached := true) else p
    case Detached => if p.Begun? then p.(attached := false) else p
  }

  function PhaseOf(trace: List<Mark>): Phase {
    match trace
    case Nil => Idle
    case Cons(m, earlier) => Advance(PhaseOf(earlier), m)
  }

  /** A history in the order in which it happened. */
  function History(trace: List<Mark>): seq<Mark> {
    match trace
    case Nil => []
    case Cons(m, earlier) => History(earlier) + [m]
  }

  predicate IsStart(m: Mark) {
    m.Sent? && m.command.Start?
  }

  predicate IsUnpause(m: Mark) {
    m.Sent? && m.command.Unpause?
  }

  /** `from` is the last Start before `to`, and no Unpause came in between. */
  ghost predicate Opens(trace: seq<Mark>, from: nat, to: nat) {
    && from < to <= |trace| && IsStart(trace[from])
    && (forall k :: from < k < to ==> !IsStart(trace[k]) && !IsUnpause(trace[k]))
  }

  /** A history that breaks no rule: commands match (Start Unpause?)*, every Start
      carries a rate, and between a Start and its Unpause the player reported its buffer
      loaded and an HTTP session was attached that stayed attached. */
  ghost predicate Disciplined(trace: seq<Mark>) {
    && (forall k :: 0 <= k < |trace| && IsStart(trace[k]) ==> trace[k].command.samplingRate != 0)
    && (forall k :: 0 <= k < |trace| && IsUnpause(trace[k]) ==> Justified(trace, k))
  }

  ghost predicate Justified(trace: seq<Mark>, k: nat) {
    exists from: nat, loaded: nat, attached: nat ::
      Opens(trace, from, k) && LoadedAt(trace, from, loaded, k) && AttachedFrom(trace, from, attached, k)
  }

  ghost predicate LoadedAt(trace: seq<Mark>, from: nat, loaded: nat, to: nat) {
    from < loaded < to <= |trace| && trace[loaded] == BufferLoaded
  }

  ghost predicate AttachedFrom(trace: seq<Mark>, from: nat, attached: nat, to: nat) {
    && from < attached < to <= |trace| && trace[attached] == Attached
    && (forall k :: attached < k < to ==> trace[k] != Detached)
  }

  /** What a phase remembers of the history. */
  lemma {:induction false} PhaseRemembers(trace: List<Mark>) returns (from: nat, loaded: nat, attached: nat)
    requires PhaseOf(trace).Begun?
    ensures Opens(History(trace), from, |History(trace)|)
    ensures PhaseOf(trace).loaded ==> LoadedAt(History(trace), from, loaded, |History(trace)|)
    ensures PhaseOf(trace).attached ==> AttachedFrom(History(trace), from, attached, |History(trace)|)
  {
    var n := |History(trace.tail)|;
    from, loaded, attached := n, n, n;
    if !IsStart(trace.head) {
      from, loaded, attached := PhaseRemembers(trace.tail);
      if trace.head == BufferLoaded {
        loaded := n;
      }
      if trace.head == Attached {
        attached := n;
      }
    }
  }

  /** Breaking no rule, said over positions. */
  lemma {:induction false} UnbrokenIsDisciplined(trace: List<Mark>)
    requires !PhaseOf(trace).Broken?
    ensures Disciplined(History(trace))
  {
    if trace.Cons? {
      var before, now := History(trace.tail), History(trace);
      UnbrokenIsDisciplined(trace.tail);
      forall k | 0 <= k < |now| && IsUnpause(now[k]) ensures Justified(now, k) {
        if k < |before| {
          assert IsUnpause(before[k]);
          JustifiedLater(before, k, now);
        } else {
          var from, loaded, attached := PhaseRemembers(trace.tail);
          assert Opens(now, from, k) && LoadedAt(now, from, loaded, k) && AttachedFrom(now, from, attached, k);
        }
      }
      forall k | 0 <= k < |now| && IsStart(now[k]) ensures now[k].command.samplingRate != 0 {
        if k < |before| {
          assert IsStart(before[k]);
        }
      }
    }
  }

  lemma JustifiedLater(before: seq<Mark>, k: nat, trace: seq<Mark>)
    requires k < |before| <= |trace| && before == trace[..|before|] && Justified(before, k)
    ensures Justified(trace, k)
  {
    var from: nat, loaded: nat, attached: nat :|
      Opens(before, from, k) && LoadedAt(before, from, loaded, k) && AttachedFrom(before, from, attached, k);
    assert Opens(trace, from, k) && LoadedAt(trace, from, loaded, k) && AttachedFrom(trace, from, attached, k);
  }

  // ---------- Every run ----------

  /** Every Start carries the session's own client ID. */
  predicate StartsName(trace: List<Mark>, clientID: string) {
    match trace
    case Nil => true
    case Cons(m, earlier) => (IsStart(m) ==> m.command.clientID == clientID) && StartsName(earlier, clientID)
  }

  /** The session knows exactly what its history since the last Start amounts to. */
  ghost predicate Inv(s: Session) {
    && !PhaseOf(s.trace).Broken?
    && (s.state.Preparing? || s.state.Buffering? ==> PhaseOf(s.trace) == Begun(s.clientBufferIsReady, s.attached))
    && (s.latency.Some? ==> s.latency.value >= 0)
    && StartsName(s.trace, s.clientID)
  }

  lemma EventKeepsInv(s: Session, event: Event, start: int)
    requires Inv(s)
    ensures Inv(ProcessEvent(s, event, start).0) && ProcessEvent(s, event, start).0.clientID == s.clientID
  {
  }

  lemma PrepareKeepsInv(s: Session, samplingRate: nat)
    requires Inv(s)
    ensures Inv(Prepare(s, samplingRate)) && Prepare(s, samplingRate).clientID == s.clientID
  {
    EventKeepsInv(s.(samplingRate := samplingRate), PrepareEvent, 0);
  }

  lemma ReadiedKeepsInv(s: Session, o: Offer)
    requires Inv(s)
    ensures Inv(Readied(s, o)) && Readied(s, o).clientID == s.clientID
  {
    PrepareKeepsInv(s, o.samplingRate);
    EventKeepsInv(if s.state.Started? then Prepare(s, o.samplingRate) else s, BufferEvent, o.start);
  }

  lemma ConsumeKeepsInv(s: Session, o: Offer)
    requires Inv(s)
    ensures Inv(ConsumeChunk(s, o).0) && ConsumeChunk(s, o).0.clientID == s.clientID
  {
    ReadiedKeepsInv(s, o);
    JoinedKeepsInv(Readied(s, o), o);
    EventKeepsInv(Joined(Readied(s, o), o), DrainEvent, o.start);
  }

  lemma JoinedKeepsInv(s: Session, o: Offer)
    requires Inv(s)
    ensures Inv(Joined(s, o)) && Joined(s, o).clientID == s.clientID
  {
    EventKeepsInv(s, PlayEvent, o.start);
  }

  lemma HelloKeepsInv(s: Session)
    requires Inv(s)
    ensures Inv(OnHELO(s)) && OnHELO(s).clientID == s.clientID
  {
    EventKeepsInv(Send(Send(s.(greeted := true), Setup), Stop), HandshakeEvent, 0);
  }

  lemma StopKeepsInv(s: Session)
    requires Inv(s)
    ensures Inv(OnStop(s)) && OnStop(s).clientID == s.clientID
  {
    EventKeepsInv(if s.state.Started? then s else Send(s, Stop), StopEvent, 0);
  }

  lemma PlayerKeepsInv(s: Session, attached: bool)
    requires Inv(s)
    ensures Inv(OnSTMl(s)) && Inv(OnSTMu(s)) && Inv(SetStreamingSession(s, attached))
  {
  }

  lemma NextKeepsInv(s: Session, i: Input)
    requires Inv(s)
    ensures Inv(Next(s, i)) && Next(s, i).clientID == s.clientID
  {
    match i {
      case Begin => EventKeepsInv(s, StartEvent, 0);
      case Prepared(rate) => PrepareKeepsInv(s, rate);
      case Offered(offer) => ConsumeKeepsInv(s, offer);
      case Hello => HelloKeepsInv(s);
      case Flushed => EventKeepsInv(s, FlushedEvent, 0);
      case Streaming(attached) => PlayerKeepsInv(s, attached);
      case Measured(_, _) =>
      case Halt => StopKeepsInv(s);
      case _ => PlayerKeepsInv(s, false);
    }
  }

  lemma {:induction false} RunKeepsInv(clientID: string, inputs: seq<Input>)
    ensures Inv(Run(Created(clientID), inputs))
  {
    if inputs != [] {
      RunKeepsInv(clientID, inputs[..|inputs| - 1]);
      NextKeepsInv(Run(Created(clientID), inputs[..|inputs| - 1]), inputs[|inputs| - 1]);
    }
  }

  /** Whatever the player, the streamer and the HTTP sessions do and in whatever order,
      the commands sent keep the discipline. */
  lemma {:induction false} CommandsAreDisciplined(clientID: string, inputs: seq<Input>)
    ensures Disciplined(History(Run(Created(clientID), inputs).trace))
  {
    RunKeepsInv(clientID, inputs);
    UnbrokenIsDisciplined(Run(Created(clientID), inputs).trace);
  }

  /** The session hands chunks to an HTTP session, or will as soon as it is offered one. */
  predicate PassesOn(s: Session) {
    && s.attached
    && (s.state.Buffering? || s.state.Playing? || (s.state.Preparing? && s.samplingRate != 0))
  }

  /** Whether an offer gets as far as asking the HTTP session. */
  predicate AsksHTTP(s: Session, o: Offer) {
    var s1 := Readied(s, o);
    (s1.state.Buffering? || s1.state.Playing?) && Joined(s1, o).attached
  }

  /** A chunk is refused exactly when the session passes chunks on and its HTTP session has
      no room; and a session that took the end of a stream streams no more. */
  lemma RefusedExactlyWhenFull(s: Session, o: Offer)
    ensures var (s', result) := ConsumeChunk(s, o);
            var streams := s'.state.Buffering? || s'.state.Playing?;
            && (!result <==> PassesOn(s) && !o.room)
            && (!result <==> streams && s'.attached && !o.room)
            && (result && o.endOfStream ==> !streams)
            && (result && streams ==> !o.endOfStream)
    ensures AsksHTTP(s, o) <==> PassesOn(s)
  {
    ReadiedPassesOn(s, o);
    JoinedStreams(Readied(s, o), o);
    EventDrains(Joined(Readied(s, o), o), o.start);
  }

  lemma ReadiedPassesOn(s: Session, o: Offer)
    ensures var s1 := Readied(s, o);
            PassesOn(s) <==> s1.attached && (s1.state.Buffering? || s1.state.Playing?)
  {
    if s.state.Started? {
      PrepareSends(s, o.samplingRate);
    }
  }

  lemma JoinedStreams(s: Session, o: Offer)
    ensures Joined(s, o).attached == s.attached
    ensures s.state.Buffering? || s.state.Playing? ==> Joined(s, o).state.Buffering? || Joined(s, o).state.Playing?
  {
  }

  lemma EventDrains(s: Session, start: int)
    ensures !ProcessOrClose(s, DrainEvent, start).state.Buffering?
    ensures !ProcessOrClose(s, DrainEvent, start).state.Playing?
  {
  }

  /** A session begins to pass chunks on only when an HTTP session is attached, and stops
      only when that is detached, an end of stream is taken, or the session is halted or
      prepared for no rate. */
  lemma PassingOnChanges(s: Session, i: Input)
    ensures !PassesOn(s) && PassesOn(Next(s, i)) ==> i == Streaming(true) || i.Prepared?
    ensures PassesOn(s) && !PassesOn(Next(s, i)) ==>
              || i == Streaming(false) || i.Halt? || i == Prepared(0)
              || (i.Offered? && i.offer.endOfStream && i.offer.room)
  {
    match i {
      case Offered(o) => OfferKeepsPassingOn(s, o);
      case Begin => EventKeepsPassingOn(s, StartEvent);
      case Hello => EventKeepsPassingOn(Send(Send(s.(greeted := true), Setup), Stop), HandshakeEvent);
      case Flushed => EventKeepsPassingOn(s, FlushedEvent);
      case _ =>
    }
  }

  lemma EventKeepsPassingOn(s: Session, event: Event)
    requires event.StartEvent? || event.HandshakeEvent? || event.FlushedEvent?
    ensures PassesOn(ProcessEvent(s, event, 0).0) == PassesOn(s)
  {
  }

  lemma OfferKeepsPassingOn(s: Session, o: Offer)
    ensures PassesOn(ConsumeChunk(s, o).0) == (PassesOn(s) && !(o.endOfStream && o.room))
  {
    ReadiedPassesOn(s, o);
    JoinedStreams(Readied(s, o), o);
    EventDrains(Joined(Readied(s, o), o), o.start);
    if PassesOn(Readied(s, o)) {
      ReadiedPassesOn(Readied(s, o), o);
    }
  }

  /** An error handler is called exactly where the table has no row. */
  lemma ClosesIffNoRow(s: Session, event: Event, start: int)
    ensures ProcessOrClose(s, event, start).closes
         == if Transition(event, s.state).None? then s.closes + 1 else s.closes
  {
  }

  /** The error handlers inside `consumeChunk` are never called, in any state. */
  lemma ConsumeNeverCloses(s: Session, o: Offer)
    ensures ConsumeChunk(s, o).0.closes == s.closes
  {
    var s1 := if s.state.Started? then Prepare(s, o.samplingRate) else s;
    ClosesIffNoRow(s1, BufferEvent, o.start);
    assert Readied(s, o).closes == s.closes;
    ClosesIffNoRow(Readied(s, o), PlayEvent, o.start);
    ClosesIffNoRow(Joined(Readied(s, o), o), DrainEvent, o.start);
  }

  lemma EventSends(s: Session, event: Event, start: int)
    ensures var s' := ProcessOrClose(s, event, start);
            && s'.timeOffset == s.timeOffset && s'.latency == s.latency
            && s'.trace == (if event.PrepareEvent? && s.state.Started? && s.samplingRate != 0 then
                              Cons(Sent(Start(s.samplingRate, s.clientID)), s.trace)
                            else if event.PlayEvent? && s.state.Buffering? && Allows(ReadyToPlay, s) then
                              Cons(Sent(Unpause(start - 1000 * s.timeOffset.UnwrapOr(0))), s.trace)
                            else s.trace)
  {
  }

  lemma ReadiedSends(s: Session, o: Offer)
    ensures var s' := Readied(s, o);
            && s'.timeOffset == s.timeOffset && s'.latency == s.latency
            && (s'.trace == s.trace
                || (s'.state.Preparing? && s'.trace == Cons(Sent(Start(o.samplingRate, s.clientID)), s.trace)))
  {
    if s.state.Started? {
      PrepareSends(s, o.samplingRate);
      EventSends(Prepare(s, o.samplingRate), BufferEvent, o.start);
    } else {
      EventSends(s, BufferEvent, o.start);
    }
  }

  lemma PrepareSends(s: Session, samplingRate: nat)
    requires s.state.Started?
    ensures var s' := Prepare(s, samplingRate);
            && s'.timeOffset == s.timeOffset && s'.latency == s.latency
            && if samplingRate == 0 then s' == s
               else
                 && s'.state.Preparing? && !s'.attached
                 && s'.trace == Cons(Sent(Start(samplingRate, s.clientID)), s.trace)
  {
  }

  /** Offering a chunk sends at most one command, and an Unpause only while the streamer
      plays: it names the streamer's start time less the session's own time offset. */
  lemma ConsumeSends(s: Session, o: Offer)
    ensures var s' := ConsumeChunk(s, o).0;
            && s'.timeOffset == s.timeOffset && s'.latency == s.latency
            && (s'.trace == s.trace
                || s'.trace == Cons(Sent(Start(o.samplingRate, s.clientID)), s.trace)
                || (o.playing && s'.trace == Cons(Sent(Unpause(o.start - 1000 * s.timeOffset.UnwrapOr(0))), s.trace)))
  {
    ReadiedSends(s, o);
    JoinedSends(Readied(s, o), o);
    EventSends(Joined(Readied(s, o), o), DrainEvent, o.start);
  }

  lemma JoinedSends(s: Session, o: Offer)
    ensures var s' := Joined(s, o);
            && s'.timeOffset == s.timeOffset && s'.latency == s.latency
            && (s'.trace == s.trace
                || (s.state.Buffering? && o.playing
                    && s'.trace == Cons(Sent(Unpause(o.start - 1000 * s.timeOffset.UnwrapOr(0))), s.trace)))
  {
    EventSends(s, PlayEvent, o.start);
  }

  /** Marks were added, and every Unpause among them was due and names this time. */
  predicate Adds(before: List<Mark>, after: List<Mark>, due: bool, at: int)
    decreases after
  {
    || after == before
    || (&& after.Cons? && (IsUnpause(after.head) ==> due && after.head.command.at == at)
        && Adds(before, after.tail, due, at))
  }

  lemma {:induction false} AddsAfter(m: Mark, before: List<Mark>, after: List<Mark>, due: bool, at: int)
    requires !IsUnpause(m) && Adds(Cons(m, before), after, due, at)
    ensures Adds(before, after, due, at)
    decreases after
  {
    if after != Cons(m, before) {
      AddsAfter(m, before, after.tail, due, at);
    }
  }

  /** What adding means over positions. */
  lemma {:induction false} AddsToHistory(before: List<Mark>, after: List<Mark>, due: bool, at: int)
    requires Adds(before, after, due, at)
    ensures var earlier, now := History(before), History(after);
            && earlier <= now
            && forall k :: |earlier| <= k < |now| && IsUnpause(now[k]) ==> due && now[k].command.at == at
    decreases after
  {
    if after != before {
      AddsToHistory(before, after.tail, due, at);
    }
  }

  lemma PrepareAdds(s: Session, samplingRate: nat)
    ensures var s' := Prepare(s, samplingRate);
            && s'.timeOffset == s.timeOffset
            && (s'.trace == s.trace || s'.trace == Cons(Sent(Start(samplingRate, s.clientID)), s.trace))
  {
  }

  /** Only an offer can send an Unpause. */
  lemma OnlyOffersUnpause(s: Session, i: Input, due: bool, at: int)
    requires !i.Offered?
    ensures Adds(s.trace, Next(s, i).trace, due, at)
  {
    match i {
      case Begin => EventSends(s, StartEvent, 0);
      case Prepared(rate) => PrepareAdds(s, rate);
      case Hello => EventSends(Send(Send(s.(greeted := true), Setup), Stop), HandshakeEvent, 0);
      case Flushed => EventSends(s, FlushedEvent, 0);
      case Halt => HaltAdds(s, due, at);
      case _ =>
    }
  }

  lemma HaltAdds(s: Session, due: bool, at: int)
    ensures Adds(s.trace, OnStop(s).trace, due, at)
  {
    EventSends(if s.state.Started? then s else Send(s, Stop), StopEvent, 0);
  }

  // ---------- What each input is for ----------

  /** A player that reports an empty buffer after a stop ends the session's draining. */
  lemma FlushedEndsDraining(s: Session)
    ensures Next(s, Flushed).state == if s.state.Draining? then Started else s.state
    ensures Next(s, Flushed).trace == s.trace && Next(s, Flushed).attached == s.attached
  {
  }

  /** Draining begins with the first HELO of a started session, with an end of stream, and
      never otherwise; it ends when the player flushed or the session is halted. */
  lemma DrainingChanges(s: Session, i: Input)
    ensures !s.state.Draining? && Next(s, i).state.Draining? ==>
              || (i.Hello? && s.state.Started? && !s.greeted)
              || (i.Offered? && i.offer.endOfStream && (s.state.Preparing? || s.state.Buffering? || s.state.Playing?))
    ensures s.state.Draining? && !Next(s, i).state.Draining? ==> i.Flushed? || i.Halt?
    ensures s.state.Draining? && (i.Flushed? || i.Halt?) ==> !Next(s, i).state.Draining?
  {
    if i.Offered? {
      OfferDrains(s, i.offer);
    }
  }

  /** A session drains after an offer exactly if it drained before, or it streams and took an
      end of stream. */
  lemma OfferDrains(s: Session, o: Offer)
    ensures ConsumeChunk(s, o).0.state.Draining?
       <==> || s.state.Draining?
            || (&& o.endOfStream && (s.attached ==> o.room)
                && (s.state.Buffering? || s.state.Playing?
                    || (s.state.Preparing? && s.attached && s.samplingRate != 0)))
  {
    ReadiedStreams(s, o);
    JoinedStreams(Readied(s, o), o);
    if Readied(s, o).state.Buffering? || Readied(s, o).state.Playing? {
      EndDrains(Joined(Readied(s, o), o), o.start);
    }
  }

  lemma ReadiedStreams(s: Session, o: Offer)
    ensures var s1 := Readied(s, o);
            && (s1.state.Draining? <==> s.state.Draining?)
            && (s1.state.Buffering? || s1.state.Playing?
                <==> s.state.Buffering? || s.state.Playing?
                     || (s.state.Preparing? && s.attached && s.samplingRate != 0))
            && (s1.state.Buffering? || s1.state.Playing? ==> s1.attached == s.attached)
  {
    if s.state.Started? {
      PrepareSends(s, o.samplingRate);
    }
  }

  lemma EndDrains(s: Session, start: int)
    requires s.state.Buffering? || s.state.Playing?
    ensures ProcessOrClose(s, DrainEvent, start).state.Draining?
  {
  }

  /** A halted session is stopped, has no rate, and told its player so if it was streaming or
      draining. */
  lemma HaltStops(s: Session)
    ensures var s' := Next(s, Halt);
            && s'.state.Stopped? && (s.state.Stopped? || s'.samplingRate == 0)
            && s'.trace == if s.state.Stopped? || s.state.Started? then s.trace else Cons(Sent(Stop), s.trace)
  {
  }

  /** A started session that is offered a chunk of a stream is told to start it at once, and
      takes the chunk without passing it on. */
  lemma NewcomerIsStarted(s: Session, o: Offer)
    requires s.state.Started? && o.samplingRate != 0
    ensures var (s', result) := ConsumeChunk(s, o);
            && result && s'.state.Preparing? && s'.samplingRate == o.samplingRate && !s'.attached
            && s'.trace == Cons(Sent(Start(o.samplingRate, s.clientID)), s.trace)
  {
    PrepareSends(s, o.samplingRate);
  }

  /** A player that connects is set up and stopped, and waits once it flushed. */
  lemma ConnectingPlayerIsStopped(clientID: string)
    ensures var s := Next(Next(Next(Created(clientID), Begin), Hello), Flushed);
            && s.state.Started? && s.greeted && s.closes == 0
            && s.trace == Cons(Sent(Stop), Cons(Sent(Setup), Nil))
  {
    var started := Created(clientID).(state := Started);
    var trace := Cons(Sent(Stop), Cons(Sent(Setup), Nil));
    assert Next(Created(clientID), Begin) == started;
    assert Next(started, Hello) == started.(state := Draining, greeted := true, trace := trace);
  }

  /** A waiting session is ready to play once a stream began, its HTTP session was attached,
      the player loaded its buffer, and the clocks were compared. */
  lemma WaitingSessionGetsReady(s: Session, rate: nat, latency: nat, timeOffset: int)
    requires s.state.Started? && rate != 0
    ensures var prepared := Next(s, Prepared(rate));
            var ready := Next(Next(Next(prepared, Streaming(true)), Loaded), Measured(latency, timeOffset));
            && ready.state.Preparing? && Allows(ReadyToPlay, ready)
            && ready.samplingRate == rate && ready.timeOffset == Some(timeOffset) && ready.latency == Some(latency)
            && ready.trace == Cons(BufferLoaded, Cons(Attached, Cons(Sent(Start(rate, s.clientID)), s.trace)))
  {
    PrepareSends(s, rate);
  }

  /** An attached session that was prepared begins to buffer with the next chunk. */
  lemma BuffersOnOffer(s: Session, o: Offer)
    requires s.state.Preparing? && s.attached && s.samplingRate != 0
    requires !o.endOfStream && !o.playing && o.room
    ensures ConsumeChunk(s, o) == (s.(state := Buffering), true)
  {
  }

  /** A session that is ready joins the playback under way with the next chunk. */
  lemma PlaysOnOffer(s: Session, o: Offer)
    requires s.state.Buffering? && s.attached && s.samplingRate != 0 && s.timeOffset.Some? && s.clientBufferIsReady
    requires !o.endOfStream && o.playing && o.room
    ensures ConsumeChunk(s, o)
         == (s.(state := Playing, trace := Cons(Sent(Unpause(o.start - 1000 * s.timeOffset.value)), s.trace)), true)
  {
  }

  lemma DrainsOnEnd(s: Session, o: Offer)
    requires s.state.Playing? && o.endOfStream && o.room
    ensures ConsumeChunk(s, o) == (s.(state := Draining), true)
  {
  }

  /** A player that runs out of data while draining is stopped, and waits once it flushed. */
  lemma DrainedPlayerIsStopped(s: Session)
    requires s.state.Draining?
    ensures Next(Next(s, Underrun), Flushed) == s.(state := Started, trace := Cons(Sent(Stop), s.trace))
  {
  }

  // ---------- In memory ----------

  class SlimProtoSession {
    const clientID: string
    var state: State
    var samplingRate: nat
    var attached: bool
    var clientBufferIsReady: bool
    var greeted: bool
    var timeOffset: Option<int>
    var latency: Option<int>
    ghost var closes: nat
    ghost var trace: List<Mark>

    ghost function View(): Session
      reads this
    {
      Session(clientID, state, samplingRate, attached, clientBufferIsReady, greeted, timeOffset, latency, closes, trace)
    }

    constructor (clientID: string)
      ensures View() == Created(clientID)
    {
      this.clientID := clientID;
      state, samplingRate, attached, clientBufferIsReady, greeted := Stopped, 0, false, false, false;
      timeOffset, latency, closes, trace := None, None, 0, Nil;
    }

    method Evaluate(guard: Guard) returns (allowed: bool)
      ensures allowed == Allows(guard, View())
    {
      match guard {
        case Always => allowed := true;
        case ReadyToPrepare => allowed := samplingRate != 0;
        case ReadyToBuffer => allowed := samplingRate != 0 && attached;
        case ReadyToPlay => allowed := samplingRate != 0 && attached && timeOffset.Some? && clientBufferIsReady;
      }
    }

    method Write(command: Command)
      modifies this
      ensures View() == Send(old(View()), command)
    {
      trace := Cons(Sent(command), trace);
    }

    method Act(action: Action, start: int)
      modifies this
      ensures View() == Perform(action, old(View()), start)
    {
      match action {
        case Nothing =>
        case ToPreparing =>
          clientBufferIsReady, attached := false, false;
          Write(Start(samplingRate, clientID));
        case ToPlaying =>
          Write(Unpause(start - 1000 * timeOffset.UnwrapOr(0)));
        case ToStopped =>
          samplingRate := 0;
      }
    }

    /** Searches the table; the guard decides, and the action runs before the state
        changes. */
    method Process(event: Event, start: int) returns (verdict: Verdict)
      modifies this
      ensures (View(), verdict) == ProcessEvent(old(View()), event, start)
    {
      TableMeansTransition(event, state);
      var found := Search(TRANSITIONS, event, state);
      if found.None? {
        return Missing;
      }
      var allowed := Evaluate(found.value.guard);
      if !allowed {
        return Refused;
      }
      Act(found.value.action, start);
      state := found.value.to;
      return Done;
    }

    method ProcessClosing(event: Event, start: int)
      modifies this
      ensures View() == ProcessOrClose(old(View()), event, start)
    {
      var verdict := Process(event, start);
      if verdict.Missing? {
        closes := closes + 1;
      }
    }

    method SetRate(rate: nat)
      modifies this
      ensures View() == Prepare(old(View()), rate)
    {
      var before := samplingRate;
      samplingRate := rate;
      var verdict := Process(PrepareEvent, 0);
      if !verdict.Done? {
        samplingRate := before;
      }
    }

    method Consume(o: Offer) returns (result: bool)
      modifies this
      ensures (View(), result) == ConsumeChunk(old(View()), o)
    {
      result := true;
      if state.Started? {
        SetRate(o.samplingRate);
      }
      if state.Preparing? {
        ProcessClosing(BufferEvent, o.start);
      }
      assert View() == Readied(old(View()), o);
      if state.Buffering? || state.Playing? {
        if state.Buffering? && o.playing {
          ProcessClosing(PlayEvent, o.start);
        }
        assert View() == Joined(Readied(old(View()), o), o);
        if attached {
          result := o.room;
        }
        if result && o.endOfStream {
          ProcessClosing(DrainEvent, o.start);
        }
      }
    }

    method Greet()
      modifies this
      ensures View() == OnHELO(old(View()))
    {
      if !greeted {
        greeted := true;
        Write(Setup);
        Write(Stop);
        ProcessClosing(HandshakeEvent, 0);
      }
    }

    method HandleFlushed()
      modifies this
      ensures View() == OnSTMf(old(View()))
    {
      var _ := Process(FlushedEvent, 0);
    }

    method HandleLoaded()
      modifies this
      ensures View() == OnSTMl(old(View()))
    {
      clientBufferIsReady := true;
      trace := Cons(BufferLoaded, trace);
    }

    method HandleUnderrun()
      modifies this
      ensures View() == OnSTMu(old(View()))
    {
      if state.Draining? {
        Write(Stop);
      }
    }

    method Attach(attached: bool)
      modifies this
      ensures View() == SetStreamingSession(old(View()), attached)
    {
      this.attached := attached;
      trace := Cons(if attached then Attached else Detached, trace);
    }

    method Begin()
      modifies this
      ensures View() == OnStart(old(View()))
    {
      ProcessClosing(StartEvent, 0);
    }

    method Halt()
      modifies this
      ensures View() == OnStop(old(View()))
    {
      if !state.Stopped? {
        if !state.Started? {
          Write(Stop);
        }
        var _ := Process(StopEvent, 0);
      }
    }
  }
}
