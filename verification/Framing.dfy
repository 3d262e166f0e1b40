/** Cutting a player's byte stream into SlimProto commands. */
module Framing {
  import opened Common
  import opened RingBuffer

  // ---------- Commands in bytes ----------

  const LABEL_SIZE: nat := 4
  const HEADER_SIZE: nat := 8

  const DSCO: seq<byte> := [68, 83, 67, 79]
  const HELO: seq<byte> := [72, 69, 76, 79]
  const RESP: seq<byte> := [82, 69, 83, 80]
  const SETD: seq<byte> := [83, 69, 84, 68]
  const STAT: seq<byte> := [83, 84, 65, 84]

  /** The size of the fixed part of a supported command, header included. */
  function FixedSize(opcode: seq<byte>): (r: Option<nat>)
    ensures r.Some? ==> r.value >= HEADER_SIZE && |opcode| == LABEL_SIZE
  {
    if opcode == DSCO then Some(9)
    else if opcode == HELO then Some(44)
    else if opcode == RESP then Some(8)
    else if opcode == SETD then Some(9)
    else if opcode == STAT then Some(61)
    else None
  }

  function BigEndian(b: seq<byte>): nat
    requires |b| == 4
  {
    var (b0: int, b1: int, b2: int, b3: int) := (b[0], b[1], b[2], b[3]);
    b0 * 0x100_0000 + b1 * 0x1_0000 + b2 * 0x100 + b3
  }

  function LittleEndian(b: seq<byte>): nat
    requires |b| == 4
  {
    var (b0: int, b1: int, b2: int, b3: int) := (b[0], b[1], b[2], b[3]);
    b3 * 0x100_0000 + b2 * 0x1_0000 + b1 * 0x100 + b0
  }

  /** The size of the command that starts `c`, header included, as its header declares it. */
  function FrameSize(c: seq<byte>): (r: nat)
    requires |c| >= HEADER_SIZE
    ensures r >= HEADER_SIZE
  {
    HEADER_SIZE + BigEndian(c[4..8])
  }

  predicate IsEnough(c: seq<byte>) {
    |c| >= HEADER_SIZE && FrameSize(c) <= |c|
  }

  /** A supported command, complete and at least as long as its fixed part. */
  predicate WellFormed(command: seq<byte>) {
    && |command| >= HEADER_SIZE
    && FixedSize(command[..4]).Some?
    && FixedSize(command[..4]).value <= |command| == FrameSize(command)
  }

  // ---------- One call ----------

  /** What the beginning of the buffer calls for. */
  datatype Round = Wait | Skip | Reject | Handle(size: nat)

  function Look(c: seq<byte>): (r: Round)
    ensures r.Handle? ==> HEADER_SIZE <= r.size <= |c|
  {
    if |c| < LABEL_SIZE then Wait
    else match FixedSize(c[..4])
      case None => Skip
      case Some(fixed) =>
        if !IsEnough(c) then Wait
        else if fixed > |c| then Reject
        else Handle(FrameSize(c))
  }

  /** The bytes a handler gets to see: its fixed part is read even where the declared
      size is smaller. */
  function Seen(c: seq<byte>): seq<byte>
    requires Look(c).Handle?
  {
    var fixed := FixedSize(c[..4]).value;
    c[..if fixed > FrameSize(c) then fixed else FrameSize(c)]
  }

  /** The commands handled by a call, what is left in the buffer, and how it ended. */
  datatype Outcome = Outcome(handled: seq<seq<byte>>, rest: seq<byte>, skipped: bool, failed: bool)

  function Process(c: seq<byte>): Outcome
    decreases |c|
  {
    match Look(c)
    case Wait => Outcome([], c, false, false)
    case Skip => Outcome([], c[1..], true, false)
    case Reject => Outcome([], [], false, true)
    case Handle(n) => After([Seen(c)], Process(c[n..]))
  }

  function After(handled: seq<seq<byte>>, o: Outcome): Outcome {
    o.(handled := handled + o.handled)
  }

  function OnRequest(c: seq<byte>, data: seq<byte>, capacity: nat): Outcome {
    Process(Last(c + data, capacity))
  }

  // ---------- Arbitrary bytes ----------

  /** What a handler may be given: a supported command, complete, with its fixed part. */
  predicate Complete(seen: seq<byte>) {
    && IsEnough(seen)
    && FixedSize(seen[..4]).Some?
    && FixedSize(seen[..4]).value <= |seen|
  }

  /** The bytes removed from the buffer for the commands handled. */
  function Consumed(handled: seq<seq<byte>>): seq<byte>
    requires forall k :: 0 <= k < |handled| ==> Complete(handled[k])
  {
    if handled == [] then []
    else
      assert Complete(handled[0]);
      handled[0][..FrameSize(handled[0])] + Consumed(handled[1..])
  }

  lemma SeenIsComplete(c: seq<byte>)
    requires Look(c).Handle?
    ensures Complete(Seen(c)) && FrameSize(Seen(c)) == Look(c).size && Seen(c)[..Look(c).size] == c[..Look(c).size]
  {
    assert Seen(c)[4..8] == c[4..8] && Seen(c)[..4] == c[..4];
  }

  /** How a call ends whose next command would start at `tail`: at a byte to skip, at a
      complete command shorter than its fixed part, or at an incomplete command. */
  ghost predicate EndsAt(o: Outcome, tail: seq<byte>) {
    && (o.skipped <==> Look(tail).Skip?)
    && (o.failed <==> Look(tail).Reject?)
    && (o.skipped ==> tail != [] && o.rest == tail[1..])
    && (o.failed ==> o.rest == [])
    && (!o.skipped && !o.failed ==> Look(tail).Wait? && o.rest == tail)
  }

  /** On any bytes whatsoever, a call removes complete supported commands and then, unless
      it fails, at most one more byte; and it stops only where it must. */
  lemma {:induction false} ProcessConsumes(c: seq<byte>)
    ensures forall k :: 0 <= k < |Process(c).handled| ==> Complete(Process(c).handled[k])
    ensures Consumed(Process(c).handled) <= c
    ensures EndsAt(Process(c), c[|Consumed(Process(c).handled)|..])
    decreases |c|
  {
    if Look(c).Handle? {
      var rest := c[Look(c).size..];
      ProcessConsumes(rest);
      SeenIsComplete(c);
      ConsumedFirst(Seen(c), Process(rest).handled, c);
    } else {
      assert c[0..] == c;
    }
  }

  lemma ConsumedFirst(first: seq<byte>, handled: seq<seq<byte>>, c: seq<byte>)
    requires Complete(first) && forall k :: 0 <= k < |handled| ==> Complete(handled[k])
    requires var n := FrameSize(first);
             n <= |c| && first[..n] == c[..n] && Consumed(handled) <= c[n..]
    ensures forall k :: 0 <= k < |([first] + handled)| ==> Complete(([first] + handled)[k])
    ensures Consumed([first] + handled) <= c
    ensures c[|Consumed([first] + handled)|..] == c[FrameSize(first)..][|Consumed(handled)|..]
  {
    assert ([first] + handled)[1..] == handled;
    assert c == c[..FrameSize(first)] + c[FrameSize(first)..];
  }

  /** No command that would be handled declares a size smaller than its fixed part, and
      where a byte would be skipped the next call has nothing to do. */
  predicate CutSafe(c: seq<byte>)
    decreases |c|
  {
    match Look(c)
    case Wait => true
    case Reject => true
    case Skip => Look(c[1..]).Wait?
    case Handle(n) => DeclaresEnough(c) && CutSafe(c[n..])
  }

  /** The command that starts `c` declares at least the size of its fixed part. */
  predicate DeclaresEnough(c: seq<byte>)
    requires Look(c).Handle?
  {
    FixedSize(c[..4]).value <= Look(c).size
  }

  // ---------- Supported commands ----------

  ghost predicate AllWellFormed(commands: seq<seq<byte>>) {
    forall k :: 0 <= k < |commands| ==> WellFormed(commands[k])
  }

  /** A buffer that holds the beginning of a command waits for the rest of it. */
  lemma PrefixWaits(c: seq<byte>, command: seq<byte>)
    requires WellFormed(command) && c <= command && c != command
    ensures Look(c) == Wait
  {
    assert c == command[..|c|];
    if |c| >= HEADER_SIZE {
      assert c[4..8] == command[4..8];
    }
    if |c| >= LABEL_SIZE {
      assert c[..4] == command[..4];
    }
  }

  lemma CommandIsHandled(c: seq<byte>, command: seq<byte>)
    requires WellFormed(command) && command <= c
    ensures Look(c) == Handle(|command|) && Seen(c) == command
  {
    assert command == c[..|command|];
    assert c[4..8] == command[4..8];
    assert c[..4] == command[..4];
  }

  /** `rest` is all that is left of the first commands after `k` of them. */
  ghost predicate Left(commands: seq<seq<byte>>, k: nat, rest: seq<byte>)
    requires k <= |commands|
  {
    if k == |commands| then rest == [] else rest <= commands[k] && rest != commands[k]
  }

  /** One call on the beginning of a stream of commands handles the complete ones;
      `future` is what the stream still has to deliver. */
  lemma {:induction false} ProcessCommands(c: seq<byte>, future: seq<byte>, commands: seq<seq<byte>>) returns (k: nat)
    requires AllWellFormed(commands) && c + future == Flatten(commands)
    ensures k <= |commands| && Left(commands, k, Process(c).rest)
    ensures Process(c) == Outcome(commands[..k], Process(c).rest, false, false)
    ensures Process(c).rest + future == Flatten(commands[k..])
    ensures CutSafe(c)
    decreases |commands|
  {
    if commands == [] {
      k := 0;
    } else if |c| < |commands[0]| {
      PrefixOf(c, future, commands[0], Flatten(commands[1..]));
      PrefixWaits(c, commands[0]);
      k := 0;
      assert commands[0..] == commands;
    } else {
      PrefixOf(commands[0], Flatten(commands[1..]), c, future);
      CommandIsHandled(c, commands[0]);
      var j := ProcessCommands(c[|commands[0]|..], future, commands[1..]);
      k := j + 1;
      assert [commands[0]] + commands[1..][..j] == commands[..k];
      assert commands[1..][j..] == commands[k..];
    }
  }

  /** The shorter of two beginnings of the same bytes. */
  lemma PrefixOf(a: seq<byte>, a': seq<byte>, b: seq<byte>, b': seq<byte>)
    requires a + a' == b + b' && |a| <= |b|
    ensures a <= b && b[|a|..] + b' == a'
  {
    assert a == (a + a')[..|a|] == (b + b')[..|a|] == b[..|a|];
    assert a' == (a + a')[|a|..] == (b + b')[|a|..] == b[|a|..] + b';
  }

  // ---------- Which commands are supported ----------

  function Code(c: char): byte {
    if (c as int) < 256 then c as int else 0
  }

  /** A label as it is sent. */
  function Ascii(name: string): (r: seq<byte>)
    ensures |r| == |name|
  {
    seq(|name|, i requires 0 <= i < |name| => Code(name[i]))
  }

  const SUPPORTED: set<string> := {"DSCO", "HELO", "RESP", "SETD", "STAT"}

  /** The fixed part of a supported command: the header and the fields every player sends. */
  function FixedPart(name: string): nat {
    match name
    case "DSCO" => HEADER_SIZE + 1
    case "HELO" => HEADER_SIZE + 36
    case "SETD" => HEADER_SIZE + 1
    case "STAT" => HEADER_SIZE + 53
    case _ => HEADER_SIZE
  }

  /** Exactly five labels are supported. */
  lemma SupportedLabels(opcode: seq<byte>)
    ensures forall name <- SUPPORTED :: FixedSize(Ascii(name)) == Some(FixedPart(name))
    ensures FixedSize(opcode).Some? <==> exists name <- SUPPORTED :: opcode == Ascii(name)
  {
    LabelBytes();
    if FixedSize(opcode).Some? {
      var name := if opcode == DSCO then "DSCO" else if opcode == HELO then "HELO" else if opcode == RESP then "RESP"
                  else if opcode == SETD then "SETD" else "STAT";
      assert name in SUPPORTED && opcode == Ascii(name);
    }
  }

  lemma LabelBytes()
    ensures Ascii("DSCO") == DSCO && Ascii("HELO") == HELO && Ascii("RESP") == RESP
    ensures Ascii("SETD") == SETD && Ascii("STAT") == STAT
  {
  }

  /** A command with one of these labels, as long as it declares and no shorter than its
      fixed part, is handled on its own and whole. */
  lemma {:induction false} SupportedCommandIsHandled(name: string, command: seq<byte>)
    requires name in SUPPORTED && |command| >= FixedPart(name) && command[..4] == Ascii(name)
    requires FrameSize(command) == |command|
    ensures Process(command) == Outcome([command], [], false, false)
  {
    SupportedLabels(command[..4]);
    CommandIsHandled(command, command);
    assert command[|command|..] == [];
    assert Process([]) == Outcome([], [], false, false);
  }

  // ---------- Every way of cutting the stream into reads ----------

  /** The commands handled over a sequence of reads, and what is left in the buffer.
      A failed call makes the connection close, so nothing follows it. */
  function Reads(c: seq<byte>, pieces: seq<seq<byte>>, capacity: nat): Outcome
    decreases |pieces|
  {
    if pieces == [] then Outcome([], c, false, false)
    else
      var o := OnRequest(c, pieces[0], capacity);
      if o.failed then o
      else
        var later := Reads(o.rest, pieces[1..], capacity);
        Outcome(o.handled + later.handled, later.rest, o.skipped || later.skipped, later.failed)
  }

  /** No read overfills the ring. */
  predicate Fits(c: seq<byte>, pieces: seq<seq<byte>>, capacity: nat)
    decreases |pieces|
  {
    pieces == []
    || (|c| + |pieces[0]| <= capacity && Fits(OnRequest(c, pieces[0], capacity).rest, pieces[1..], capacity))
  }

  /** One read that does not overfill the ring: `i` commands more are handled, and the
      stream goes on from what is left in the ring. */
  lemma ReadOnce(c: seq<byte>, pieces: seq<seq<byte>>, future: seq<byte>, commands: seq<seq<byte>>, capacity: nat)
    returns (i: nat, rest: seq<byte>)
    requires AllWellFormed(commands) && pieces != [] && |c| + |pieces[0]| <= capacity
    requires c + Flatten(pieces) + future == Flatten(commands)
    ensures i <= |commands| && OnRequest(c, pieces[0], capacity) == Outcome(commands[..i], rest, false, false)
    ensures AllWellFormed(commands[i..]) && Left(commands[i..], 0, rest)
    ensures rest + Flatten(pieces[1..]) + future == Flatten(commands[i..])
  {
    var tail := Flatten(pieces[1..]);
    Regroup(c, pieces[0], tail, future);
    i := ProcessCommands(c + pieces[0], tail + future, commands);
    rest := Process(c + pieces[0]).rest;
    Regroup(rest, [], tail, future);
  }

  lemma Regroup(a: seq<byte>, b: seq<byte>, c: seq<byte>, d: seq<byte>)
    ensures (a + b) + (c + d) == a + (b + c) + d
    ensures b == [] ==> a + (c + d) == a + c + d
  {
    assert b == [] ==> a + b == a && b + c == c;
  }

  /** Reads never overfill the ring if a read and all but one byte of the longest
      command fit together. */
  lemma {:induction false} ShortReadsFit(c: seq<byte>, pieces: seq<seq<byte>>, future: seq<byte>,
                                         commands: seq<seq<byte>>, longest: nat, capacity: nat)
    requires AllWellFormed(commands) && Left(commands, 0, c)
    requires c + Flatten(pieces) + future == Flatten(commands)
    requires forall k :: 0 <= k < |commands| ==> |commands[k]| <= longest
    requires longest > 0 && forall i :: 0 <= i < |pieces| ==> longest - 1 + |pieces[i]| <= capacity
    ensures Fits(c, pieces, capacity)
    decreases |pieces|
  {
    if pieces != [] {
      var i, rest := ReadOnce(c, pieces, future, commands, capacity);
      ShortReadsFit(rest, pieces[1..], future, commands[i..], longest, capacity);
    }
  }

  // ---------- Arbitrary bytes in arbitrary reads ----------

  /** Non-empty reads that deliver these bytes. */
  ghost predicate Cuts(pieces: seq<seq<byte>>, c: seq<byte>) {
    Flatten(pieces) == c && forall k :: 0 <= k < |pieces| ==> |pieces[k]| > 0
  }

  /** Every way of cutting the bytes into reads ends as one read of them all. */
  ghost predicate CuttingIsInvisible(c: seq<byte>, capacity: nat) {
    forall pieces :: Cuts(pieces, c) ==> Reads([], pieces, capacity) == Process(c)
  }

  /** A call, and a later one on what it left. */
  function Then(o: Outcome, later: Outcome): Outcome {
    Outcome(o.handled + later.handled, later.rest, o.skipped || later.skipped, later.failed)
  }

  lemma WaitIsPrefixClosed(x: seq<byte>, future: seq<byte>)
    requires Look(x + future).Wait?
    ensures Look(x).Wait?
  {
    LabelStays(x, future);
  }

  /** More bytes do not change the label and the size of what begins the buffer. */
  lemma LabelStays(x: seq<byte>, future: seq<byte>)
    ensures |x| >= LABEL_SIZE ==> (x + future)[..4] == x[..4]
    ensures |x| >= HEADER_SIZE ==> FrameSize(x + future) == FrameSize(x)
  {
    if |x| >= HEADER_SIZE {
      assert (x + future)[4..8] == x[4..8];
    }
  }

  /** `whole` is what a call that ended with `o` does and then, unless it failed, a call on
      what it left and the bytes to come. */
  ghost predicate Splits(o: Outcome, future: seq<byte>, whole: Outcome) {
    if o.failed then whole == o
    else Look(o.rest).Wait? && CutSafe(o.rest + future) && whole == Then(o, Process(o.rest + future))
  }

  /** Where nothing depends on the cut, a first read and the rest of the bytes do what
      both do at once. */
  lemma {:induction false} CutOnce(x: seq<byte>, future: seq<byte>)
    requires CutSafe(x + future)
    ensures Splits(Process(x), future, Process(x + future))
    decreases |x|
  {
    LabelStays(x, future);
    match Look(x) {
      case Wait =>
      case Skip =>
        assert (x + future)[1..] == x[1..] + future;
        WaitIsPrefixClosed(x[1..], future);
      case Reject =>
        RejectedAnyway(x, future);
      case Handle(n) =>
        HandledAnyway(x, future);
        CutOnce(x[n..], future);
        var o := Process(x[n..]);
        if !o.failed {
          ThenAfter(Seen(x), o, Process(o.rest + future));
        }
    }
  }

  lemma RejectedAnyway(x: seq<byte>, future: seq<byte>)
    requires CutSafe(x + future) && Look(x).Reject?
    ensures Look(x + future).Reject?
  {
    LabelStays(x, future);
  }

  lemma HandledAnyway(x: seq<byte>, future: seq<byte>)
    requires CutSafe(x + future) && Look(x).Handle?
    ensures var n := Look(x).size;
            && Process(x + future) == After([Seen(x)], Process(x[n..] + future))
            && CutSafe(x[n..] + future)
  {
    LabelStays(x, future);
    var c, n := x + future, Look(x).size;
    assert c[n..] == x[n..] + future;
    assert Seen(c) == c[..n] == x[..n] == Seen(x);
  }

  lemma ThenAfter(first: seq<byte>, o: Outcome, later: Outcome)
    ensures After([first], Then(o, later)) == Then(After([first], o), later)
  {
    assert [first] + (o.handled + later.handled) == [first] + o.handled + later.handled;
  }

  lemma ReadsFirst(c: seq<byte>, pieces: seq<seq<byte>>, capacity: nat)
    requires pieces != [] && Fits(c, pieces, capacity)
    ensures var o := Process(c + pieces[0]);
            && Fits(o.rest, pieces[1..], capacity)
            && Reads(c, pieces, capacity) == if o.failed then o else Then(o, Reads(o.rest, pieces[1..], capacity))
  {
    assert OnRequest(c, pieces[0], capacity) == Process(c + pieces[0]);
  }

  lemma FirstPiece(c: seq<byte>, pieces: seq<seq<byte>>)
    requires pieces != []
    ensures c + Flatten(pieces) == c + pieces[0] + Flatten(pieces[1..])
  {
  }

  /** On any bytes for which nothing depends on the cut, reads that do not overfill the
      ring end as one read would. */
  lemma {:induction false} SafeReadsAgree(c: seq<byte>, pieces: seq<seq<byte>>, capacity: nat)
    requires Look(c).Wait? && CutSafe(c + Flatten(pieces)) && Fits(c, pieces, capacity)
    ensures Reads(c, pieces, capacity) == Process(c + Flatten(pieces))
    decreases |pieces|, 0
  {
    if pieces == [] {
      NothingRead(c, capacity);
    } else {
      FirstPiece(c, pieces);
      CutOnce(c + pieces[0], Flatten(pieces[1..]));
      ReadsFirst(c, pieces, capacity);
      var o := Process(c + pieces[0]);
      SafeReadsGoOn(o, pieces[1..], capacity, Process(c + Flatten(pieces)));
    }
  }

  lemma NothingRead(c: seq<byte>, capacity: nat)
    requires Look(c).Wait?
    ensures Reads(c, [], capacity) == Process(c + Flatten([]))
  {
    assert c + Flatten([]) == c;
  }

  /** What follows a first read that ended with `o`. */
  lemma {:induction false} SafeReadsGoOn(o: Outcome, later: seq<seq<byte>>, capacity: nat, whole: Outcome)
    requires Splits(o, Flatten(later), whole) && Fits(o.rest, later, capacity)
    ensures whole == if o.failed then o else Then(o, Reads(o.rest, later, capacity))
    decreases |later|, 1
  {
    if !o.failed {
      SafeReadsAgree(o.rest, later, capacity);
    }
  }

  /** However a stream of supported commands is cut into reads that do not overfill
      the ring, exactly the complete commands are handled, in order, and the ring holds
      the beginning of the next. */
  lemma {:induction false} FramingIsIndependentOfReads(commands: seq<seq<byte>>, pieces: seq<seq<byte>>, capacity: nat)
    returns (k: nat, rest: seq<byte>)
    requires AllWellFormed(commands)
    requires Flatten(pieces) <= Flatten(commands)
    requires Fits([], pieces, capacity)
    ensures k <= |commands| && Left(commands, k, rest)
    ensures Reads([], pieces, capacity) == Outcome(commands[..k], rest, false, false)
    ensures Flatten(pieces) == Flatten(commands[..k]) + rest
  {
    var all := Flatten(pieces);
    var future := Flatten(commands)[|all|..];
    Rejoin(all, Flatten(commands));
    k := ProcessCommands(all, future, commands);
    rest := Process(all).rest;
    assert [] + all == all;
    SafeReadsAgree([], pieces, capacity);
    HandledAndLeft(all, rest, future, commands, k);
  }

  lemma Rejoin(a: seq<byte>, b: seq<byte>)
    requires a <= b
    ensures a + b[|a|..] == b
  {
  }

  lemma HandledAndLeft(all: seq<byte>, rest: seq<byte>, future: seq<byte>, commands: seq<seq<byte>>, k: nat)
    requires k <= |commands| && all + future == Flatten(commands) && rest + future == Flatten(commands[k..])
    ensures all == Flatten(commands[..k]) + rest
  {
    assert commands[..k] + commands[k..] == commands;
    FlattenConcat(commands[..k], commands[k..]);
    var handled := Flatten(commands[..k]);
    assert all + future == handled + rest + future;
    assert all == (all + future)[..|all|] == handled + rest;
  }

  /** Two ways of cutting the same bytes lead to the same commands and the same ring. */
  lemma {:induction false} SameBytesSameCommands(commands: seq<seq<byte>>, a: seq<seq<byte>>, b: seq<seq<byte>>,
                                                 capacity: nat)
    requires AllWellFormed(commands) && Flatten(a) <= Flatten(commands)
    requires Flatten(a) == Flatten(b) && Fits([], a, capacity) && Fits([], b, capacity)
    ensures Reads([], a, capacity) == Reads([], b, capacity)
  {
    var j, ra := FramingIsIndependentOfReads(commands, a, capacity);
    var k, rb := FramingIsIndependentOfReads(commands, b, capacity);
    if j < k {
      LeftIsShort(commands, j, k, ra, rb);
    } else if k < j {
      LeftIsShort(commands, k, j, rb, ra);
    }
    var f := Flatten(commands[..j]);
    assert ra == (f + ra)[|f|..] == (f + rb)[|f|..] == rb;
  }

  lemma LeftIsShort(commands: seq<seq<byte>>, j: nat, k: nat, r: seq<byte>, q: seq<byte>)
    requires j < k <= |commands| && Left(commands, j, r)
    ensures |Flatten(commands[..j]) + r| < |Flatten(commands[..k]) + q|
  {
    assert commands[..k] == commands[..j] + commands[j..k];
    FlattenConcat(commands[..j], commands[j..k]);
    assert commands[j..k][0] == commands[j];
    assert r == commands[j][..|r|];
  }

  lemma {:induction false} ShortStreamFits(c: seq<byte>, pieces: seq<seq<byte>>, capacity: nat)
    requires |c| + |Flatten(pieces)| <= capacity
    ensures Fits(c, pieces, capacity)
    decreases |pieces|
  {
    if pieces != [] {
      var o := OnRequest(c, pieces[0], capacity);
      RestIsShort(c + pieces[0]);
      ShortStreamFits(o.rest, pieces[1..], capacity);
    }
  }

  lemma {:induction false} RestIsShort(c: seq<byte>)
    ensures |Process(c).rest| <= |c|
    decreases |c|
  {
    if Look(c).Handle? {
      RestIsShort(c[Look(c).size..]);
    }
  }

  lemma TwoReads(c: seq<byte>, k: nat, capacity: nat)
    requires 0 < k < |c| <= capacity
    ensures Cuts([c[..k], c[k..]], c)
    ensures var o := Process(c[..k]);
            Reads([], [c[..k], c[k..]], capacity) == if o.failed then o else Then(o, Process(o.rest + c[k..]))
  {
    var pieces := [c[..k], c[k..]];
    TwoPieces(c[..k], c[k..]);
    assert c[..k] + c[k..] == c && [] + c[..k] == c[..k];
    ShortStreamFits([], pieces, capacity);
    ReadsFirst([], pieces, capacity);
    RestIsShort(c[..k]);
    LastRead(Process(c[..k]).rest, c[k..], capacity);
  }

  lemma TwoPieces(a: seq<byte>, b: seq<byte>)
    ensures Flatten([a, b]) == a + b && [a, b][1..] == [b]
  {
    assert [a, b][1..] == [b] && Flatten([b]) == b + Flatten([]) == b;
  }

  lemma LastRead(c: seq<byte>, piece: seq<byte>, capacity: nat)
    requires |c| + |piece| <= capacity
    ensures Reads(c, [piece], capacity) == Process(c + piece)
  {
    var o := Process(c + piece);
    assert [piece][1..] == [] && o.handled + [] == o.handled;
    if o.failed {
      assert OnRequest(c, piece, capacity) == o;
    } else {
      assert Reads(o.rest, [], capacity) == Outcome([], o.rest, false, false);
    }
  }

  /** A skip and one byte of the next read: the call finds more to do. */
  lemma SkipsAgain(c: seq<byte>)
    requires Look(c).Skip? && !Look(c[1..]).Wait?
    ensures |c| > 4
    ensures var o := Process(c[..4]);
            !o.failed && o.rest + c[4..] == c[1..] && Then(o, Process(c[1..])) != Process(c)
  {
    assert c[..4][..4] == c[..4] && c[..4][1..] == c[1..4];
    assert c[1..4] + c[4..] == c[1..];
    FindsMore(c[1..]);
  }

  lemma FindsMore(c: seq<byte>)
    requires !Look(c).Wait?
    ensures |c| >= 4 && Process(c) != Outcome([], c, Process(c).skipped, false)
  {
  }

  lemma TooSmallIsRejected(c: seq<byte>)
    requires Look(c).Handle? && !DeclaresEnough(c)
    ensures var n := Look(c).size;
            n < |c| && Process(c[..n]) == Outcome([], [], false, true) && Process(c) != Process(c[..n])
  {
    var n := Look(c).size;
    TooSmallIsShort(c);
    assert Process(c).handled[0] == Seen(c);
  }

  lemma TooSmallIsShort(c: seq<byte>)
    requires Look(c).Handle? && !DeclaresEnough(c)
    ensures Look(c).size < |c| && Look(c[..Look(c).size]).Reject?
  {
    var n := Look(c).size;
    SeenIsComplete(c);
    assert c[..n][..4] == c[..4] && c[..n][4..8] == c[4..8];
  }

  lemma FirstIsHandled(c: seq<byte>)
    requires Look(c).Handle? && DeclaresEnough(c)
    ensures Process(c[..Look(c).size]) == Outcome([Seen(c)], [], false, false)
  {
    var n := Look(c).size;
    SeenIsComplete(c);
    assert c[..n] == Seen(c);
    CommandIsHandled(c[..n], c[..n]);
    assert c[..n][n..] == [];
    assert Process([]) == Outcome([], [], false, false);
  }

  lemma FirstRead(first: seq<byte>, later: seq<seq<byte>>, seen: seq<byte>, capacity: nat)
    requires |first| <= capacity && Process(first) == Outcome([seen], [], false, false)
    ensures Reads([], [first] + later, capacity) == After([seen], Reads([], later, capacity))
  {
    assert ([first] + later)[1..] == later && [] + first == first;
    assert OnRequest([], first, capacity) == Process(first);
  }

  lemma FirstCut(first: seq<byte>, later: seq<seq<byte>>, rest: seq<byte>)
    requires first != [] && Cuts(later, rest)
    ensures Cuts([first] + later, first + rest)
  {
    assert ([first] + later)[1..] == later;
  }

  lemma HandledFirst(c: seq<byte>, first: seq<byte>, rest: seq<byte>)
    requires Look(c).Handle? && DeclaresEnough(c) && first == c[..Look(c).size] && rest == c[Look(c).size..]
    ensures first != [] && first + rest == c
    ensures Process(first) == Outcome([Seen(c)], [], false, false) && Process(c) == After([Seen(c)], Process(rest))
  {
    FirstIsHandled(c);
  }

  lemma CutJoins(c: seq<byte>, first: seq<byte>, rest: seq<byte>, later: seq<seq<byte>>, seen: seq<byte>, capacity: nat)
    requires first != [] && first + rest == c && |c| <= capacity && Cuts(later, rest)
    requires Process(first) == Outcome([seen], [], false, false) && Process(c) == After([seen], Process(rest))
    requires Reads([], later, capacity) != Process(rest)
    ensures Cuts([first] + later, c) && Reads([], [first] + later, capacity) != Process(c)
  {
    FirstCut(first, later, rest);
    FirstRead(first, later, seen, capacity);
    AfterIsInjective(seen, Reads([], later, capacity), Process(rest));
  }

  lemma AfterIsInjective(first: seq<byte>, a: Outcome, b: Outcome)
    requires a != b
    ensures After([first], a) != After([first], b)
  {
    assert ([first] + a.handled)[1..] == a.handled && ([first] + b.handled)[1..] == b.handled;
  }

  /** Where it does depend on the cut, reads that show it: one that ends where a too small
      command claims to end, or right after the label that is not supported. */
  lemma {:induction false} UnsafeReads(c: seq<byte>, capacity: nat) returns (pieces: seq<seq<byte>>)
    requires !CutSafe(c) && |c| <= capacity
    ensures Cuts(pieces, c) && Reads([], pieces, capacity) != Process(c)
    decreases |c|
  {
    if Look(c).Skip? {
      SkipsAgain(c);
      TwoReads(c, 4, capacity);
      pieces := [c[..4], c[4..]];
    } else {
      var n := Look(c).size;
      if DeclaresEnough(c) {
        var first, rest := c[..n], c[n..];
        HandledFirst(c, first, rest);
        var later := UnsafeReads(rest, capacity);
        CutJoins(c, first, rest, later, Seen(c), capacity);
        pieces := [first] + later;
      } else {
        TooSmallIsRejected(c);
        TwoReads(c, n, capacity);
        pieces := [c[..n], c[n..]];
      }
    }
  }

  lemma SafeCutting(c: seq<byte>, pieces: seq<seq<byte>>, capacity: nat)
    requires |c| <= capacity && CutSafe(c) && Cuts(pieces, c)
    ensures Reads([], pieces, capacity) == Process(c)
  {
    assert [] + Flatten(pieces) == c;
    ShortStreamFits([], pieces, capacity);
    SafeReadsAgree([], pieces, capacity);
  }

  /** Exactly when the cut does not matter, for arbitrary bytes that fit the ring. */
  lemma {:induction false} CuttingIsInvisibleIff(c: seq<byte>, capacity: nat)
    requires |c| <= capacity
    ensures CuttingIsInvisible(c, capacity) <==> CutSafe(c)
  {
    if CutSafe(c) {
      forall pieces | Cuts(pieces, c) ensures Reads([], pieces, capacity) == Process(c) {
        SafeCutting(c, pieces, capacity);
      }
    } else {
      var pieces := UnsafeReads(c, capacity);
    }
  }

  /** The condition read off a call: all commands handled are well-formed, and after a
      byte was skipped the rest waits. */
  lemma {:induction false} CutSafeSeen(c: seq<byte>)
    ensures CutSafe(c)
       <==> AllWellFormed(Process(c).handled) && (Process(c).skipped ==> Look(Process(c).rest).Wait?)
    decreases |c|
  {
    if Look(c).Handle? {
      var rest := c[Look(c).size..];
      CutSafeSeen(rest);
      SeenIsComplete(c);
      FirstOfAll(Seen(c), Process(rest).handled);
    }
  }

  lemma FirstOfAll(first: seq<byte>, later: seq<seq<byte>>)
    ensures AllWellFormed([first] + later) <==> WellFormed(first) && AllWellFormed(later)
  {
    assert ([first] + later)[0] == first;
    forall k | 0 <= k < |later| ensures ([first] + later)[k + 1] == later[k] {
    }
  }

  /** For bytes that do not begin with the label of a supported command, the cut matters
      exactly when the call that skips one of them would find more to do. */
  lemma {:induction false} ChunkingMattersIff(t: seq<byte>, capacity: nat)
    requires |t| <= capacity && Look(t).Skip?
    ensures CuttingIsInvisible(t, capacity) <==> |t| < 5 || Look(t[1..]).Wait?
  {
    CuttingIsInvisibleIff(t, capacity);
    assert |t[1..]| == |t| - 1;
  }

  const FOUR_X: seq<byte> := [88, 88, 88, 88]
  const ONE_X: seq<byte> := [88]

  /** Five bytes that show it. */
  lemma {:induction false} ChunkingMattersOtherwise(capacity: nat)
    requires capacity >= 5
    ensures !CuttingIsInvisible(FOUR_X + ONE_X, capacity)
    ensures OnRequest([], FOUR_X + ONE_X, capacity).rest == FOUR_X
    ensures OnRequest(OnRequest([], FOUR_X, capacity).rest, ONE_X, capacity).rest == [88, 88, 88]
  {
    var x5 := FOUR_X + ONE_X;
    assert FOUR_X[1..] == [88, 88, 88] && FOUR_X[1..] + ONE_X == FOUR_X;
    assert [] + FOUR_X == FOUR_X && [] + x5 == x5 && x5[1..] == FOUR_X;
    NoLabel(FOUR_X);
    NoLabel(x5);
    ChunkingMattersIff(x5, capacity);
  }

  lemma NoLabel(c: seq<byte>)
    requires FOUR_X <= c
    ensures Look(c).Skip?
  {
    assert c[..4] == FOUR_X && FOUR_X[0] == 88;
  }

  // ---------- In memory ----------

  datatype Failure = TooSmallForFixedPart | TooSmall | TooBig | MissingLabel

  datatype Result<+T> = Ok(value: T) | Err(error: Failure)

  /** The contents of a command's buffer: as received, with the size field turned
      into the host's little-endian order. */
  function HostOrder(c: seq<byte>): (r: seq<byte>)
    requires |c| >= HEADER_SIZE
    ensures |r| == |c|
  {
    c[..4] + [c[7], c[6], c[5], c[4]] + c[8..]
  }

  /** The size the host reads from the converted field is the size that was declared. */
  lemma HostOrderKeepsSize(c: seq<byte>)
    requires |c| >= HEADER_SIZE
    ensures LittleEndian(HostOrder(c)[4..8]) == BigEndian(c[4..8])
    ensures HostOrder(c)[..4] == c[..4]
  {
  }

  /** What was received can be read back from a converted buffer. */
  lemma HostOrderTwice(b: seq<byte>, c: seq<byte>)
    requires HEADER_SIZE <= |b| <= |c| && forall i :: 0 <= i < |b| ==> b[i] == HostOrder(c)[i]
    ensures HostOrder(b) == c[..|b|]
    ensures LittleEndian(b[4..8]) == BigEndian(c[4..8])
  {
    assert b[4..8] == HostOrder(c)[4..8];
  }

  class InboundCommand {

    static method IsEnoughData(ring: Ring) returns (enough: bool)
      requires ring.Valid()
      ensures enough == IsEnough(ring.View())
    {
      enough := false;
      if LABEL_SIZE + 4 <= ring.size {
        var b4 := ring.Get(4);
        var b5 := ring.Get(5);
        var b6 := ring.Get(6);
        var b7 := ring.Get(7);
        assert ring.View()[4..8] == [b4, b5, b6, b7];
        enough := LABEL_SIZE + 4 + BigEndian([b4, b5, b6, b7]) <= ring.size;
      }
    }

    /** Copies bytes `from` to `to` of the ring to the same places in the buffer. */
    static method Copy(ring: Ring, ghost c: seq<byte>, buffer: array<byte>, from: nat, to: nat)
      requires ring.Valid() && c == ring.View() && from <= |c| && to <= |c| <= buffer.Length && buffer != ring.storage
      modifies buffer
      ensures forall k :: 0 <= k < buffer.Length ==>
                buffer[k] == if from <= k < to then c[k] else old(buffer[k])
    {
      var i := from;
      while i < to
        invariant from <= i <= |c| && (i <= to || i == from)
        invariant forall k :: 0 <= k < buffer.Length ==>
                    buffer[k] == if from <= k < i then c[k] else old(buffer[k])
      {
        var x := ring.Get(i);
        buffer[i] := x;
        i := i + 1;
      }
    }

    /** Copies the fixed part and turns the size field into the host's order. */
    static method CopyFixed(ring: Ring, ghost c: seq<byte>, buffer: array<byte>, fixed: nat)
      requires ring.Valid() && c == ring.View() && buffer != ring.storage
      requires HEADER_SIZE <= fixed <= |c| <= buffer.Length
      modifies buffer
      ensures forall i :: 0 <= i < fixed ==> buffer[i] == HostOrder(c)[i]
    {
      Copy(ring, c, buffer, 0, fixed);
      buffer[4], buffer[5], buffer[6], buffer[7] := buffer[7], buffer[6], buffer[5], buffer[4];
    }

    /** Deserialises the command at the beginning of the ring. Every index is inside the
        ring's contents and the command's buffer, and the size can never be too big. */
    static method Deserialize(ring: Ring, fixed: nat, name: seq<byte>) returns (r: Result<array<byte>>)
      requires ring.Valid() && fixed >= HEADER_SIZE
      ensures match r
              case Err(TooSmallForFixedPart) => fixed > |ring.View()|
              case Err(TooSmall) => fixed <= |ring.View()| && !IsEnough(ring.View())
              case Err(MissingLabel) => fixed <= |ring.View()| && IsEnough(ring.View()) && ring.View()[..4] != name
              case Err(TooBig) => false
              case Ok(buffer) =>
                var c := ring.View();
                && fresh(buffer) && buffer.Length == ring.storage.Length
                && fixed <= |c| && IsEnough(c) && c[..4] == name
                && forall i :: 0 <= i < |c| && (i < fixed || i < FrameSize(c)) ==> buffer[i] == HostOrder(c)[i]
    {
      var buffer := new byte[ring.storage.Length];
      ghost var c := ring.View();
      if fixed > ring.size {
        return Err(TooSmallForFixedPart);
      }
      var enough := IsEnoughData(ring);
      if !enough {
        return Err(TooSmall);
      }
      CopyFixed(ring, c, buffer, fixed);
      HostOrderKeepsSize(c);
      assert buffer[4..8] == HostOrder(c)[4..8];
      var messageSize := LittleEndian(buffer[4..8]) + 4 + 4;
      assert messageSize == FrameSize(c);
      if messageSize > buffer.Length {
        assert false;
        return Err(TooBig);
      }
      Copy(ring, c, buffer, fixed, messageSize);
      assert buffer[..4] == c[..4];
      if buffer[..4] != name {
        return Err(MissingLabel);
      }
      r := Ok(buffer);
    }

    static method GetSize(buffer: array<byte>) returns (size: nat)
      requires buffer.Length >= HEADER_SIZE
      ensures size == LittleEndian(buffer[4..8]) + HEADER_SIZE
    {
      size := LittleEndian(buffer[4..8]) + 4 + 4;
    }
  }

  lemma AfterOne(handled: seq<seq<byte>>, c: seq<byte>)
    ensures After(handled, Process(c))
         == match Look(c)
            case Wait => Outcome(handled, c, false, false)
            case Skip => Outcome(handled, c[1..], true, false)
            case Reject => Outcome(handled, [], false, true)
            case Handle(n) => After(handled + [Seen(c)], Process(c[n..]))
  {
    if Look(c).Handle? {
      AfterAppend(handled, Seen(c), Process(c[Look(c).size..]));
    }
  }

  lemma AfterAppend(handled: seq<seq<byte>>, first: seq<byte>, later: Outcome)
    ensures After(handled, After([first], later)) == After(handled + [first], later)
  {
    assert handled + ([first] + later.handled) == handled + [first] + later.handled;
  }

  class Receiver {
    const commandRingBuffer: Ring

    constructor (capacity: nat)
      ensures commandRingBuffer.Valid() && fresh(commandRingBuffer) && fresh(commandRingBuffer.storage)
      ensures commandRingBuffer.storage.Length == capacity && commandRingBuffer.View() == []
    {
      commandRingBuffer := new Ring(capacity);
    }

    method Opcode() returns (opcode: seq<byte>)
      requires commandRingBuffer.Valid() && commandRingBuffer.size >= LABEL_SIZE
      ensures opcode == commandRingBuffer.View()[..4]
    {
      var b0 := commandRingBuffer.Get(0);
      var b1 := commandRingBuffer.Get(1);
      var b2 := commandRingBuffer.Get(2);
      var b3 := commandRingBuffer.Get(3);
      opcode := [b0, b1, b2, b3];
    }

    /** One round of the loop. What is handled is the bytes its handler can see. */
    method HandleOne() returns (processedSize: nat, handled: seq<byte>, failed: bool)
      requires commandRingBuffer.Valid()
      modifies commandRingBuffer
      ensures commandRingBuffer.Valid()
      ensures var c := old(commandRingBuffer.View());
              match Look(c)
              case Wait => processedSize == 0 && !failed && commandRingBuffer.View() == c
              case Skip => processedSize == 0 && !failed && commandRingBuffer.View() == c[1..]
              case Reject => processedSize == 0 && failed && commandRingBuffer.View() == []
              case Handle(n) =>
                processedSize == n && !failed && commandRingBuffer.View() == c[n..] && handled == Seen(c)
    {
      processedSize, handled, failed := 0, [], false;
      if LABEL_SIZE <= commandRingBuffer.size {
        var opcode := Opcode();
        var found := FixedSize(opcode);
        if found.None? {
          commandRingBuffer.Pop();
        } else {
          var enough := InboundCommand.IsEnoughData(commandRingBuffer);
          if enough {
            processedSize, handled, failed := Dispatch(found.value, opcode);
          }
        }
      }
    }

    /** Deserialises a command that is complete and drops its bytes. */
    method Dispatch(fixed: nat, opcode: seq<byte>) returns (processedSize: nat, handled: seq<byte>, failed: bool)
      requires commandRingBuffer.Valid() && IsEnough(commandRingBuffer.View())
      requires opcode == commandRingBuffer.View()[..4] && fixed >= HEADER_SIZE
      modifies commandRingBuffer
      ensures commandRingBuffer.Valid()
      ensures var c := old(commandRingBuffer.View());
              if fixed > |c| then processedSize == 0 && failed && commandRingBuffer.View() == []
              else
                && processedSize == FrameSize(c) && !failed && commandRingBuffer.View() == c[processedSize..]
                && handled == c[..if fixed > processedSize then fixed else processedSize]
    {
      ghost var c := commandRingBuffer.View();
      processedSize, handled, failed := 0, [], false;
      var command := InboundCommand.Deserialize(commandRingBuffer, fixed, opcode);
      if command.Err? {
        commandRingBuffer.Clear();
        failed := true;
      } else {
        HostOrderTwice(command.value[..HEADER_SIZE], c);
        assert command.value[..HEADER_SIZE][4..8] == command.value[4..8];
        processedSize := InboundCommand.GetSize(command.value);
        var seen := if fixed > processedSize then fixed else processedSize;
        HostOrderTwice(command.value[..seen], c);
        handled := HostOrder(command.value[..seen]);
        PopAll(processedSize);
      }
    }

    method PopAll(n: nat)
      requires commandRingBuffer.Valid() && n <= |commandRingBuffer.View()|
      modifies commandRingBuffer
      ensures commandRingBuffer.Valid() && commandRingBuffer.View() == old(commandRingBuffer.View())[n..]
    {
      for i := 0 to n
        invariant commandRingBuffer.Valid() && commandRingBuffer.View() == old(commandRingBuffer.View())[i..]
      {
        commandRingBuffer.Pop();
      }
    }

    /** Adds received bytes to the ring, then handles commands until there are none;
        an exception leaves the ring empty. */
    method Receive(buffer: seq<byte>) returns (handled: seq<seq<byte>>, failed: bool)
      requires commandRingBuffer.Valid()
      modifies commandRingBuffer, commandRingBuffer.storage
      ensures commandRingBuffer.Valid()
      ensures var o := OnRequest(old(commandRingBuffer.View()), buffer, commandRingBuffer.storage.Length);
              handled == o.handled && failed == o.failed && commandRingBuffer.View() == o.rest
    {
      commandRingBuffer.PushAll(buffer);
      ghost var o := Process(commandRingBuffer.View());
      handled, failed := [], false;
      var processedSize := 1;
      while processedSize > 0
        invariant commandRingBuffer.Valid()
        invariant if processedSize > 0 then !failed && After(handled, Process(commandRingBuffer.View())) == o
                  else handled == o.handled && failed == o.failed && commandRingBuffer.View() == o.rest
        decreases |commandRingBuffer.View()|, processedSize
      {
        ghost var c := commandRingBuffer.View();
        var command;
        processedSize, command, failed := HandleOne();
        AfterOne(handled, c);
        if processedSize > 0 {
          handled := handled + [command];
        }
      }
    }
  }
}
