/** The sequential queue that the lock-free one must be indistinguishable from. */
module BoundedFifo {
  import opened Common

  datatype Fifo<T> = Fifo(capacity: nat, items: seq<T>)

  /** What a completed queue operation reports to its caller. */
  datatype Outcome<T> =
    | Nothing
    | Pushed(item: T)
    | Overflowed
    | Popped(item: T)
    | Rejected(item: T)
    | Underflowed

  /** The outcome is one the sequential queue could report now. */
  predicate Allowed<T(==)>(f: Fifo<T>, o: Outcome<T>) {
    match o
    case Nothing => true
    case Pushed(_) => |f.items| < f.capacity
    case Overflowed => |f.items| == f.capacity
    case Popped(v) => f.items != [] && f.items[0] == v
    case Rejected(v) => f.items != [] && f.items[0] == v
    case Underflowed => f.items == []
  }

  function Apply<T(==)>(f: Fifo<T>, o: Outcome<T>): Fifo<T>
    requires Allowed(f, o)
  {
    match o
    case Pushed(v) => f.(items := f.items + [v])
    case Popped(_) => f.(items := f.items[1..])
    case _ => f
  }

  /** The queue after a history of outcomes, unless the history is impossible. */
  function Replay<T(==)>(f: Fifo<T>, history: seq<Outcome<T>>): Option<Fifo<T>>
    decreases |history|
  {
    if history == [] then Some(f)
    else if Allowed(f, history[0]) then Replay(Apply(f, history[0]), history[1..])
    else None
  }
}

/** A single-producer single-consumer ring without locks, as interleaved atomic
    steps of its two threads. */
module RealTimeQueue {
  import opened Common
  import opened MachineWord
  import opened BoundedFifo

  /** How far the producer thread is inside `enqueue`. */
  datatype ProducerAt<T> =
    | ProducerIdle
    | HeadLoaded(head: nat)
    | MayWrite(head: nat)
    | Written(head: nat, item: T)

  /** How far the consumer thread is inside `dequeue`. */
  datatype ConsumerAt<T> =
    | ConsumerIdle
    | TailLoaded(tail: nat)
    | MayRead(tail: nat)
    | Read(tail: nat, item: T)

  /** The shared memory, both program counters, and the history of items
      published and released. */
  datatype Queue<T> = Queue(
    size: nat,
    slots: seq<T>,
    head: nat,
    tail: nat,
    producer: ProducerAt<T>,
    consumer: ConsumerAt<T>,
    enqueued: seq<T>,
    dequeued: seq<T>)

  /** One atomic step of one thread. The item and the verdicts are those of the
      `mover` callbacks; a step that does not run the callback ignores them. */
  datatype Step<T> =
    | Produce(item: T, accepted: bool)
    | Consume(accepted: bool)

  function Mask(size: nat): nat
    requires size > 0
  {
    size - 1
  }

  function Slot(index: nat, size: nat): nat
    requires size > 0
  {
    BitAnd(index, Mask(size))
  }

  ghost predicate WellSized<T>(q: Queue<T>) {
    && IsPowerOfTwo(q.size)
    && 0 < q.size < WORD
    && |q.slots| == q.size
    && q.head < WORD && q.tail < WORD
    && (q.producer.ProducerIdle? || q.producer.head < WORD)
    && (q.consumer.ConsumerIdle? || q.consumer.tail < WORD)
  }

  /** The constructor's assertion, `(size != 0) && ((size & (~size + 1)) == size)`. */
  predicate SizeAsserted(size: nat)
    requires size < WORD
  {
    size != 0 && BitAnd(size, WrapInc(WORD - 1 - size)) == size
  }

  /** The assertion admits exactly the powers of two. */
  lemma AssertedSizes(size: nat)
    requires size < WORD
    ensures SizeAsserted(size) <==> IsPowerOfTwo(size)
  {
    WordIsPow2();
    if size > 0 {
      LowestBitTest(size, 64);
    } else {
      forall k: nat ensures Pow2(k) != 0 {
      }
    }
  }

  /** The constructed queue: nothing enqueued. */
  function Empty<T>(slots: seq<T>): Queue<T> {
    Queue(|slots|, slots, 0, 0, ProducerIdle, ConsumerIdle, [], [])
  }

  function ProducerStep<T>(q: Queue<T>, item: T, accepted: bool): (r: (Queue<T>, Outcome<T>))
    requires WellSized(q)
    ensures WellSized(r.0) && r.0.size == q.size
  {
    match q.producer
    case ProducerIdle =>
      (q.(producer := HeadLoaded(q.head)), Nothing)
    case HeadLoaded(h) =>
      if BitAnd(WrapSub(q.tail, WrapInc(h)), Mask(q.size)) >= 1 then
        (q.(producer := MayWrite(h)), Nothing)
      else
        (q.(producer := ProducerIdle), Overflowed)
    case MayWrite(h) =>
      SlotInRange(q, h);
      var written := q.(slots := q.slots[Slot(h, q.size) := item]);
      if accepted then (written.(producer := Written(h, item)), Nothing)
      else (written.(producer := ProducerIdle), Nothing)
    case Written(h, published) =>
      (q.(head := WrapInc(h), producer := ProducerIdle, enqueued := q.enqueued + [published]), Pushed(published))
  }

  function ConsumerStep<T>(q: Queue<T>, accepted: bool): (r: (Queue<T>, Outcome<T>))
    requires WellSized(q)
    ensures WellSized(r.0) && r.0.size == q.size
  {
    match q.consumer
    case ConsumerIdle =>
      (q.(consumer := TailLoaded(q.tail)), Nothing)
    case TailLoaded(t) =>
      if BitAnd(WrapSub(q.head, t), Mask(q.size)) >= 1 then
        (q.(consumer := MayRead(t)), Nothing)
      else
        (q.(consumer := ConsumerIdle), Underflowed)
    case MayRead(t) =>
      SlotInRange(q, q.tail);
      var item := q.slots[Slot(q.tail, q.size)];
      if accepted then (q.(consumer := Read(t, item)), Nothing)
      else (q.(consumer := ConsumerIdle), Rejected(item))
    case Read(t, item) =>
      (q.(tail := WrapInc(t), consumer := ConsumerIdle, dequeued := q.dequeued + [item]), Popped(item))
  }

  function Next<T>(q: Queue<T>, step: Step<T>): (r: (Queue<T>, Outcome<T>))
    requires WellSized(q)
    ensures WellSized(r.0) && r.0.size == q.size
  {
    match step
    case Produce(item, accepted) => ProducerStep(q, item, accepted)
    case Consume(accepted) => ConsumerStep(q, accepted)
  }

  /** The number of items published so far but not yet released. */
  function Occupancy<T>(q: Queue<T>): int {
    |q.enqueued| - |q.dequeued|
  }

  /** What holds between any two atomic steps. The indices are the lengths of the
      histories, wrapped to a machine word; every item between them is in its slot. */
  ghost predicate Inv<T>(q: Queue<T>) {
    && WellSized(q)
    && q.head == |q.enqueued| % WORD
    && q.tail == |q.dequeued| % WORD
    && 0 <= Occupancy(q) <= q.size - 1
    && q.dequeued == q.enqueued[..|q.dequeued|]
    && (forall i :: |q.dequeued| <= i < |q.enqueued| ==> q.slots[i % q.size] == q.enqueued[i])
    && ProducerInv(q)
    && ConsumerInv(q)
  }

  ghost predicate ProducerInv<T>(q: Queue<T>)
    requires WellSized(q)
  {
    match q.producer
    case ProducerIdle => true
    case HeadLoaded(h) => h == q.head
    case MayWrite(h) => h == q.head && Occupancy(q) <= q.size - 2
    case Written(h, item) =>
      && h == q.head
      && Occupancy(q) <= q.size - 2
      && q.slots[|q.enqueued| % q.size] == item
  }

  ghost predicate ConsumerInv<T>(q: Queue<T>) {
    match q.consumer
    case ConsumerIdle => true
    case TailLoaded(t) => t == q.tail
    case MayRead(t) => t == q.tail && Occupancy(q) >= 1
    case Read(t, item) => t == q.tail && Occupancy(q) >= 1 && item == q.enqueued[|q.dequeued|]
  }

  // ---------- Index arithmetic ----------

  /** A machine word is a whole number of rings. */
  lemma WordIsRings(size: nat) returns (rings: nat)
    requires IsPowerOfTwo(size) && 0 < size < WORD
    ensures rings > 0 && WORD == size * rings
  {
    var k: nat :| size == Pow2(k);
    WordIsPow2();
    if k >= 64 {
      Pow2Split(64, k - 64);
      MulAtLeast(Pow2(64), Pow2(k - 64));
      assert false;
    }
    rings := Pow2(64 - k);
    Pow2Split(k, 64 - k);
  }

  /** Wrapping an absolute index to a word and masking it selects its slot. */
  lemma MaskedIndex(n: nat, size: nat)
    requires IsPowerOfTwo(size) && 0 < size < WORD
    ensures Slot(n % WORD, size) == n % size
  {
    var rings := WordIsRings(size);
    ModOfMod(n, size, rings);
    var k: nat :| size == Pow2(k);
    MaskIsMod(n % WORD, k);
  }

  /** Masking the wrapped difference of two wrapped indices gives their distance
      modulo the ring. */
  lemma MaskedDistance(n: nat, m: nat, size: nat)
    requires IsPowerOfTwo(size) && 0 < size < WORD
    ensures BitAnd(WrapSub(n % WORD, m % WORD), Mask(size)) == (n - m) % size
  {
    var w := WORD;
    var rings := WordIsRings(size);
    var k: nat :| size == Pow2(k);
    var a, b := n % w, m % w;
    var turns := DistanceInTurns(n, m, w, size, rings);
    ModShift(a + w - b, size, turns);
    ModOfMod(a + w - b, size, rings);
    MaskIsMod(WrapSub(a, b), k);
  }

  lemma DistanceInTurns(n: nat, m: nat, w: nat, size: nat, rings: nat) returns (turns: int)
    requires w > 0 && w == size * rings
    ensures n - m == (n % w + w - m % w) + size * turns
  {
    var qn, qm := n / w, m / w;
    turns := rings * qn - rings * qm - rings;
    assert n == w * qn + n % w && m == w * qm + m % w;
    MulAssoc(size, rings, qn);
    MulAssoc(size, rings, qm);
    assert size * turns == size * (rings * qn) - size * (rings * qm) - size * rings;
  }

  lemma WrapIncWraps(n: nat)
    ensures WrapInc(n % WORD) == (n + 1) % WORD
  {
    var w := WORD;
    var q, r := n / w, n % w;
    assert n + 1 == (r + 1) + w * q;
    ModShift(r + 1, w, q);
  }

  lemma SmallMod(d: int, size: nat)
    requires 0 <= d < size
    ensures d % size == d
  {
  }

  /** Two different indices less than a ring apart use different slots. */
  lemma DistinctSlots(i: nat, j: nat, size: nat)
    requires i < j < i + size
    ensures i % size != j % size
  {
    var a := j / size - i / size;
    if i % size == j % size {
      assert j - i == size * a;
      if a >= 1 {
        MulAtLeast(size, a);
      } else if a < 0 {
        MulAtLeast(size, -a);
      }
    }
  }

  lemma SlotInRange<T>(q: Queue<T>, index: nat)
    requires WellSized(q)
    ensures 0 <= Slot(index, q.size) < |q.slots|
  {
    var k: nat :| q.size == Pow2(k);
    MaskIsMod(index, k);
  }

  // ---------- One step ----------

  lemma ProducerStepKeepsInv<T>(q: Queue<T>, item: T, accepted: bool)
    requires Inv(q)
    ensures Inv(ProducerStep(q, item, accepted).0)
  {
    match q.producer {
      case ProducerIdle =>
      case HeadLoaded(h) => ProducerSeesRoom(q);
      case MayWrite(h) => WritingKeepsInv(q, item, accepted);
      case Written(h, published) => WrapIncWraps(|q.enqueued|);
    }
  }

  /** The slot written holds no item that is published and not released. */
  lemma WritingKeepsInv<T>(q: Queue<T>, item: T, accepted: bool)
    requires Inv(q) && q.producer.MayWrite?
    ensures Inv(ProducerStep(q, item, accepted).0)
  {
    var n, m := |q.enqueued|, |q.dequeued|;
    MaskedIndex(n, q.size);
    forall i | m <= i < n ensures i % q.size != n % q.size {
      DistinctSlots(i, n, q.size);
    }
  }

  /** The producer's test is exact: it passes when a slot is free, and only then. */
  lemma ProducerSeesRoom<T>(q: Queue<T>)
    requires Inv(q)
    ensures BitAnd(WrapSub(q.tail, WrapInc(q.head)), Mask(q.size)) >= 1 <==> Occupancy(q) < q.size - 1
  {
    var n, m, s := |q.enqueued|, |q.dequeued|, q.size;
    WrapIncWraps(n);
    MaskedDistance(m, n + 1, s);
    ModShift(m - (n + 1), s, 1);
    SmallMod(m - (n + 1) + s, s);
  }

  /** The consumer's test is exact: it passes when an item is there, and only then. */
  lemma ConsumerSeesItem<T>(q: Queue<T>)
    requires Inv(q)
    ensures BitAnd(WrapSub(q.head, q.tail), Mask(q.size)) >= 1 <==> Occupancy(q) >= 1
  {
    MaskedDistance(|q.enqueued|, |q.dequeued|, q.size);
    SmallMod(Occupancy(q), q.size);
  }

  lemma ConsumerStepKeepsInv<T>(q: Queue<T>, accepted: bool)
    requires Inv(q)
    ensures Inv(ConsumerStep(q, accepted).0)
  {
    var m := |q.dequeued|;
    match q.consumer {
      case ConsumerIdle =>
      case TailLoaded(t) =>
        ConsumerSeesItem(q);
      case MayRead(t) =>
        MaskedIndex(m, q.size);
      case Read(t, item) =>
        WrapIncWraps(m);
        assert q.enqueued[..m + 1] == q.enqueued[..m] + [item];
    }
  }

  /** The items between the two indices, read from the slots. */
  function Contents<T>(q: Queue<T>): Fifo<T>
    requires WellSized(q)
  {
    Fifo(q.size - 1,
         seq(BitAnd(WrapSub(q.head, q.tail), Mask(q.size)), i requires 0 <= i => q.slots[(q.tail + i) % q.size]))
  }

  lemma ContentsArePending<T>(q: Queue<T>)
    requires Inv(q)
    ensures Contents(q) == Fifo(q.size - 1, q.enqueued[|q.dequeued|..])
  {
    var n, m, s := |q.enqueued|, |q.dequeued|, q.size;
    MaskedDistance(n, m, s);
    SmallMod(n - m, s);
    var items := Contents(q).items;
    forall i | 0 <= i < n - m ensures items[i] == q.enqueued[m + i] {
      assert items[i] == q.slots[(q.tail + i) % s];
      var rings := WordIsRings(s);
      var turns := m / WORD;
      assert m + i == (q.tail + i) + s * (rings * turns) by {
        MulAssoc(s, rings, turns);
      }
      ModShift(q.tail + i, s, rings * turns);
    }
  }

  /** Every atomic step keeps the invariant, and what it reports is a step of the
      sequential queue: overflow is reported only when that queue is full,
      underflow only when it is empty, and a rejected item stays at its front. */
  lemma StepRefines<T>(q: Queue<T>, step: Step<T>)
    requires Inv(q)
    ensures Inv(Next(q, step).0)
    ensures Allowed(Contents(q), Next(q, step).1)
    ensures Contents(Next(q, step).0) == Apply(Contents(q), Next(q, step).1)
  {
    match step {
      case Produce(item, accepted) => ProducerStepRefines(q, item, accepted);
      case Consume(accepted) => ConsumerStepRefines(q, accepted);
    }
  }

  lemma ProducerStepRefines<T>(q: Queue<T>, item: T, accepted: bool)
    requires Inv(q)
    ensures var (q', o) := ProducerStep(q, item, accepted);
            Inv(q') && Allowed(Contents(q), o) && Contents(q') == Apply(Contents(q), o)
  {
    ProducerStepKeepsInv(q, item, accepted);
    ContentsArePending(q);
    ContentsArePending(ProducerStep(q, item, accepted).0);
    if q.producer.HeadLoaded? {
      ProducerSeesRoom(q);
    }
  }

  lemma ConsumerStepRefines<T>(q: Queue<T>, accepted: bool)
    requires Inv(q)
    ensures var (q', o) := ConsumerStep(q, accepted);
            Inv(q') && Allowed(Contents(q), o) && Contents(q') == Apply(Contents(q), o)
  {
    ConsumerStepKeepsInv(q, accepted);
    ContentsArePending(q);
    ContentsArePending(ConsumerStep(q, accepted).0);
    match q.consumer {
      case ConsumerIdle =>
      case TailLoaded(t) => ConsumerSeesItem(q);
      case MayRead(t) => MaskedIndex(|q.dequeued|, q.size);
      case Read(t, item) => assert q.enqueued[|q.dequeued| + 1..] == q.enqueued[|q.dequeued|..][1..];
    }
  }

  // ---------- Whole runs ----------

  /** Any interleaving of the two threads' steps. */
  function Run<T>(q: Queue<T>, schedule: seq<Step<T>>): (r: Queue<T>)
    requires WellSized(q)
    ensures WellSized(r) && r.size == q.size
    decreases |schedule|
  {
    if schedule == [] then q else Run(Next(q, schedule[0]).0, schedule[1..])
  }

  /** What the operations of a run reported, in the order of the reports. */
  function History<T>(q: Queue<T>, schedule: seq<Step<T>>): seq<Outcome<T>>
    requires WellSized(q)
    decreases |schedule|
  {
    if schedule == [] then []
    else [Next(q, schedule[0]).1] + History(Next(q, schedule[0]).0, schedule[1..])
  }

  /** The lock-free queue is linearizable: the reports of any interleaving are a
      history of the sequential bounded queue, which ends with the same contents. */
  lemma {:induction false} Linearizable<T>(q: Queue<T>, schedule: seq<Step<T>>)
    requires Inv(q)
    ensures Inv(Run(q, schedule))
    ensures Replay(Contents(q), History(q, schedule)) == Some(Contents(Run(q, schedule)))
    decreases |schedule|
  {
    if schedule != [] {
      var (q', o) := Next(q, schedule[0]);
      StepRefines(q, schedule[0]);
      Linearizable(q', schedule[1..]);
      assert History(q, schedule)[0] == o;
      assert History(q, schedule)[1..] == History(q', schedule[1..]);
    }
  }

  /** From the constructed queue, whatever the interleaving and however often the
      indices wrap: what was dequeued is a prefix of what was enqueued, what is
      left is in the slots, and at most size - 1 items are held. */
  lemma {:induction false} FifoOnEveryRun<T>(slots: seq<T>, schedule: seq<Step<T>>)
    requires |slots| < WORD && SizeAsserted(|slots|)
    ensures WellSized(Empty(slots))
    ensures var q := Run(Empty(slots), schedule);
            && WellSized(q)
            && q.enqueued == q.dequeued + Contents(q).items
            && |Contents(q).items| <= |slots| - 1
  {
    AssertedSizes(|slots|);
    Linearizable(Empty(slots), schedule);
    ContentsArePending(Run(Empty(slots), schedule));
  }

  /** In every reachable state the slot the producer may be writing is not the
      slot the consumer may be reading. */
  lemma {:induction false} NoSlotShared<T>(slots: seq<T>, schedule: seq<Step<T>>)
    requires |slots| < WORD && SizeAsserted(|slots|)
    ensures WellSized(Empty(slots))
    ensures var q := Run(Empty(slots), schedule);
            (q.producer.MayWrite? || q.producer.Written?) && (q.consumer.MayRead? || q.consumer.Read?)
            ==> q.size > 0 && Slot(q.producer.head, q.size) != Slot(q.consumer.tail, q.size)
  {
    AssertedSizes(|slots|);
    Linearizable(Empty(slots), schedule);
    var q := Run(Empty(slots), schedule);
    if (q.producer.MayWrite? || q.producer.Written?) && (q.consumer.MayRead? || q.consumer.Read?) {
      MaskedIndex(|q.enqueued|, q.size);
      MaskedIndex(|q.dequeued|, q.size);
      DistinctSlots(|q.dequeued|, |q.enqueued|, q.size);
    }
  }

  // ---------- From the callers' items to the queue's ----------

  /** The item, if any, that a step's callback moved into a slot and accepted. */
  function Gives<T>(q: Queue<T>, step: Step<T>): seq<T> {
    if q.producer.MayWrite? && step.Produce? && step.accepted then [step.item] else []
  }

  /** The item, if any, that a step's callback was shown in a slot and accepted. */
  function Takes<T>(q: Queue<T>, step: Step<T>): seq<T>
    requires WellSized(q)
  {
    SlotInRange(q, q.tail);
    if q.consumer.MayRead? && step.Consume? && step.accepted then [q.slots[Slot(q.tail, q.size)]] else []
  }

  function Given<T>(q: Queue<T>, schedule: seq<Step<T>>): seq<T>
    requires WellSized(q)
    decreases |schedule|
  {
    if schedule == [] then []
    else Gives(q, schedule[0]) + Given(Next(q, schedule[0]).0, schedule[1..])
  }

  function Taken<T>(q: Queue<T>, schedule: seq<Step<T>>): seq<T>
    requires WellSized(q)
    decreases |schedule|
  {
    if schedule == [] then []
    else Takes(q, schedule[0]) + Taken(Next(q, schedule[0]).0, schedule[1..])
  }

  /** All that was moved into the queue: what is published, and an item not published yet. */
  function Entered<T>(q: Queue<T>): seq<T> {
    q.enqueued + if q.producer.Written? then [q.producer.item] else []
  }

  /** All that was moved out of it: what is released, and an item not released yet. */
  function Left<T>(q: Queue<T>): seq<T> {
    q.dequeued + if q.consumer.Read? then [q.consumer.item] else []
  }

  lemma StepEnters<T>(q: Queue<T>, step: Step<T>)
    requires Inv(q)
    ensures Entered(Next(q, step).0) == Entered(q) + Gives(q, step)
    ensures Left(Next(q, step).0) == Left(q) + Takes(q, step)
  {
  }

  lemma StepKeepsInv<T>(q: Queue<T>, step: Step<T>)
    requires Inv(q)
    ensures Inv(Next(q, step).0)
  {
    match step {
      case Produce(item, accepted) => ProducerStepKeepsInv(q, item, accepted);
      case Consume(accepted) => ConsumerStepKeepsInv(q, accepted);
    }
  }

  lemma LeftEntered<T>(q: Queue<T>)
    requires Inv(q)
    ensures Left(q) <= Entered(q)
  {
    if q.consumer.Read? {
      assert q.enqueued[..|q.dequeued| + 1] == q.dequeued + [q.consumer.item];
    }
  }

  /** On every run the items given and accepted are the items that entered the queue, in
      order, and the items shown and taken are the first of them. */
  lemma {:induction false} GivenIsTaken<T>(q: Queue<T>, schedule: seq<Step<T>>)
    requires Inv(q)
    ensures Entered(Run(q, schedule)) == Entered(q) + Given(q, schedule)
    ensures Left(Run(q, schedule)) == Left(q) + Taken(q, schedule)
    ensures Left(Run(q, schedule)) <= Entered(Run(q, schedule))
    decreases |schedule|
  {
    if schedule == [] {
      LeftEntered(q);
    } else {
      var q' := Next(q, schedule[0]).0;
      StepKeepsInv(q, schedule[0]);
      StepEnters(q, schedule[0]);
      GivenIsTaken(q', schedule[1..]);
      Regroup(Entered(q), Gives(q, schedule[0]), Given(q', schedule[1..]));
      Regroup(Left(q), Takes(q, schedule[0]), Taken(q', schedule[1..]));
    }
  }

  lemma Regroup<T>(a: seq<T>, b: seq<T>, c: seq<T>)
    ensures a + b + c == a + (b + c)
  {
  }

  /** From the constructed queue: what consumers took is the beginning of what producers
      gave, in the same order, however the threads interleave. */
  lemma {:induction false} TakenAreTheFirstGiven<T>(slots: seq<T>, schedule: seq<Step<T>>)
    requires |slots| < WORD && SizeAsserted(|slots|)
    ensures WellSized(Empty(slots))
    ensures Taken(Empty(slots), schedule) <= Given(Empty(slots), schedule)
    ensures var q := Run(Empty(slots), schedule);
            Given(Empty(slots), schedule) == Entered(q) && Taken(Empty(slots), schedule) == Left(q)
  {
    AssertedSizes(|slots|);
    var empty := Empty(slots);
    GivenIsTaken(empty, schedule);
    assert Entered(empty) == [] && Left(empty) == [];
    assert [] + Given(empty, schedule) == Given(empty, schedule);
    assert [] + Taken(empty, schedule) == Taken(empty, schedule);
  }

  // ---------- Operations complete ----------

  /** The number of its four steps that an `enqueue` has behind it. */
  function ProducerSteps<T>(q: Queue<T>): nat {
    match q.producer
    case ProducerIdle => 0
    case HeadLoaded(_) => 1
    case MayWrite(_) => 2
    case Written(_, _) => 3
  }

  function ConsumerSteps<T>(q: Queue<T>): nat {
    match q.consumer
    case ConsumerIdle => 0
    case TailLoaded(_) => 1
    case MayRead(_) => 2
    case Read(_, _) => 3
  }

  function CountProduce<T>(schedule: seq<Step<T>>): nat {
    if schedule == [] then 0 else (if schedule[0].Produce? then 1 else 0) + CountProduce(schedule[1..])
  }

  function CountConsume<T>(schedule: seq<Step<T>>): nat {
    if schedule == [] then 0 else (if schedule[0].Consume? then 1 else 0) + CountConsume(schedule[1..])
  }

  /** An `enqueue` that finds room and is accepted publishes its item with its fourth step,
      whatever the consumer does in between. */
  lemma {:induction false} EnqueueCompletes<T>(q: Queue<T>, item: T, schedule: seq<Step<T>>)
    requires Inv(q) && (q.producer.Written? ==> q.producer.item == item)
    requires Occupancy(q) < q.size - 1
    requires ProducerSteps(q) + CountProduce(schedule) == 4
    requires forall k :: 0 <= k < |schedule| && schedule[k].Produce? ==> schedule[k] == Produce(item, true)
    ensures var q' := Run(q, schedule);
            q'.enqueued == q.enqueued + [item] && q'.producer.ProducerIdle?
    decreases |schedule|
  {
    var step := schedule[0];
    var q' := Next(q, step).0;
    StepKeepsInv(q, step);
    if step.Produce? && q.producer.HeadLoaded? {
      ProducerSeesRoom(q);
    }
    if step.Produce? && q.producer.Written? {
      NothingEnqueued(q', schedule[1..]);
    } else {
      EnqueueCompletes(q', item, schedule[1..]);
    }
  }

  lemma {:induction false} NothingEnqueued<T>(q: Queue<T>, schedule: seq<Step<T>>)
    requires WellSized(q) && CountProduce(schedule) == 0
    ensures Run(q, schedule).enqueued == q.enqueued && Run(q, schedule).producer == q.producer
    decreases |schedule|
  {
    if schedule != [] {
      NothingEnqueued(Next(q, schedule[0]).0, schedule[1..]);
    }
  }

  /** A `dequeue` that finds an item and is accepted releases the oldest with its fourth
      step, whatever the producer does in between. */
  lemma {:induction false} DequeueCompletes<T>(q: Queue<T>, schedule: seq<Step<T>>)
    requires Inv(q) && Occupancy(q) >= 1
    requires ConsumerSteps(q) + CountConsume(schedule) == 4
    requires forall k :: 0 <= k < |schedule| && schedule[k].Consume? ==> schedule[k].accepted
    ensures var q' := Run(q, schedule);
            q'.dequeued == q.dequeued + [q.enqueued[|q.dequeued|]] && q'.consumer.ConsumerIdle?
    decreases |schedule|
  {
    var step := schedule[0];
    var q' := Next(q, step).0;
    DequeueAdvances(q, step);
    if step.Consume? && q.consumer.Read? {
      NothingDequeued(q', schedule[1..]);
    } else {
      DequeueCompletes(q', schedule[1..]);
    }
  }

  lemma DequeueAdvances<T>(q: Queue<T>, step: Step<T>)
    requires Inv(q) && Occupancy(q) >= 1 && (step.Consume? ==> step.accepted)
    ensures var q' := Next(q, step).0;
            && Inv(q') && q.enqueued <= q'.enqueued
            && if step.Consume? && q.consumer.Read? then
                 q'.dequeued == q.dequeued + [q.enqueued[|q.dequeued|]] && q'.consumer.ConsumerIdle?
               else
                 && q'.dequeued == q.dequeued
                 && ConsumerSteps(q') == ConsumerSteps(q) + if step.Consume? then 1 else 0
  {
    StepKeepsInv(q, step);
    if step.Consume? && q.consumer.TailLoaded? {
      ConsumerSeesItem(q);
    }
  }

  lemma {:induction false} NothingDequeued<T>(q: Queue<T>, schedule: seq<Step<T>>)
    requires WellSized(q) && CountConsume(schedule) == 0
    ensures Run(q, schedule).dequeued == q.dequeued && Run(q, schedule).consumer == q.consumer
    decreases |schedule|
  {
    if schedule != [] {
      NothingDequeued(Next(q, schedule[0]).0, schedule[1..]);
    }
  }

  /** An `enqueue` that looks at a full queue and a `dequeue` that looks at an empty one end
      with that step, reporting so; and either looks with its second step. */
  lemma FullAndEmptyAreReported<T>(q: Queue<T>, item: T, accepted: bool)
    requires Inv(q)
    ensures q.producer == HeadLoaded(q.head) && Occupancy(q) == q.size - 1 ==>
              ProducerStep(q, item, accepted) == (q.(producer := ProducerIdle), Overflowed)
    ensures q.consumer == TailLoaded(q.tail) && Occupancy(q) == 0 ==>
              ConsumerStep(q, accepted) == (q.(consumer := ConsumerIdle), Underflowed)
    ensures q.producer.ProducerIdle? ==> ProducerStep(q, item, accepted).0.producer == HeadLoaded(q.head)
    ensures q.consumer.ConsumerIdle? ==> ConsumerStep(q, accepted).0.consumer == TailLoaded(q.tail)
  {
    ProducerSeesRoom(q);
    ConsumerSeesItem(q);
  }

  /** The queue in memory. Each method call is one atomic step of one thread. */
  class SharedQueue<T> {
    const size: nat
    const mask: nat
    const buffer: array<T>
    var head: nat
    var tail: nat
    var producer: ProducerAt<T>
    var consumer: ConsumerAt<T>
    ghost var enqueued: seq<T>
    ghost var dequeued: seq<T>

    ghost function View(): Queue<T>
      reads this, buffer
    {
      Queue(size, buffer[..], head, tail, producer, consumer, enqueued, dequeued)
    }

    ghost predicate Valid()
      reads this, buffer
    {
      WellSized(View()) && mask == Mask(size)
    }

    constructor (slots: nat, initial: T)
      requires slots < WORD && SizeAsserted(slots)
      ensures Valid() && fresh(buffer)
      ensures View() == Empty(seq(slots, _ => initial)) && Inv(View())
    {
      AssertedSizes(slots);
      size, mask := slots, slots - 1;
      buffer := new T[slots](_ => initial);
      head, tail := 0, 0;
      producer, consumer := ProducerIdle, ConsumerIdle;
      enqueued, dequeued := [], [];
      new;
      assert buffer[..] == seq(slots, _ => initial);
    }

    /** The next step of `enqueue`. */
    method Produce(item: T, accepted: bool) returns (o: Outcome<T>)
      requires Valid()
      modifies this, buffer
      ensures Valid()
      ensures (View(), o) == ProducerStep(old(View()), item, accepted)
    {
      o := Nothing;
      match producer {
        case ProducerIdle =>
          producer := HeadLoaded(head);
        case HeadLoaded(h) =>
          if BitAnd(WrapSub(tail, WrapInc(h)), mask) >= 1 {
            producer := MayWrite(h);
          } else {
            producer := ProducerIdle;
            o := Overflowed;
          }
        case MayWrite(h) =>
          SlotInRange(View(), h);
          buffer[BitAnd(h, mask)] := item;
          producer := if accepted then Written(h, item) else ProducerIdle;
        case Written(h, published) =>
          head := WrapInc(h);
          producer := ProducerIdle;
          enqueued := enqueued + [published];
          o := Pushed(published);
      }
    }

    /** The next step of `dequeue`. */
    method Consume(accepted: bool) returns (o: Outcome<T>)
      requires Valid()
      modifies this
      ensures Valid()
      ensures (View(), o) == ConsumerStep(old(View()), accepted)
    {
      o := Nothing;
      match consumer {
        case ConsumerIdle =>
          consumer := TailLoaded(tail);
        case TailLoaded(t) =>
          if BitAnd(WrapSub(head, t), mask) >= 1 {
            consumer := MayRead(t);
          } else {
            consumer := ConsumerIdle;
            o := Underflowed;
          }
        case MayRead(t) =>
          SlotInRange(View(), tail);
          var item := buffer[BitAnd(tail, mask)];
          if accepted {
            consumer := Read(t, item);
          } else {
            consumer := ConsumerIdle;
            o := Rejected(item);
          }
        case Read(t, item) =>
          tail := WrapInc(t);
          consumer := ConsumerIdle;
          dequeued := dequeued + [item];
          o := Popped(item);
      }
    }
  }
}
