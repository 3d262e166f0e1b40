/** Estimating the network latency and the clock offset of a player. */
module LatencyEstimator {
  import opened Common
  import opened PlaybackTime

  const PROBES: nat := 13
  const SKIPPED: nat := 3
  const ENOUGH: nat := 3

  /** One ping: when it was sent, half the round trip, and the player's clock. */
  datatype Probe = Probe(sendTimestamp: int, latency: int, clientTimestamp: int)

  // ---------- The median ----------

  /** How many probes are at most, and how many are less than, a latency. */
  function AtMost(probes: seq<Probe>, latency: int): (n: nat)
    ensures n <= |probes|
  {
    if probes == [] then 0
    else AtMost(probes[..|probes| - 1], latency) + if probes[|probes| - 1].latency <= latency then 1 else 0
  }

  function Below(probes: seq<Probe>, latency: int): nat {
    AtMost(probes, latency - 1)
  }

  /** A probe in the middle: at most half of the probes are less, and more than half are
      not greater. Of an even number it is the upper of the two in the middle. */
  ghost predicate IsUpperMedian(probes: seq<Probe>, p: Probe) {
    && p in probes
    && Below(probes, p.latency) <= |probes| / 2 < AtMost(probes, p.latency)
  }

  lemma {:induction false} AtMostIsMonotone(probes: seq<Probe>, a: int, b: int)
    requires a <= b
    ensures AtMost(probes, a) <= AtMost(probes, b)
    decreases |probes|
  {
    if probes != [] {
      AtMostIsMonotone(probes[..|probes| - 1], a, b);
    }
  }

  /** There is only one median latency. */
  lemma MedianIsUnique(probes: seq<Probe>, p: Probe, q: Probe)
    requires IsUpperMedian(probes, p) && IsUpperMedian(probes, q)
    ensures p.latency == q.latency
  {
    if p.latency < q.latency {
      AtMostIsMonotone(probes, p.latency, q.latency - 1);
    } else if q.latency < p.latency {
      AtMostIsMonotone(probes, q.latency, p.latency - 1);
    }
  }

  lemma {:induction false} AtMostConcat(a: seq<Probe>, b: seq<Probe>, latency: int)
    ensures AtMost(a + b, latency) == AtMost(a, latency) + AtMost(b, latency)
    decreases |b|
  {
    if b == [] {
      assert a + b == a;
    } else {
      var last := |b| - 1;
      assert (a + b)[..|a + b| - 1] == a + b[..last];
      AtMostConcat(a, b[..last], latency);
    }
  }

  /** Counting does not depend on the order. */
  lemma {:induction false} AtMostIgnoresOrder(a: seq<Probe>, b: seq<Probe>, latency: int)
    requires multiset(a) == multiset(b)
    ensures AtMost(a, latency) == AtMost(b, latency)
    decreases |a|
  {
    if a == [] {
      assert |multiset(b)| == 0;
    } else {
      var last := |a| - 1;
      assert a[last] in multiset(b);
      var k :| 0 <= k < |b| && b[k] == a[last];
      MultisetWithout(a, last);
      MultisetWithout(b, k);
      assert a[..last] + a[last + 1..] == a[..last];
      AtMostIgnoresOrder(a[..last], b[..k] + b[k + 1..], latency);
      AtMostWithout(b, k, latency);
    }
  }

  lemma AtMostWithout(probes: seq<Probe>, k: nat, latency: int)
    requires k < |probes|
    ensures AtMost(probes, latency)
         == AtMost(probes[..k] + probes[k + 1..], latency) + if probes[k].latency <= latency then 1 else 0
  {
    assert probes == probes[..k] + [probes[k]] + probes[k + 1..];
    AtMostConcat(probes[..k] + [probes[k]], probes[k + 1..], latency);
    AtMostConcat(probes[..k], probes[k + 1..], latency);
    assert (probes[..k] + [probes[k]])[..k] == probes[..k];
  }

  ghost predicate Sorted(probes: seq<Probe>) {
    forall i, j :: 0 <= i < j < |probes| ==> probes[i].latency <= probes[j].latency
  }

  /** In a sorted sequence counting is indexing. */
  lemma {:induction false} SortedCounts(probes: seq<Probe>, m: nat, latency: int)
    requires Sorted(probes) && m < |probes|
    ensures probes[m].latency <= latency ==> AtMost(probes, latency) > m
    ensures probes[m].latency > latency ==> AtMost(probes, latency) <= m
    decreases |probes|
  {
    var last := |probes| - 1;
    if m < last {
      SortedCounts(probes[..last], m, latency);
    } else if last > 0 {
      SortedCounts(probes[..last], last - 1, latency);
    }
  }

  /** The probe in the middle of any sorted arrangement is the upper median. */
  lemma MiddleIsMedian(probes: seq<Probe>, sorted: seq<Probe>)
    requires probes != [] && Sorted(sorted) && multiset(sorted) == multiset(probes)
    ensures |sorted| == |probes| && IsUpperMedian(probes, sorted[|probes| / 2])
  {
    assert |multiset(sorted)| == |sorted| && |multiset(probes)| == |probes|;
    var m := |probes| / 2;
    var p := sorted[m];
    assert p in multiset(probes);
    SortedCounts(sorted, m, p.latency);
    SortedCounts(sorted, m, p.latency - 1);
    AtMostIgnoresOrder(sorted, probes, p.latency);
    AtMostIgnoresOrder(sorted, probes, p.latency - 1);
  }

  /** The probes that count: all but the first three, as far as they measured something. */
  function Samples(probes: seq<Probe>, from: nat := SKIPPED): seq<Probe>
    decreases if from < |probes| then |probes| - from else 0
  {
    if from >= |probes| then []
    else if probes[from].latency != 0 then [probes[from]] + Samples(probes, from + 1)
    else Samples(probes, from + 1)
  }

  /** Exactly the probes from the fourth on that measured a latency are samples. */
  lemma {:induction false} SamplesAre(probes: seq<Probe>, p: Probe, from: nat := SKIPPED)
    ensures SKIPPED == 3
    ensures p in Samples(probes, from) <==> p.latency != 0 && exists i :: from <= i < |probes| && probes[i] == p
    decreases if from < |probes| then |probes| - from else 0
  {
    if from < |probes| {
      SamplesAre(probes, p, from + 1);
      assert (exists i :: from <= i < |probes| && probes[i] == p)
         <==> probes[from] == p || exists i :: from + 1 <= i < |probes| && probes[i] == p;
    }
  }

  // ---------- The average ----------

  /** Eight parts of the old value and two of the new one, rounded towards zero. */
  function Average(before: int, measured: int): int {
    Quotient(before * 8 + measured * 2, 10)
  }

  /** The average is eight parts to two, less than one off. */
  lemma AverageWeighs(before: int, measured: int)
    ensures -10 < 10 * Average(before, measured) - (8 * before + 2 * measured) < 10
  {
  }

  /** The estimate after a sequence of measurements. */
  function Estimate(measurements: seq<int>): Option<int> {
    if measurements == [] then None
    else
      var m := measurements[|measurements| - 1];
      Some(Average(Estimate(measurements[..|measurements| - 1]).UnwrapOr(m), m))
  }

  lemma AverageStaysBetween(a: int, b: int, low: int, high: int)
    requires low <= a <= high && low <= b <= high
    ensures low <= Average(a, b) <= high
  {
  }

  /** The estimate never leaves the range of the values fed in. */
  lemma {:induction false} EstimateStaysInRange(measurements: seq<int>, low: int, high: int)
    requires measurements != [] && forall i :: 0 <= i < |measurements| ==> low <= measurements[i] <= high
    ensures low <= Estimate(measurements).value <= high
    decreases |measurements|
  {
    var last := |measurements| - 1;
    var m := measurements[last];
    if last > 0 {
      EstimateStaysInRange(measurements[..last], low, high);
    }
    AverageStaysBetween(Estimate(measurements[..last]).UnwrapOr(m), m, low, high);
  }

  /** The estimate after `n` more measurements of the same value. */
  function Steps(estimate: int, measured: int, n: nat): int
    decreases n
  {
    if n == 0 then estimate else Steps(Average(estimate, measured), measured, n - 1)
  }

  /** Where a constant measurement takes the estimate: to the measurement from above, but
      from below up to four microseconds short of it. */
  function Limit(estimate: nat, measured: nat): int {
    if estimate >= measured then measured
    else if measured - estimate <= 4 then estimate
    else measured - 4
  }

  /** One step: never past the measurement, and closer unless the limit is reached. */
  lemma OneStep(estimate: nat, measured: nat)
    ensures var next := Average(estimate, measured);
            && next >= 0 && Limit(next, measured) == Limit(estimate, measured)
            && (if estimate == Limit(estimate, measured) then next == estimate
                else if estimate > measured then measured <= next < estimate
                else estimate < next <= measured)
  {
  }

  /** A constant measurement moves the estimate in one direction only, and it arrives at
      the limit after at most as many steps as it was microseconds away. */
  lemma {:induction false} EstimateConverges(estimate: nat, measured: nat, n: nat)
    ensures if estimate >= measured then measured <= Steps(estimate, measured, n) <= estimate
            else estimate <= Steps(estimate, measured, n) <= measured
    ensures (if estimate >= measured then estimate - measured else measured - estimate) <= n ==>
              Steps(estimate, measured, n) == Limit(estimate, measured)
    decreases n
  {
    if n > 0 {
      OneStep(estimate, measured);
      EstimateConverges(Average(estimate, measured), measured, n - 1);
      if estimate == Limit(estimate, measured) {
        LimitIsFixed(estimate, measured, n);
      }
    }
  }

  lemma {:induction false} LimitIsFixed(estimate: nat, measured: nat, n: nat)
    requires estimate == Limit(estimate, measured)
    ensures Steps(estimate, measured, n) == estimate
    decreases n
  {
    if n > 0 {
      OneStep(estimate, measured);
      LimitIsFixed(estimate, measured, n - 1);
    }
  }

  // ---------- In memory ----------

  /** Stands for the library's sort: only that the result is a sorted arrangement of the
      input is promised. */
  method Sort(samples: seq<Probe>) returns (sorted: seq<Probe>)
    ensures Sorted(sorted) && multiset(sorted) == multiset(samples)
  {
    sorted := [];
    for i := 0 to |samples|
      invariant Sorted(sorted) && multiset(sorted) == multiset(samples[..i])
    {
      assert samples[..i + 1] == samples[..i] + [samples[i]];
      InsertKeepsAll(sorted, samples[i]);
      sorted := Insert(sorted, samples[i]);
    }
    assert samples[..|samples|] == samples;
  }

  function Insert(sorted: seq<Probe>, p: Probe): (longer: seq<Probe>)
    requires Sorted(sorted)
    ensures Sorted(longer) && |longer| == |sorted| + 1
    ensures longer[|sorted|].latency == if sorted == [] || sorted[|sorted| - 1].latency <= p.latency then p.latency
                                        else sorted[|sorted| - 1].latency
    decreases |sorted|
  {
    if sorted == [] || sorted[|sorted| - 1].latency <= p.latency then sorted + [p]
    else Insert(sorted[..|sorted| - 1], p) + [sorted[|sorted| - 1]]
  }

  lemma {:induction false} InsertKeepsAll(sorted: seq<Probe>, p: Probe)
    requires Sorted(sorted)
    ensures multiset(Insert(sorted, p)) == multiset(sorted) + multiset{p}
    decreases |sorted|
  {
    if sorted != [] && sorted[|sorted| - 1].latency > p.latency {
      InsertKeepsAll(sorted[..|sorted| - 1], p);
      assert sorted == sorted[..|sorted| - 1] + [sorted[|sorted| - 1]];
    }
  }

  /** A probe that never ran: its two timestamps are readings of the same moment. */
  const NO_PROBE: Probe := Probe(0, 0, 0)

  class Estimator {
    const probes: array<Probe>
    var latency: Option<int>
    var timeOffset: Option<int>

    ghost predicate Valid()
      reads this
    {
      probes.Length == PROBES
    }

    constructor ()
      ensures Valid() && fresh(probes) && latency == None && timeOffset == None
    {
      probes := new Probe[PROBES](_ => NO_PROBE);
      latency, timeOffset := None, None;
    }

    /** A ping came back. */
    method Record(index: nat, receiveTimestamp: int, clientTimestamp: int)
      requires Valid() && index < PROBES
      modifies probes
      ensures probes[..] == old(probes[..])[index := Probe(
                old(probes[index]).sendTimestamp,
                Quotient(receiveTimestamp - old(probes[index]).sendTimestamp, 2),
                clientTimestamp)]
    {
      var sent := probes[index].sendTimestamp;
      probes[index] := Probe(sent, Quotient(receiveTimestamp - sent, 2), clientTimestamp);
    }

    /** The upper median of the probes that count, if there are at least three. */
    method GetLatencyMeanProbe() returns (result: Probe)
      requires Valid()
      ensures var samples := Samples(probes[..]);
              && (|samples| >= ENOUGH ==> IsUpperMedian(samples, result))
              && (0 < |samples| < ENOUGH ==> result == samples[|samples| / 2])
              && (samples == [] ==> result == NO_PROBE)
    {
      result := NO_PROBE;
      var samples := [];
      for i := SKIPPED to probes.Length
        invariant samples + Samples(probes[..], i) == Samples(probes[..])
      {
        if probes[i].latency != 0 {
          samples := samples + [probes[i]];
        }
      }
      assert samples == Samples(probes[..]);
      var arranged := samples;
      if ENOUGH <= |samples| {
        arranged := Sort(samples);
        MiddleIsMedian(samples, arranged);
      }
      if |samples| > 0 {
        result := arranged[|samples| / 2];
      }
    }

    /** Moves both estimates towards the picked probe. */
    method Adjust() returns (picked: Probe)
      requires Valid()
      modifies this
      ensures |Samples(probes[..])| >= ENOUGH ==> IsUpperMedian(Samples(probes[..]), picked)
      ensures latency == Some(Average(old(latency).UnwrapOr(picked.latency), picked.latency))
      ensures var offset := picked.sendTimestamp - picked.clientTimestamp;
              timeOffset == Some(Average(old(timeOffset).UnwrapOr(offset), offset))
    {
      picked := GetLatencyMeanProbe();
      var offset := picked.sendTimestamp - picked.clientTimestamp;
      timeOffset := Some(Quotient(timeOffset.UnwrapOr(offset) * 8 + offset * 2, 10));
      latency := Some(Quotient(latency.UnwrapOr(picked.latency) * 8 + picked.latency * 2, 10));
    }
  }
}
