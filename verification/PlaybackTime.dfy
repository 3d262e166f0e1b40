/** Integer arithmetic on frames, durations and timestamps. */
module PlaybackTime {
  import opened Common

  const MICROSECONDS: nat := 1_000_000
  const MILLISECONDS: nat := 1_000

  /** Integer division rounding towards zero. */
  function Quotient(a: int, b: nat): (r: int)
    requires b > 0
    ensures a >= 0 ==> r == a / b
  {
    if a >= 0 then a / b else -(-a / b)
  }

  /** The duration of frames, in units of 1/`den` second. */
  function CalculateDuration(frames: int, den: nat, samplingRate: nat): int {
    if samplingRate == 0 then 0 else Quotient(frames * den, samplingRate)
  }

  function DurationToFrames(microseconds: int, samplingRate: nat): int {
    if samplingRate == 0 then 0 else Quotient(microseconds * samplingRate, MICROSECONDS)
  }

  function FramesToDuration(frames: int, samplingRate: nat): int {
    if samplingRate == 0 then 0 else Quotient(frames * MICROSECONDS, samplingRate)
  }

  // ---------- Round trip ----------

  lemma DivBounds(a: nat, b: nat)
    requires b > 0
    ensures a / b * b <= a < a / b * b + b
  {
  }

  lemma LessByFactor(x: nat, y: nat, b: nat)
    requires x * b < y * b + b
    ensures x <= y
  {
    var d := x - y - 1;
    assert d * b == x * b - y * b - b;
    assert d >= 0 ==> d * b >= 0;
  }

  lemma QuotientIs(a: nat, b: nat, q: nat)
    requires b > 0 && q * b <= a < q * b + b
    ensures a / b == q
  {
    DivBounds(a, b);
    LessByFactor(a / b, q, b);
    LessByFactor(q, a / b, b);
  }

  /** Frames to microseconds and back is exact precisely when the frames last a whole
      number of microseconds, at any rate. */
  lemma RoundTripExactIff(frames: nat, samplingRate: nat)
    requires samplingRate > 0
    ensures DurationToFrames(FramesToDuration(frames, samplingRate), samplingRate) == frames
       <==> frames * MICROSECONDS % samplingRate == 0
  {
    var scaled := frames * MICROSECONDS;
    var d := scaled / samplingRate;
    DivBounds(scaled, samplingRate);
    assert d * samplingRate == scaled - scaled % samplingRate;
    if scaled % samplingRate == 0 {
      QuotientIs(d * samplingRate, MICROSECONDS, frames);
    } else {
      DivBounds(d * samplingRate, MICROSECONDS);
    }
  }

  /** Up to a million frames a second the round trip loses at most one frame. */
  lemma RoundTripLosesAtMostOne(frames: nat, samplingRate: nat)
    requires 0 < samplingRate <= MICROSECONDS
    ensures frames - 1 <= DurationToFrames(FramesToDuration(frames, samplingRate), samplingRate) <= frames
  {
    var d := frames * MICROSECONDS / samplingRate;
    DivBounds(frames * MICROSECONDS, samplingRate);
    DivBounds(d * samplingRate, MICROSECONDS);
    Rounded(frames, d * samplingRate, samplingRate, d * samplingRate / MICROSECONDS);
  }

  lemma Rounded(frames: nat, kept: nat, samplingRate: nat, back: nat)
    requires kept <= frames * MICROSECONDS < kept + samplingRate && samplingRate <= MICROSECONDS
    requires back * MICROSECONDS <= kept < back * MICROSECONDS + MICROSECONDS
    ensures frames - 1 <= back <= frames
  {
  }

  // ---------- Playback delay ----------

  const BASE_DELAY: int := 1000

  function Latency(latency: Option<int>): int {
    latency.UnwrapOr(0)
  }

  /** A base delay and the latency of every session that has one. */
  function Delay(latencies: seq<Option<int>>): int {
    if latencies == [] then BASE_DELAY
    else Delay(latencies[..|latencies| - 1]) + Latency(latencies[|latencies| - 1])
  }

  lemma {:induction false} DelayConcat(a: seq<Option<int>>, b: seq<Option<int>>)
    ensures Delay(a + b) == Delay(a) + Delay(b) - BASE_DELAY
    decreases |b|
  {
    if b == [] {
      assert a + b == a;
    } else {
      var last := |b| - 1;
      assert (a + b)[..|a + b| - 1] == a + b[..last];
      DelayConcat(a, b[..last]);
    }
  }

  /** What the delay is, for any way of taking the sessions together: a second's thousandth
      and each latency once. */
  lemma {:induction false} DelayIs(latency: Option<int>, a: seq<Option<int>>, b: seq<Option<int>>)
    ensures Delay([]) == 1000
    ensures Delay([latency]) == 1000 + if latency.Some? then latency.value else 0
    ensures Delay(a + b) == Delay(a) + Delay(b) - 1000
  {
    DelayConcat(a, b);
    assert [latency][..0] == [];
  }

  lemma DelayAppend(latencies: seq<Option<int>>, latency: Option<int>)
    ensures Delay(latencies + [latency]) == Delay(latencies) + Latency(latency)
  {
    assert (latencies + [latency])[..|latencies|] == latencies;
  }

  lemma {:induction false} DelayBetween(before: seq<Option<int>>, latency: Option<int>, after: seq<Option<int>>)
    ensures Delay(before + [latency] + after) == Delay(before + after) + Latency(latency)
  {
    DelayConcat(before + [latency], after);
    DelayConcat(before, after);
    DelayAppend(before, latency);
  }

  lemma {:induction false} DelayWithout(a: seq<Option<int>>, k: nat)
    requires k < |a|
    ensures Delay(a) == Delay(a[..k] + a[k + 1..]) + Latency(a[k])
  {
    assert a == a[..k] + [a[k]] + a[k + 1..];
    DelayBetween(a[..k], a[k], a[k + 1..]);
  }

  lemma MultisetWithout<T>(s: seq<T>, k: nat)
    requires k < |s|
    ensures multiset(s[..k] + s[k + 1..]) == multiset(s) - multiset{s[k]}
  {
    assert s == s[..k] + [s[k]] + s[k + 1..];
  }

  /** The order in which sessions are visited does not matter. */
  lemma {:induction false} DelayIsOrderFree(a: seq<Option<int>>, b: seq<Option<int>>)
    requires multiset(a) == multiset(b)
    ensures Delay(a) == Delay(b)
    decreases |a|
  {
    if a == [] {
      assert |multiset(b)| == 0;
    } else {
      var last := |a| - 1;
      assert a[last] in multiset(b);
      var k :| 0 <= k < |b| && b[k] == a[last];
      MultisetWithout(a, last);
      MultisetWithout(b, k);
      assert a[..last] + a[last + 1..] == a[..last];
      DelayIsOrderFree(a[..last], b[..k] + b[k + 1..]);
      DelayWithout(b, k);
    }
  }

  /** When no latency is negative, the delay covers every one of them. */
  lemma {:induction false} DelayCoversLatencies(latencies: seq<Option<int>>, k: nat)
    requires k < |latencies| && forall i :: 0 <= i < |latencies| ==> Latency(latencies[i]) >= 0
    ensures Delay(latencies) >= BASE_DELAY + Latency(latencies[k])
    decreases |latencies|
  {
    var last := |latencies| - 1;
    if k < last {
      DelayCoversLatencies(latencies[..last], k);
    } else {
      DelayIsPositive(latencies[..last]);
    }
  }

  lemma {:induction false} DelayIsPositive(latencies: seq<Option<int>>)
    requires forall i :: 0 <= i < |latencies| ==> Latency(latencies[i]) >= 0
    ensures Delay(latencies) >= BASE_DELAY
    decreases |latencies|
  {
    if latencies != [] {
      DelayIsPositive(latencies[..|latencies| - 1]);
    }
  }

  // ---------- Playback start ----------

  /** The frames that have to be buffered before playback: those streamed, and those
      that the delay lasts. */
  function BufferedFrames(streamedFrames: int, delay: int, samplingRate: nat): int {
    streamedFrames + DurationToFrames(delay, samplingRate)
  }

  /** A point in time so many frames after buffering began, in nanoseconds. */
  function StartTime(bufferingStartedAt: int, bufferedFrames: int, samplingRate: nat): int {
    bufferingStartedAt + 1_000_000 * CalculateDuration(bufferedFrames, MILLISECONDS, samplingRate)
  }

  /** When playback starts, in milliseconds after buffering began. */
  function StartOffset(streamedFrames: int, delay: int, samplingRate: nat): int {
    CalculateDuration(BufferedFrames(streamedFrames, delay, samplingRate), MILLISECONDS, samplingRate)
  }

  /** What rounding costs, exactly: the start is the streamed duration and the delay less
      the remainders of the two divisions. All durations are compared in millionths of a
      second times the rate, where the streamed duration is a whole number. */
  lemma StartIsExact(streamedFrames: nat, delay: nat, samplingRate: nat)
    requires samplingRate > 0
    ensures BufferedFrames(streamedFrames, delay, samplingRate) >= 0
    ensures StartOffset(streamedFrames, delay, samplingRate) * 1000 * samplingRate
         == streamedFrames * MICROSECONDS + delay * samplingRate - Lost(streamedFrames, delay, samplingRate)
  {
    var buffered: nat := BufferedFrames(streamedFrames, delay, samplingRate);
    var delayed := delay * samplingRate;
    DivIs(delayed, MICROSECONDS);
    DivIs(buffered * MILLISECONDS, samplingRate);
    var start := StartOffset(streamedFrames, delay, samplingRate);
    assert start * 1000 * samplingRate == 1000 * (start * samplingRate);
  }

  lemma DivIs(a: nat, b: nat)
    requires b > 0
    ensures a / b * b == a - a % b
  {
  }

  /** The part of a millisecond and the part of a frame that are rounded away. */
  function Lost(streamedFrames: int, delay: int, samplingRate: nat): (r: int)
    requires samplingRate > 0
    ensures 0 <= r < 1000 * samplingRate + MICROSECONDS
  {
    1000 * (BufferedFrames(streamedFrames, delay, samplingRate) * MILLISECONDS % samplingRate)
    + delay * samplingRate % MICROSECONDS
  }

  /** The start is never later than the streamed duration and the delay together, and
      earlier by less than a millisecond and one frame. */
  lemma StartBound(streamedFrames: nat, delay: nat, samplingRate: nat)
    requires samplingRate > 0
    ensures var start := StartOffset(streamedFrames, delay, samplingRate) * 1000 * samplingRate;
            var due := streamedFrames * MICROSECONDS + delay * samplingRate;
            due - 1000 * samplingRate - MICROSECONDS < start <= due
  {
    StartIsExact(streamedFrames, delay, samplingRate);
  }

  /** The start is two milliseconds early, or more, exactly when rounding loses that much;
      from a thousand frames a second on it never is. */
  lemma StartIsEarlyIff(streamedFrames: nat, delay: nat, samplingRate: nat)
    requires samplingRate > 0
    ensures var start := StartOffset(streamedFrames, delay, samplingRate) * 1000 * samplingRate;
            var due := streamedFrames * MICROSECONDS + delay * samplingRate;
            && start <= due
            && (start <= due - 2000 * samplingRate
                <==> Lost(streamedFrames, delay, samplingRate) >= 2000 * samplingRate)
            && (samplingRate >= 1000 ==> start > due - 2000 * samplingRate)
  {
    StartIsExact(streamedFrames, delay, samplingRate);
  }

  /** A stream longer than two seconds starts later than two seconds after buffering
      began, whatever the delay. */
  lemma StartAfterStreamed(streamedFrames: nat, delay: nat, samplingRate: nat)
    requires samplingRate > 0
    ensures StartOffset(streamedFrames, delay, samplingRate)
         >= CalculateDuration(streamedFrames, MILLISECONDS, samplingRate)
  {
    var buffered: nat := BufferedFrames(streamedFrames, delay, samplingRate);
    assert buffered * MILLISECONDS >= streamedFrames * MILLISECONDS;
    DivMonotone(streamedFrames * MILLISECONDS, buffered * MILLISECONDS, samplingRate);
  }

  lemma DivMonotone(a: nat, a': nat, b: nat)
    requires b > 0 && a <= a'
    ensures a / b <= a' / b
  {
    DivBounds(a, b);
    DivBounds(a', b);
    LessByFactor(a / b, a' / b, b);
  }
}
