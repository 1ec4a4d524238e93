/** The flood bucket of the connection's writer. */
module RateLimit {
  import opened Sums

  /** The virtual watermark after the first k calls of reserve. */
  function Watermark(interval: int, start: int, calls: seq<int>, k: nat): int
    requires k <= |calls|
  {
    if k == 0 then start else Max(Watermark(interval, start, calls, k - 1), calls[k - 1]) + interval
  }

  /** When message k goes out: at its call, or later by the wait that call returned. */
  function SentAt(interval: int, burst: int, start: int, calls: seq<int>, k: nat): int
    requires k < |calls|
  {
    Max(calls[k], Watermark(interval, start, calls, k + 1) - burst * interval)
  }

  predicate InOrder(calls: seq<int>) {
    forall i :: 0 < i < |calls| ==> calls[i - 1] <= calls[i]
  }

  class TokenBucket {
    const interval: int
    const window: int
    var at: int

    constructor (burst: int, interval: int, start: int)
      ensures this.interval == interval && window == burst * interval && at == start
    {
      this.interval, window, at := interval, burst * interval, start;
    }

    /** reserve: one message, at a call later than the k earlier ones; the caller sends after waiting a positive result. */
    method Reserve(now: int, ghost burst: int, ghost start: int, ghost earlier: seq<int>) returns (wait: int)
      requires window == burst * interval && at == Watermark(interval, start, earlier, |earlier|)
      modifies this`at
      ensures at == Watermark(interval, start, earlier + [now], |earlier| + 1)
      ensures Max(now, now + wait) == SentAt(interval, burst, start, earlier + [now], |earlier|)
    {
      WatermarkPrefix(interval, start, earlier, now, |earlier|);
      if at < now {
        at := now;
      }
      at := at + interval;
      wait := at - now - window;
    }
  }

  lemma {:induction false} WatermarkPrefix(interval: int, start: int, calls: seq<int>, now: int, k: nat)
    requires k <= |calls|
    ensures Watermark(interval, start, calls + [now], k) == Watermark(interval, start, calls, k)
  {
    if k > 0 { WatermarkPrefix(interval, start, calls, now, k - 1); }
  }

  /** Each call lifts the watermark by an interval. */
  lemma {:induction false} Climb(interval: int, start: int, calls: seq<int>, i: nat, j: nat)
    requires interval >= 0 && i <= j < |calls|
    ensures Watermark(interval, start, calls, j + 1)
            >= Max(Watermark(interval, start, calls, i), calls[i]) + (j - i + 1) * interval
    decreases j - i
  {
    if i < j {
      Climb(interval, start, calls, i, j - 1);
      assert (j - i + 1) * interval == (j - 1 - i + 1) * interval + interval;
    }
  }

  /** Messages go out in the order of their calls, so those within any period are consecutive. */
  lemma SentInOrder(interval: int, burst: int, start: int, calls: seq<int>, k: nat)
    requires interval >= 0 && InOrder(calls) && k + 1 < |calls|
    ensures SentAt(interval, burst, start, calls, k) <= SentAt(interval, burst, start, calls, k + 1)
  {
    assert calls[k + 1 - 1] <= calls[k + 1];
  }

  /** Any n consecutive messages sent over a period T satisfy n * interval <= burst * interval + T. */
  lemma RateBounded(interval: int, burst: int, start: int, calls: seq<int>, i: nat, j: nat)
    requires interval >= 0 && burst >= 1 && InOrder(calls) && i <= j < |calls|
    ensures (j - i + 1) * interval
            <= burst * interval + (SentAt(interval, burst, start, calls, j) - SentAt(interval, burst, start, calls, i))
  {
    Climb(interval, start, calls, i, j);
    assert burst * interval >= interval by { assert (burst - 1) * interval >= 0; }
  }

  /** A bucket without a burst allowance breaks the bound with its first message; so the bound holds for every run
      exactly when there is an allowance or no interval. */
  lemma NoBurstNoBound(interval: int, burst: int, start: int, now: int)
    requires interval > 0 && burst < 1
    ensures !(1 * interval
              <= burst * interval + (SentAt(interval, burst, start, [now], 0) - SentAt(interval, burst, start, [now], 0)))
  {
    assert burst * interval <= 0 by { assert (-burst) * interval >= 0; }
  }
}
