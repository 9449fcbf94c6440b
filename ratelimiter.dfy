/**
 * The sliding-window request limiter of the API client.
 *
 * Times are integer milliseconds.  The clock readings the limiter takes
 * (before pruning, after its sleep, and when it records the request) are
 * parameters, so the model is one sequential step with no lock.
 */
module RateLimit {
  import opened Seqs

  const DefaultMaxRequests: int := 100
  const DefaultWindowMs: int := 15000
  /** The 0.1 second safety margin added to every computed wait. */
  const BufferMs: int := 100

  /** The timestamps of `ts` that are still inside the window ending at `now`, in order. */
  function Prune(ts: seq<int>, now: int, window: int): (r: seq<int>)
    ensures forall t :: t in r <==> t in ts && now - t < window
    ensures forall i :: 0 <= i < |r| ==> now - r[i] < window
    ensures |r| <= |ts|
  {
    if ts == [] then []
    else if now - ts[0] < window then [ts[0]] + Prune(ts[1..], now, window)
    else Prune(ts[1..], now, window)
  }

  lemma {:induction false} PruneIsSubsequence(ts: seq<int>, now: int, window: int)
    ensures IsSubsequence(Prune(ts, now, window), ts)
  {
    if ts != [] {
      PruneIsSubsequence(ts[1..], now, window);
      if now - ts[0] < window {
        assert Prune(ts, now, window)[1..] == Prune(ts[1..], now, window);
      } else {
        SubsequenceOfTail(Prune(ts, now, window), ts);
      }
    }
  }

  /** Pruning keeps everything exactly when nothing has left the window. */
  lemma {:induction false} PruneKeepsRecent(ts: seq<int>, now: int, window: int)
    requires forall i :: 0 <= i < |ts| ==> now - ts[i] < window
    ensures Prune(ts, now, window) == ts
  {
    if ts != [] {
      PruneKeepsRecent(ts[1..], now, window);
    }
  }

  function Min(ts: seq<int>): (m: int)
    requires |ts| > 0
    ensures m in ts
    ensures forall i :: 0 <= i < |ts| ==> m <= ts[i]
  {
    if |ts| == 1 then ts[0]
    else var rest := Min(ts[1..]); if ts[0] <= rest then ts[0] else rest
  }

  /** What one call of the limiter did. */
  datatype Throttle =
    | Proceed
    | Slept(ms: int)
      /** `min()` of an empty list: only reachable when the quota is zero or less. */
    | EmptyWindowError

  /**
   * One limiter call on the recorded timestamps `ts`: the outcome and the new
   * timestamps.  `now` is read before pruning, `afterWait` after the sleep and
   * `stamp` when the request is recorded.
   */
  function Step(ts: seq<int>, maxRequests: int, window: int, now: int, afterWait: int, stamp: int): (Throttle, seq<int>)
  {
    var kept := Prune(ts, now, window);
    if |kept| < maxRequests then (Proceed, kept + [stamp])
    else if kept == [] then (EmptyWindowError, kept)
    else (Slept(window - (now - Min(kept)) + BufferMs), Prune(kept, afterWait, window) + [stamp])
  }

  /** The limiter sleeps exactly when the pruned window is already full, and only fails on an empty full window. */
  lemma WaitsIffFull(ts: seq<int>, maxRequests: int, window: int, now: int, afterWait: int, stamp: int)
    ensures var (t, _) := Step(ts, maxRequests, window, now, afterWait, stamp);
      var kept := Prune(ts, now, window);
      && (t.Proceed? <==> |kept| < maxRequests)
      && (t.Slept? <==> |kept| >= maxRequests && |kept| > 0)
      && (t.EmptyWindowError? <==> maxRequests <= 0 && kept == [])
  {
  }

  /**
   * The wait is the time until the oldest retained request leaves the window,
   * plus the buffer: it exceeds the buffer, and once it is over that request
   * is outside the window.
   */
  lemma WaitOutlastsOldest(ts: seq<int>, maxRequests: int, window: int, now: int, afterWait: int, stamp: int)
    requires Step(ts, maxRequests, window, now, afterWait, stamp).0.Slept?
    ensures var kept := Prune(ts, now, window);
      var wait := Step(ts, maxRequests, window, now, afterWait, stamp).0.ms;
      && |kept| > 0
      && wait == window - (now - Min(kept)) + BufferMs
      && wait > BufferMs
      && (now + wait) - Min(kept) >= window
  {
    var kept := Prune(ts, now, window);
    assert now - kept[0] < window;
  }

  /**
   * Every timestamp carried over from before the call is within the window of
   * the last pruning time, and exactly one new timestamp, the last, is added.
   */
  lemma CarriedOverAreRecent(ts: seq<int>, maxRequests: int, window: int, now: int, afterWait: int, stamp: int)
    requires !Step(ts, maxRequests, window, now, afterWait, stamp).0.EmptyWindowError?
    ensures var (t, r) := Step(ts, maxRequests, window, now, afterWait, stamp);
      var pruneTime := if t.Slept? then afterWait else now;
      && |r| >= 1 && r[|r| - 1] == stamp
      && (forall i :: 0 <= i < |r| - 1 ==> pruneTime - r[i] < window && r[i] in ts)
      && IsSubsequence(r[..|r| - 1], ts)
  {
    var (t, r) := Step(ts, maxRequests, window, now, afterWait, stamp);
    var kept := Prune(ts, now, window);
    PruneIsSubsequence(ts, now, window);
    if t.Slept? {
      PruneIsSubsequence(kept, afterWait, window);
      SubsequenceTransitive(Prune(kept, afterWait, window), kept, ts);
      assert r[..|r| - 1] == Prune(kept, afterWait, window);
    } else {
      assert r[..|r| - 1] == kept;
    }
  }

  /**
   * If the clock really advanced by the computed wait, the quota holds after
   * the call: a window that held at most `maxRequests` timestamps still does.
   */
  lemma QuotaKept(ts: seq<int>, maxRequests: int, window: int, now: int, afterWait: int, stamp: int)
    requires |ts| <= maxRequests
    requires var t := Step(ts, maxRequests, window, now, afterWait, stamp).0;
      t.Slept? ==> afterWait >= now + t.ms
    ensures |Step(ts, maxRequests, window, now, afterWait, stamp).1| <= maxRequests
  {
    var kept := Prune(ts, now, window);
    if |kept| >= maxRequests && kept != [] {
      var oldest := Min(kept);
      var later := Prune(kept, afterWait, window);
      assert oldest !in later;
      PruneIsSubsequence(kept, afterWait, window);
      SubsequenceMissingShorter(later, kept, oldest);
    }
  }

  /** The limiter held by one API client. */
  class RateLimiter {
    const maxRequests: int
    const timeWindow: int
    var requestTimes: seq<int>

    constructor(maxRequests: int := DefaultMaxRequests, timeWindow: int := DefaultWindowMs)
      ensures this.maxRequests == maxRequests && this.timeWindow == timeWindow
      ensures requestTimes == []
    {
      this.maxRequests := maxRequests;
      this.timeWindow := timeWindow;
      requestTimes := [];
    }

    /** Prune, sleep if the window is full, prune again, record the request. */
    method WaitIfNeeded(now: int, afterWait: int, stamp: int) returns (t: Throttle)
      modifies this
      ensures (t, requestTimes) == Step(old(requestTimes), maxRequests, timeWindow, now, afterWait, stamp)
    {
      requestTimes := Prune(requestTimes, now, timeWindow);
      t := Proceed;
      if |requestTimes| >= maxRequests {
        if requestTimes == [] {
          // min() of an empty list raises before the request is recorded
          return EmptyWindowError;
        }
        var oldest := Min(requestTimes);
        t := Slept(timeWindow - (now - oldest) + BufferMs);
        requestTimes := Prune(requestTimes, afterWait, timeWindow);
      }
      requestTimes := requestTimes + [stamp];
    }
  }
}
