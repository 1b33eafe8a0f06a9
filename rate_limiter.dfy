/**
 * The sliding-window rate limiter (app/utils/rate_limiter.py): one queue of call
 * timestamps per key, pruned from the front, capped at `max_calls`.
 *
 * Time is an integer tick count passed in as `now` (the source reads
 * `time.time()`). The lock that serialises calls is not modelled.
 */
module RateLimiter {
  import opened Common

  /** The `popleft` loop: drop leading timestamps at or before `cutoff`. */
  function Pruned(q: seq<int>, cutoff: int): (r: seq<int>)
    ensures |r| <= |q| && r == q[|q| - |r|..]
    ensures forall i :: 0 <= i < |q| - |r| ==> q[i] <= cutoff
    ensures r != [] ==> r[0] > cutoff
  {
    if q != [] && q[0] <= cutoff then Pruned(q[1..], cutoff) else q
  }

  /** Timestamps recorded by a clock that never runs backwards. */
  predicate Sorted(q: seq<int>)
  {
    forall i, j :: 0 <= i < j < |q| ==> q[i] <= q[j]
  }

  /** The decision and the new queue of one `is_allowed` call on a key whose queue is `q`. */
  function Step(q: seq<int>, maxCalls: int, window: int, now: int): (r: (bool, seq<int>))
    ensures r.0 <==> |Pruned(q, now - window)| < maxCalls
    ensures r.1 == if r.0 then Pruned(q, now - window) + [now] else Pruned(q, now - window)
  {
    var p := Pruned(q, now - window);
    if |p| >= maxCalls then (false, p) else (true, p + [now])
  }

  /** On a sorted queue, pruning leaves only calls younger than the window. */
  lemma PrunedIsRecent(q: seq<int>, cutoff: int)
    requires Sorted(q)
    ensures forall k :: 0 <= k < |Pruned(q, cutoff)| ==> Pruned(q, cutoff)[k] > cutoff
  {
    var r := Pruned(q, cutoff);
    SuffixSorted(q, |q| - |r|);
    if r != [] {
      SortedAbove(r, cutoff);
    }
  }

  lemma SuffixSorted(q: seq<int>, k: int)
    requires Sorted(q) && 0 <= k <= |q|
    ensures Sorted(q[k..])
  {
    var p := q[k..];
    forall i, j | 0 <= i < j < |p| ensures p[i] <= p[j] {
      assert p[i] == q[k + i] && p[j] == q[k + j];
    }
  }

  lemma SortedAbove(r: seq<int>, cutoff: int)
    requires Sorted(r) && r != [] && r[0] > cutoff
    ensures forall k :: 0 <= k < |r| ==> r[k] > cutoff
  {
    forall k | 0 <= k < |r| ensures r[k] > cutoff {
      assert r[0] <= r[k];
    }
  }

  /** If every call is old enough, pruning empties the queue. */
  lemma {:induction false} PrunedAllOld(q: seq<int>, cutoff: int)
    requires forall x :: x in q ==> x <= cutoff
    ensures Pruned(q, cutoff) == []
    decreases |q|
  {
    if q != [] {
      assert q[0] in q;
      assert forall x :: x in q[1..] ==> x in q;
      PrunedAllOld(q[1..], cutoff);
    }
  }

  /**
   * After an allowed call the key holds at most `max_calls` timestamps, all
   * within the window, still in clock order.
   */
  lemma AllowedKeepsBound(q: seq<int>, maxCalls: int, window: int, now: int)
    requires Sorted(q) && (forall k :: 0 <= k < |q| ==> q[k] <= now) && window > 0
    requires Step(q, maxCalls, window, now).0
    ensures |Step(q, maxCalls, window, now).1| <= maxCalls
    ensures var r := Step(q, maxCalls, window, now).1; forall k :: 0 <= k < |r| ==> now - window < r[k] <= now
    ensures Sorted(Step(q, maxCalls, window, now).1)
  {
    var p := Pruned(q, now - window);
    PrunedWindow(q, now - window, now);
    AppendInWindow(p, now - window, now);
    assert Step(q, maxCalls, window, now).1 == p + [now];
  }

  /** Pruning a sorted queue of past calls leaves sorted calls inside `(cutoff, now]`. */
  lemma PrunedWindow(q: seq<int>, cutoff: int, now: int)
    requires Sorted(q) && (forall k :: 0 <= k < |q| ==> q[k] <= now)
    ensures Sorted(Pruned(q, cutoff))
    ensures forall k :: 0 <= k < |Pruned(q, cutoff)| ==> cutoff < Pruned(q, cutoff)[k] <= now
  {
    PrunedIsRecent(q, cutoff);
    PrunedSorted(q, cutoff);
    PrunedBelow(q, cutoff, now);
  }

  /** Appending `now` to sorted calls inside `(cutoff, now]` keeps them sorted and inside it. */
  lemma AppendInWindow(p: seq<int>, cutoff: int, now: int)
    requires Sorted(p) && cutoff < now
    requires forall k :: 0 <= k < |p| ==> cutoff < p[k] <= now
    ensures Sorted(p + [now])
    ensures forall k :: 0 <= k < |p + [now]| ==> cutoff < (p + [now])[k] <= now
  {
    SortedAppend(p, now);
  }

  /** Pruning keeps clock order. */
  lemma PrunedSorted(q: seq<int>, cutoff: int)
    requires Sorted(q)
    ensures Sorted(Pruned(q, cutoff))
  {
    SuffixSorted(q, |q| - |Pruned(q, cutoff)|);
  }

  /** Pruning keeps an upper bound on the timestamps. */
  lemma PrunedBelow(q: seq<int>, cutoff: int, t: int)
    requires forall k :: 0 <= k < |q| ==> q[k] <= t
    ensures forall k :: 0 <= k < |Pruned(q, cutoff)| ==> Pruned(q, cutoff)[k] <= t
  {
    SuffixBelow(q, |q| - |Pruned(q, cutoff)|, t);
  }

  lemma SuffixBelow(q: seq<int>, d: int, t: int)
    requires forall k :: 0 <= k < |q| ==> q[k] <= t
    requires 0 <= d <= |q|
    ensures forall k :: 0 <= k < |q[d..]| ==> q[d..][k] <= t
  {
    forall k | 0 <= k < |q[d..]| ensures q[d..][k] <= t {
      assert q[d..][k] == q[d + k];
    }
  }

  lemma SortedAppend(p: seq<int>, t: int)
    requires Sorted(p) && forall k :: 0 <= k < |p| ==> p[k] <= t
    ensures Sorted(p + [t])
  {
  }

  /** A refused call records nothing: the queue is only pruned. */
  lemma DeniedRecordsNothing(q: seq<int>, maxCalls: int, window: int, now: int)
    requires !Step(q, maxCalls, window, now).0
    ensures Step(q, maxCalls, window, now).1 == Pruned(q, now - window)
    ensures |Step(q, maxCalls, window, now).1| >= maxCalls
  {
  }

  /** Once a whole window has passed since the last call, a key is allowed again. */
  lemma AllowedAfterWindow(q: seq<int>, maxCalls: int, window: int, last: int, now: int)
    requires forall x :: x in q ==> x <= last
    requires now >= last + window && maxCalls > 0
    ensures Step(q, maxCalls, window, now).0
  {
    PrunedAllOld(q, now - window);
  }

  /** `wait_time` on a key whose queue is `q`; `None` is the `IndexError` of `calls[0]` on an empty queue. */
  function WaitFor(q: seq<int>, maxCalls: int, window: int, now: int): (r: Option<int>)
    ensures r.None? <==> q == [] && maxCalls <= 0
    ensures |q| < maxCalls ==> r == Some(0)
    ensures r.Some? ==> r.value >= 0
    ensures |q| >= maxCalls && q != [] && q[0] <= now && window >= 0 ==> r.value <= window
    ensures |q| >= maxCalls && q != [] && q[0] + window > now ==> r.value == q[0] + window - now
    ensures |q| >= maxCalls && q != [] && q[0] + window <= now ==> r.value == 0
  {
    if |q| < maxCalls then Some(0)
    else if q == [] then None
    else Some(if q[0] + window - now > 0 then q[0] + window - now else 0)
  }

  /** Waiting the reported time is enough for a key that holds exactly `max_calls` calls. */
  lemma WaitIsEnough(q: seq<int>, maxCalls: int, window: int, now: int)
    requires |q| == maxCalls > 0
    ensures WaitFor(q, maxCalls, window, now).Some?
    ensures Step(q, maxCalls, window, now + WaitFor(q, maxCalls, window, now).value).0
  {
    var w := WaitFor(q, maxCalls, window, now).value;
    assert q[0] <= now + w - window;
    assert |Pruned(q, now + w - window)| < |q|;
  }

  /** Pruning keeps a queue whose calls are all inside the window. */
  lemma PrunedAllRecent(q: seq<int>, cutoff: int)
    requires forall k :: 0 <= k < |q| ==> q[k] > cutoff
    ensures Pruned(q, cutoff) == q
  {
  }

  /**
   * A burst of calls at one instant on a fresh key: the first `max_calls` are
   * allowed, each recording one more timestamp, and the next one is refused.
   */
  lemma BurstRefusedAtLimit(t: int, n: nat, maxCalls: int, window: int)
    requires window > 0
    ensures n < maxCalls ==> Step(seq(n, _ => t), maxCalls, window, t) == (true, seq(n + 1, _ => t))
    ensures n >= maxCalls ==> !Step(seq(n, _ => t), maxCalls, window, t).0
  {
    var q := seq(n, _ => t);
    PrunedAllRecent(q, t - window);
    assert q + [t] == seq(n + 1, _ => t);
  }

  class RateLimiter {
    /** `_calls`, a `defaultdict(deque)`: reading a missing key inserts an empty queue. */
    var calls: map<string, seq<int>>

    function Queue(key: string): seq<int>
      reads this
    {
      if key in calls then calls[key] else []
    }

    constructor ()
      ensures calls == map[]
    {
      calls := map[];
    }

    /** `is_allowed` */
    method IsAllowed(key: string, maxCalls: int, windowSeconds: int, now: int) returns (allowed: bool)
      modifies this
      ensures key in calls && (allowed, calls[key]) == Step(old(Queue(key)), maxCalls, windowSeconds, now)
      ensures calls == old(calls)[key := calls[key]]
    {
      var q := Queue(key);
      while q != [] && q[0] <= now - windowSeconds
        invariant Pruned(q, now - windowSeconds) == Pruned(old(Queue(key)), now - windowSeconds)
        decreases |q|
      {
        q := q[1..];
      }
      if |q| >= maxCalls {
        calls := calls[key := q];
        return false;
      }
      calls := calls[key := q + [now]];
      return true;
    }

    /** `wait_time`: reads the queue without pruning it. */
    method WaitTime(key: string, maxCalls: int, windowSeconds: int, now: int) returns (w: Option<int>)
      modifies this
      ensures calls == old(calls)[key := old(Queue(key))]
      ensures w == WaitFor(old(Queue(key)), maxCalls, windowSeconds, now)
    {
      var q := Queue(key);
      calls := calls[key := q];
      if |q| < maxCalls {
        return Some(0);
      }
      if q == [] {
        return None;
      }
      var d := q[0] + windowSeconds - now;
      w := Some(if d > 0 then d else 0);
    }
  }
}
