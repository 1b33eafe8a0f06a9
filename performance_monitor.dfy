/**
 * The call statistics of app/utils/performance_monitor.py
 * (`PerformanceMonitor`): a bounded buffer of durations per operation, call
 * and error counters, the statistics read from them, and the bookkeeping of
 * the `monitor` wrapper.
 *
 * Durations are real numbers; the clock readings of the wrapper are
 * parameters, and the wrapped call is its outcome.
 */
module PerformanceMonitor {
  import opened Common

  /** `deque(maxlen=maxLen).append(x)`: the oldest sample falls out once the buffer is full. */
  function Bounded(q: seq<real>, x: real, maxLen: nat): (r: seq<real>)
    ensures |r| == if |q| + 1 <= maxLen then |q| + 1 else maxLen
    ensures r == (q + [x])[|q| + 1 - |r|..]
    ensures maxLen > 0 ==> r[|r| - 1] == x
  {
    var all := q + [x];
    if |all| <= maxLen then all else all[|all| - maxLen..]
  }

  /** `min(times)` */
  function MinOf(s: seq<real>): (m: real)
    requires s != []
    ensures m in s
    ensures forall i :: 0 <= i < |s| ==> m <= s[i]
  {
    if |s| == 1 then s[0]
    else
      var m := MinOf(s[..|s| - 1]);
      assert forall i :: 0 <= i < |s| - 1 ==> s[..|s| - 1][i] == s[i];
      if s[|s| - 1] < m then s[|s| - 1] else m
  }

  /** `max(times)` */
  function MaxOf(s: seq<real>): (m: real)
    requires s != []
    ensures m in s
    ensures forall i :: 0 <= i < |s| ==> s[i] <= m
  {
    if |s| == 1 then s[0]
    else
      var m := MaxOf(s[..|s| - 1]);
      assert forall i :: 0 <= i < |s| - 1 ==> s[..|s| - 1][i] == s[i];
      if s[|s| - 1] > m then s[|s| - 1] else m
  }

  /** `sum(times)` */
  function Sum(s: seq<real>): real
  {
    if s == [] then 0.0 else Sum(s[..|s| - 1]) + s[|s| - 1]
  }

  /** The sum lies between `|s|` times the least and `|s|` times the greatest sample. */
  lemma {:induction false} SumBounds(s: seq<real>, lo: real, hi: real)
    requires forall i :: 0 <= i < |s| ==> lo <= s[i] <= hi
    ensures |s| as real * lo <= Sum(s) <= |s| as real * hi
  {
    if s != [] {
      var p := s[..|s| - 1];
      assert forall i :: 0 <= i < |p| ==> p[i] == s[i];
      SumBounds(p, lo, hi);
      var n := |p| as real;
      assert |s| as real * lo == n * lo + lo;
      assert |s| as real * hi == n * hi + hi;
    }
  }

  /** Dividing by a positive `n` keeps a value between `n * lo` and `n * hi` between `lo` and `hi`. */
  lemma DivideBounds(x: real, n: real, lo: real, hi: real)
    requires n > 0.0 && n * lo <= x <= n * hi
    ensures lo <= x / n <= hi
  {
    var q := x / n;
    assert x == n * q;
  }

  /** `sum(times) / len(times)` */
  function Mean(s: seq<real>): (r: real)
    requires s != []
    ensures MinOf(s) <= r <= MaxOf(s)
  {
    SumBounds(s, MinOf(s), MaxOf(s));
    DivideBounds(Sum(s), |s| as real, MinOf(s), MaxOf(s));
    Sum(s) / |s| as real
  }

  /** The dictionary `get_stats(op)` returns for one operation. */
  datatype OpStats =
    | NoData(operation: string)
    | Stats(operation: string, count: int, errors: int, avgTime: real, minTime: real, maxTime: real, errorRate: real)

  /** What `get_stats` returns: one operation's statistics, or all of them keyed by operation. */
  datatype Report = One(stats: OpStats) | All(byOperation: map<string, OpStats>) | RecursionError

  /**
   * The outcome of the wrapped call: its value, an `Exception` it raised, or a
   * `BaseException` outside `Exception` (`KeyboardInterrupt`, `SystemExit`),
   * which `except Exception` does not catch. The wrapper re-raises both kinds.
   */
  datatype CallResult<T> = Value(value: T) | Raised(error: string) | RaisedBase(error: string)

  /** Durations above this many seconds are logged as slow. */
  const SlowSeconds := 5.0

  class PerformanceMonitor {
    /** `max_samples`, the bound of every duration buffer. */
    const maxSamples: nat
    /** `call_times`, a `defaultdict` of bounded deques: reading a missing key inserts an empty buffer. */
    var callTimes: map<string, seq<real>>
    var callCounts: map<string, int>
    var errorCounts: map<string, int>

    function Times(op: string): seq<real>
      reads this
    {
      if op in callTimes then callTimes[op] else []
    }

    function Count(op: string): int
      reads this
    {
      if op in callCounts then callCounts[op] else 0
    }

    function Errors(op: string): int
      reads this
    {
      if op in errorCounts then errorCounts[op] else 0
    }

    /** No more errors than calls, and no more samples than calls or than the buffer holds. */
    ghost predicate Valid()
      reads this
    {
      forall op :: 0 <= Errors(op) <= Count(op) && |Times(op)| <= Count(op) && |Times(op)| <= maxSamples
    }

    /** The statistics of one operation in the current state. */
    function StatsOf(op: string): (r: OpStats)
      reads this
      ensures r.NoData? <==> Times(op) == []
      ensures r.Stats? ==> r.count == Count(op) && r.errors == Errors(op)
      ensures r.Stats? ==> r.minTime in Times(op) && r.maxTime in Times(op)
      ensures r.Stats? ==> r.minTime <= r.avgTime <= r.maxTime
      ensures r.Stats? ==> forall i :: 0 <= i < |Times(op)| ==> r.minTime <= Times(op)[i] <= r.maxTime
    {
      var times := Times(op);
      if times == [] then NoData(op)
      else
        var count, errors := Count(op), Errors(op);
        Stats(op, count, errors, Mean(times), MinOf(times), MaxOf(times),
              if count > 0 then errors as real / count as real else 0.0)
    }

    /** In a valid state an operation with samples was called, and its error rate is a fraction. */
    lemma StatsAreConsistent(op: string)
      requires Valid()
      ensures StatsOf(op).Stats? ==> 1 <= StatsOf(op).count && 0 <= StatsOf(op).errors <= StatsOf(op).count
      ensures StatsOf(op).Stats? ==> 0.0 <= StatsOf(op).errorRate <= 1.0
    {
      var r := StatsOf(op);
      if r.Stats? {
        assert 0 <= Errors(op) <= Count(op) && |Times(op)| <= Count(op);
        DivideBounds(Errors(op) as real, Count(op) as real, 0.0, 1.0);
      }
    }

    constructor (maxSamples: nat)
      ensures this.maxSamples == maxSamples
      ensures callTimes == map[] && callCounts == map[] && errorCounts == map[]
      ensures Valid()
    {
      this.maxSamples := maxSamples;
      callTimes := map[];
      callCounts := map[];
      errorCounts := map[];
    }

    /** `record_call`: one more sample and call, and one more error when the call failed. */
    method RecordCall(op: string, duration: real, success: bool)
      requires Valid()
      modifies this
      ensures Valid()
      ensures callTimes == old(callTimes)[op := Bounded(old(Times(op)), duration, maxSamples)]
      ensures callCounts == old(callCounts)[op := old(Count(op)) + 1]
      ensures errorCounts == if success then old(errorCounts) else old(errorCounts)[op := old(Errors(op)) + 1]
    {
      ghost var t0, c0, e0 := Times(op), Count(op), Errors(op);
      var times := Bounded(Times(op), duration, maxSamples);
      assert |times| <= c0 + 1 && |times| <= maxSamples;
      callTimes := callTimes[op := times];
      callCounts := callCounts[op := Count(op) + 1];
      if !success {
        errorCounts := errorCounts[op := Errors(op) + 1];
      }
      forall o
        ensures 0 <= Errors(o) <= Count(o) && |Times(o)| <= Count(o) && |Times(o)| <= maxSamples
      {
        if o == op {
          assert Times(o) == times && Count(o) == c0 + 1;
          assert Errors(o) == if success then e0 else e0 + 1;
        } else {
          assert Times(o) == old(Times(o)) && Count(o) == old(Count(o)) && Errors(o) == old(Errors(o));
        }
      }
    }

    /**
     * `get_stats(op)` for a truthy `op`. The reads `self.call_times[op]` and,
     * when there are samples, `self.error_counts[op]` are default-inserting:
     * they add an empty buffer and a zero error count. `self.call_counts[op]`
     * is only read when there are samples, and then `op` is already counted.
     */
    method StatsOfOne(op: string) returns (st: OpStats)
      requires Valid()
      modifies this
      ensures Valid()
      ensures st == old(StatsOf(op))
      ensures callTimes == old(callTimes)[op := old(Times(op))]
      ensures callCounts == old(callCounts)
      ensures errorCounts == if old(Times(op)) == [] then old(errorCounts) else old(errorCounts)[op := old(Errors(op))]
      ensures forall o :: Times(o) == old(Times(o)) && Errors(o) == old(Errors(o))
      ensures callTimes.Keys == old(callTimes.Keys) + {op}
      ensures errorCounts.Keys == old(errorCounts.Keys) + if Times(op) != [] then {op} else {}
    {
      var times := Times(op);
      callTimes := callTimes[op := times];
      if times != [] {
        assert op in callCounts;
        errorCounts := errorCounts[op := Errors(op)];
      }
      assert forall o :: Times(o) == old(Times(o)) && Count(o) == old(Count(o)) && Errors(o) == old(Errors(o));
      st := StatsOf(op);
    }

    /**
     * `get_stats(operation)`: a non-empty name gives that operation's
     * statistics; `None` or `""` gives every operation that was ever counted.
     * When `""` itself was counted, the comprehension calls `get_stats("")`,
     * which takes the same branch again and recurses without end, ending in
     * `RecursionError`. The counters, samples and error counts keep their
     * values; only default entries may be added.
     */
    method GetStats(operation: Option<string>) returns (r: Report)
      requires Valid()
      modifies this
      ensures Valid()
      ensures callCounts == old(callCounts)
      ensures forall o :: Times(o) == old(Times(o)) && Errors(o) == old(Errors(o))
      ensures operation.Some? && operation.value != "" ==>
        && r == One(old(StatsOf(operation.value)))
        && callTimes == old(callTimes)[operation.value := old(Times(operation.value))]
        && errorCounts == if old(Times(operation.value)) == [] then old(errorCounts)
                          else old(errorCounts)[operation.value := old(Errors(operation.value))]
      ensures !(operation.Some? && operation.value != "") ==>
        && (r.RecursionError? <==> "" in old(callCounts))
        && (r.RecursionError? || r.All?)
        && callTimes.Keys <= old(callTimes.Keys + callCounts.Keys)
        && errorCounts.Keys <= old(errorCounts.Keys + callCounts.Keys)
      ensures r.All? ==>
        && r.byOperation.Keys == old(callCounts).Keys
        && (forall o :: o in r.byOperation ==> r.byOperation[o] == old(StatsOf(o)))
        && (forall o :: o in callTimes <==> o in old(callTimes) || o in old(callCounts))
        && (forall o :: o in errorCounts <==> o in old(errorCounts) || (o in old(callCounts) && old(Times(o)) != []))
    {
      if operation.Some? && operation.value != "" {
        var st := StatsOfOne(operation.value);
        r := One(st);
      } else {
        r := StatsOfAll();
      }
    }

    /**
     * The `for op in self.call_counts` comprehension of `get_stats`, visiting
     * the counted operations in some order. Reaching `""` raises
     * `RecursionError`, with the operations visited before it touched.
     */
    method StatsOfAll() returns (r: Report)
      requires Valid()
      modifies this
      ensures Valid()
      ensures callCounts == old(callCounts)
      ensures forall o :: Times(o) == old(Times(o)) && Errors(o) == old(Errors(o))
      ensures r.RecursionError? <==> "" in old(callCounts)
      ensures r.RecursionError? || r.All?
      ensures callTimes.Keys <= old(callTimes.Keys + callCounts.Keys)
      ensures errorCounts.Keys <= old(errorCounts.Keys + callCounts.Keys)
      ensures r.All? ==>
        && r.byOperation.Keys == old(callCounts).Keys
        && (forall o :: o in r.byOperation ==> r.byOperation[o] == old(StatsOf(o)))
        && (forall o :: o in callTimes <==> o in old(callTimes) || o in old(callCounts))
        && (forall o :: o in errorCounts <==> o in old(errorCounts) || (o in old(callCounts) && old(Times(o)) != []))
    {
      var all, raised := Visit();
      // the net effect of the default-inserting reads of the visited operations
      var sampled := set o | o in all && Times(o) != [];
      callTimes := map o | o in callTimes.Keys + all.Keys :: Times(o);
      errorCounts := map o | o in errorCounts.Keys + sampled :: Errors(o);
      r := if raised then RecursionError else All(all);
    }

    /**
     * The visits of the comprehension: `raised` when `""` is reached, with
     * `all` the statistics of the operations visited before it.
     */
    method Visit() returns (all: map<string, OpStats>, raised: bool)
      ensures raised <==> "" in callCounts
      ensures all.Keys <= callCounts.Keys && (!raised ==> all.Keys == callCounts.Keys)
      ensures forall o :: o in all ==> all[o] == StatsOf(o)
    {
      var todo := callCounts.Keys;
      all := map[];
      while todo != {}
        invariant todo <= callCounts.Keys
        invariant "" !in all
        invariant all.Keys == callCounts.Keys - todo
        invariant forall o :: o in all ==> all[o] == StatsOf(o)
        decreases |todo|
      {
        var op :| op in todo;
        if op == "" {
          return all, true;
        }
        all := all[op := StatsOf(op)];
        todo := todo - {op};
      }
      raised := false;
    }

    /**
     * The `monitor` wrapper around one call that ran from `start` to `finish`:
     * exactly one call is recorded, failed exactly when the call raised an
     * `Exception` (a `BaseException` outside it is recorded as a success), and
     * the call's outcome is passed on unchanged. `slow` is the warning logged
     * for a call longer than five seconds.
     */
    method Monitor<T>(op: string, start: real, finish: real, call: CallResult<T>) returns (r: CallResult<T>, slow: bool)
      requires Valid()
      modifies this
      ensures Valid()
      ensures r == call
      ensures slow <==> finish - start > SlowSeconds
      ensures callTimes == old(callTimes)[op := Bounded(old(Times(op)), finish - start, maxSamples)]
      ensures callCounts == old(callCounts)[op := old(Count(op)) + 1]
      ensures errorCounts == if call.Raised? then old(errorCounts)[op := old(Errors(op)) + 1] else old(errorCounts)
    {
      // `success` is cleared only in the `except Exception` handler
      var success := !call.Raised?;
      var duration := finish - start;
      RecordCall(op, duration, success);
      slow := duration > SlowSeconds;
      r := call;
    }
  }

  /** The buffer keeps the newest samples, in order: at most `maxLen` of them, the latest last. */
  lemma {:induction false} BoundedKeepsNewest(q: seq<real>, x: real, maxLen: nat)
    requires |q| <= maxLen
    ensures maxLen > |q| ==> Bounded(q, x, maxLen) == q + [x]
    ensures maxLen == |q| && maxLen > 0 ==> Bounded(q, x, maxLen) == q[1..] + [x]
  {
    if maxLen == |q| && maxLen > 0 {
      assert (q + [x])[1..] == q[1..] + [x];
    }
  }

  /** Recording `n` calls of one operation counts all `n`, while at most `maxLen` samples survive. */
  function Replay(q: seq<real>, durations: seq<real>, maxLen: nat): (r: seq<real>)
    ensures |r| <= maxLen || (durations == [] && r == q)
  {
    if durations == [] then q
    else Bounded(Replay(q, durations[..|durations| - 1], maxLen), durations[|durations| - 1], maxLen)
  }

  /** With room for them all, replayed samples are kept in full, oldest first. */
  lemma {:induction false} ReplayKeepsAllWhenRoom(q: seq<real>, durations: seq<real>, maxLen: nat)
    requires |q| + |durations| <= maxLen
    ensures Replay(q, durations, maxLen) == q + durations
  {
    if durations != [] {
      var p := durations[..|durations| - 1];
      var x := durations[|durations| - 1];
      ReplayKeepsAllWhenRoom(q, p, maxLen);
      BoundedWithRoom(q + p, x, maxLen);
      AppendLast(q, p, x);
      assert durations == p + [x];
    }
  }

  lemma BoundedWithRoom(q: seq<real>, x: real, maxLen: nat)
    requires |q| + 1 <= maxLen
    ensures Bounded(q, x, maxLen) == q + [x]
  {
    assert (q + [x])[0..] == q + [x];
  }

  lemma AppendLast(q: seq<real>, p: seq<real>, x: real)
    ensures q + p + [x] == q + (p + [x])
  {
  }
}
