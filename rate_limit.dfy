/**
 * The in-memory, per-client sliding-window rate limiter of the lenders proxy.
 *
 * The process keeps one map from client identifier to the timestamps (in
 * milliseconds) of that client's recent admitted requests. A check keeps only
 * the timestamps younger than the window, rejects when the limit is already
 * reached, and otherwise appends the current time and stores the list back.
 * The clock is a parameter `now` of every operation.
 */
module RateLimit {

  /** Requests admitted per client within one window. */
  const RATE_LIMIT: nat := 100

  /** Length of the sliding window: one hour, in milliseconds. */
  const WINDOW_MS: int := 60 * 60 * 1000

  /** The process-wide request log: client identifier to timestamps. */
  type Log = map<string, seq<int>>

  /** A timestamp counts at time `now` when it is strictly younger than the window. */
  predicate InWindow(now: int, t: int) {
    now - t < WINDOW_MS
  }

  /** The stored timestamps of `ip`; a client never seen has none. */
  function Lookup(log: Log, ip: string): seq<int> {
    if ip in log then log[ip] else []
  }

  /**
   * The timestamps of `ts` still inside the window at `now`, in their
   * original order (the array `filter` of the source).
   */
  function Recent(now: int, ts: seq<int>): (r: seq<int>)
    ensures |r| <= |ts|
    ensures forall i :: 0 <= i < |r| ==> InWindow(now, r[i]) && r[i] in ts
  {
    if ts == [] then []
    else (if InWindow(now, ts[0]) then [ts[0]] else []) + Recent(now, ts[1..])
  }

  /** What one check decides, and the request log it leaves behind. */
  datatype Decision = Decision(admitted: bool, log: Log)

  /**
   * One call of the rate limiter for client `ip` at time `now`. A rejection
   * returns before anything is written, so the log is left exactly as it was,
   * stale entries included.
   */
  function Step(log: Log, ip: string, now: int): (d: Decision)
    ensures d.admitted <==> |Recent(now, Lookup(log, ip))| < RATE_LIMIT
    ensures !d.admitted ==> d.log == log
    ensures d.admitted ==> d.log == log[ip := Recent(now, Lookup(log, ip)) + [now]]
    ensures d.admitted ==> ip in d.log && |d.log[ip]| <= RATE_LIMIT
    ensures d.admitted ==> forall i :: 0 <= i < |d.log[ip]| ==> InWindow(now, d.log[ip][i])
    ensures log.Keys <= d.log.Keys
    ensures forall k :: k in log && k != ip ==> k in d.log && d.log[k] == log[k]
  {
    var recent := Recent(now, Lookup(log, ip));
    if |recent| >= RATE_LIMIT then Decision(false, log)
    else Decision(true, log[ip := recent + [now]])
  }

  /** One incoming request as the rate limiter sees it. */
  datatype Call = Call(ip: string, now: int)

  /** The verdicts of a series of calls, and the log after the last one. */
  datatype Trace = Trace(verdicts: seq<bool>, log: Log)

  /** Runs `calls` one after the other against `log`. */
  function Replay(log: Log, calls: seq<Call>): (t: Trace)
    ensures |t.verdicts| == |calls|
    ensures log.Keys <= t.log.Keys
    decreases |calls|
  {
    if calls == [] then Trace([], log)
    else
      var d := Step(log, calls[0].ip, calls[0].now);
      var rest := Replay(d.log, calls[1..]);
      Trace([d.admitted] + rest.verdicts, rest.log)
  }

  /** `k` copies of the same value. */
  function Repeat<T>(x: T, k: nat): (s: seq<T>)
    ensures |s| == k && forall i :: 0 <= i < k ==> s[i] == x
  {
    seq(k, _ => x)
  }

  predicate Sorted(s: seq<int>) {
    forall i, j :: 0 <= i < j < |s| ==> s[i] <= s[j]
  }

  /** Every stored list holds at most RATE_LIMIT timestamps. */
  predicate Bounded(log: Log) {
    forall k :: k in log ==> |log[k]| <= RATE_LIMIT
  }

  /**
   * Every stored list is in non-decreasing order and no stored timestamp
   * lies after `clock`.
   */
  predicate Ordered(log: Log, clock: int) {
    forall k :: k in log ==> Sorted(log[k]) && forall i :: 0 <= i < |log[k]| ==> log[k][i] <= clock
  }

  // ---------------------------------------------------------------------
  // What the filter keeps
  // ---------------------------------------------------------------------

  /** Filtering a concatenation filters each part and keeps them in order. */
  lemma {:induction false} RecentAppend(now: int, a: seq<int>, b: seq<int>)
    ensures Recent(now, a + b) == Recent(now, a) + Recent(now, b)
  {
    if a == [] {
      assert a + b == b;
    } else {
      assert (a + b)[1..] == a[1..] + b;
      RecentAppend(now, a[1..], b);
    }
  }

  /**
   * The filter keeps every occurrence of an in-window timestamp and no
   * occurrence of any other.
   */
  lemma {:induction false} RecentCounts(now: int, ts: seq<int>)
    ensures forall x :: multiset(Recent(now, ts))[x] == if InWindow(now, x) then multiset(ts)[x] else 0
  {
    if ts != [] {
      RecentCounts(now, ts[1..]);
      assert ts == [ts[0]] + ts[1..];
      assert multiset(ts) == multiset{ts[0]} + multiset(ts[1..]);
    }
  }

  /** Filtering at a later time after filtering at an earlier one is filtering at the later time. */
  lemma {:induction false} RecentLater(now1: int, now2: int, ts: seq<int>)
    requires now1 <= now2
    ensures Recent(now2, Recent(now1, ts)) == Recent(now2, ts)
  {
    if ts != [] {
      var head := if InWindow(now1, ts[0]) then [ts[0]] else [];
      RecentAppend(now2, head, Recent(now1, ts[1..]));
      RecentLater(now1, now2, ts[1..]);
      if InWindow(now1, ts[0]) {
        assert Recent(now2, head) == (if InWindow(now2, ts[0]) then [ts[0]] else []) + Recent(now2, []);
      }
    }
  }

  /** When nothing in `ts` is in the window, the filter keeps nothing. */
  lemma {:induction false} RecentAllStale(now: int, ts: seq<int>)
    requires forall i :: 0 <= i < |ts| ==> !InWindow(now, ts[i])
    ensures Recent(now, ts) == []
  {
    if ts != [] {
      RecentAllStale(now, ts[1..]);
    }
  }

  /** When everything in `ts` is in the window, the filter keeps all of it. */
  lemma {:induction false} RecentAllFresh(now: int, ts: seq<int>)
    requires forall i :: 0 <= i < |ts| ==> InWindow(now, ts[i])
    ensures Recent(now, ts) == ts
  {
    if ts != [] {
      RecentAllFresh(now, ts[1..]);
      assert ts == [ts[0]] + ts[1..];
    }
  }

  /** The filter keeps a sorted list sorted. */
  lemma {:induction false} RecentSorted(now: int, ts: seq<int>)
    requires Sorted(ts)
    ensures Sorted(Recent(now, ts))
  {
    if ts != [] {
      RecentSorted(now, ts[1..]);
      var tail := Recent(now, ts[1..]);
      forall i | 0 <= i < |tail| ensures ts[0] <= tail[i] {
        var j :| 0 <= j < |ts[1..]| && ts[1..][j] == tail[i];
        assert ts[j + 1] == tail[i];
      }
    }
  }

  // ---------------------------------------------------------------------
  // Invariants of the request log
  // ---------------------------------------------------------------------

  /** No stored list ever grows beyond RATE_LIMIT timestamps. */
  lemma {:induction false} ReplayKeepsBounded(log: Log, calls: seq<Call>)
    requires Bounded(log)
    ensures Bounded(Replay(log, calls).log)
    decreases |calls|
  {
    if calls != [] {
      var d := Step(log, calls[0].ip, calls[0].now);
      assert Bounded(d.log);
      ReplayKeepsBounded(d.log, calls[1..]);
    }
  }

  /**
   * With a clock that never goes back, every stored list stays in
   * non-decreasing order and no later than the latest clock reading.
   */
  lemma StepKeepsOrdered(log: Log, clock: int, ip: string, now: int)
    requires Ordered(log, clock) && clock <= now
    ensures Ordered(Step(log, ip, now).log, now)
  {
    var d := Step(log, ip, now);
    if d.admitted {
      var stored := Lookup(log, ip);
      RecentSorted(now, stored);
      var recent := Recent(now, stored);
      forall i | 0 <= i < |recent| ensures recent[i] <= now {
        var j :| 0 <= j < |stored| && stored[j] == recent[i];
      }
      assert d.log[ip] == recent + [now];
    }
  }

  /** Calls for other clients leave a client's stored list untouched. */
  lemma {:induction false} OtherCallsLeaveQuota(log: Log, calls: seq<Call>, ip: string)
    requires forall i :: 0 <= i < |calls| ==> calls[i].ip != ip
    ensures Lookup(Replay(log, calls).log, ip) == Lookup(log, ip)
    decreases |calls|
  {
    if calls != [] {
      var d := Step(log, calls[0].ip, calls[0].now);
      assert Lookup(d.log, ip) == Lookup(log, ip);
      OtherCallsLeaveQuota(d.log, calls[1..], ip);
    }
  }

  /**
   * Whatever other clients do, a client's next verdict and stored list
   * are the ones it would have had without them.
   */
  lemma QuotasIndependent(log: Log, others: seq<Call>, ip: string, now: int)
    requires forall i :: 0 <= i < |others| ==> others[i].ip != ip
    ensures Step(Replay(log, others).log, ip, now).admitted == Step(log, ip, now).admitted
    ensures Lookup(Step(Replay(log, others).log, ip, now).log, ip) == Lookup(Step(log, ip, now).log, ip)
  {
    OtherCallsLeaveQuota(log, others, ip);
  }

  // ---------------------------------------------------------------------
  // Bursts and recovery
  // ---------------------------------------------------------------------

  /**
   * Starting from `j` timestamps all equal to `now`, a burst of `k` calls at
   * that same instant admits call number `i` (from zero) exactly when
   * `j + i` is below the limit.
   */
  lemma {:induction false} BurstFrom(log: Log, ip: string, now: int, j: nat, k: nat)
    requires j <= RATE_LIMIT && Lookup(log, ip) == Repeat(now, j)
    ensures Replay(log, Repeat(Call(ip, now), k)).verdicts == seq(k, i => j + i < RATE_LIMIT)
    decreases k
  {
    if k > 0 {
      var calls := Repeat(Call(ip, now), k);
      RecentAllFresh(now, Repeat(now, j));
      var d := Step(log, ip, now);
      assert calls[1..] == Repeat(Call(ip, now), k - 1);
      if j < RATE_LIMIT {
        assert d.log[ip] == Repeat(now, j) + [now];
        assert Lookup(d.log, ip) == Repeat(now, j + 1);
        BurstFrom(d.log, ip, now, j + 1, k - 1);
      } else {
        BurstFrom(d.log, ip, now, j, k - 1);
      }
      var rest := Replay(d.log, calls[1..]);
      assert Replay(log, calls).verdicts == [d.admitted] + rest.verdicts;
    }
  }

  /**
   * A client never seen before gets its first RATE_LIMIT requests within one
   * instant admitted and the next one rejected.
   */
  lemma FreshClientBurst(log: Log, ip: string, now: int)
    requires ip !in log
    ensures Replay(log, Repeat(Call(ip, now), RATE_LIMIT + 1)).verdicts == Repeat(true, RATE_LIMIT) + [false]
  {
    BurstFrom(log, ip, now, 0, RATE_LIMIT + 1);
  }

  /**
   * Once every stored timestamp of a client is at least a window old, the
   * client is admitted again and its list restarts with `now`.
   */
  lemma AdmittedAfterWindow(log: Log, ip: string, now: int)
    requires forall i :: 0 <= i < |Lookup(log, ip)| ==> now - Lookup(log, ip)[i] >= WINDOW_MS
    ensures Step(log, ip, now).admitted
    ensures Step(log, ip, now).log[ip] == [now]
  {
    RecentAllStale(now, Lookup(log, ip));
  }

  /**
   * The window bound is strict: a client that filled its quota at `t0` is
   * still rejected one millisecond before the window has passed, and is
   * admitted when its timestamps are exactly WINDOW_MS old.
   */
  lemma WindowBoundIsStrict(log: Log, ip: string, t0: int)
    requires Lookup(log, ip) == Repeat(t0, RATE_LIMIT)
    ensures !Step(log, ip, t0 + WINDOW_MS - 1).admitted
    ensures Step(log, ip, t0 + WINDOW_MS).admitted
  {
    RecentAllFresh(t0 + WINDOW_MS - 1, Repeat(t0, RATE_LIMIT));
    AdmittedAfterWindow(log, ip, t0 + WINDOW_MS);
  }

  /** A filter that drops nothing keeps the list as it is. */
  lemma {:induction false} RecentFullLength(now: int, ts: seq<int>)
    requires |Recent(now, ts)| == |ts|
    ensures Recent(now, ts) == ts
  {
    if ts != [] {
      assert InWindow(now, ts[0]);
      RecentFullLength(now, ts[1..]);
      assert ts == [ts[0]] + ts[1..];
    }
  }

  /**
   * A rejection never meets a stale timestamp: on a bounded log, a rejected
   * client has exactly RATE_LIMIT stored timestamps, all in the window. So
   * returning before the write agrees with pruning on every check: writing
   * the pruned list back would leave the log as it is.
   */
  lemma RejectionFindsNothingStale(log: Log, ip: string, now: int)
    requires Bounded(log) && !Step(log, ip, now).admitted
    ensures ip in log && |log[ip]| == RATE_LIMIT
    ensures Recent(now, log[ip]) == log[ip]
    ensures log[ip := Recent(now, log[ip])] == log
  {
    RecentFullLength(now, Lookup(log, ip));
  }

  // ---------------------------------------------------------------------
  // The limiter as the process holds it
  // ---------------------------------------------------------------------

  /** The process-wide limiter: a mutable map updated in place by each check. */
  class RateLimiter {
    var requestLog: Log

    ghost predicate Valid()
      reads this
    {
      Bounded(requestLog)
    }

    constructor ()
      ensures Valid() && requestLog == map[]
    {
      requestLog := map[];
    }

    /**
     * Checks and records one request of `ip` at time `now`: admits exactly
     * when fewer than RATE_LIMIT stored timestamps are in the window; on
     * admission stores the in-window timestamps followed by `now`, on
     * rejection changes nothing.
     */
    method CheckRateLimit(ip: string, now: int) returns (ok: bool)
      requires Valid()
      modifies this
      ensures Valid()
      ensures ok <==> |Recent(now, Lookup(old(requestLog), ip))| < RATE_LIMIT
      ensures ok == Step(old(requestLog), ip, now).admitted
      ensures requestLog == Step(old(requestLog), ip, now).log
      ensures ok ==> requestLog == old(requestLog)[ip := Recent(now, Lookup(old(requestLog), ip)) + [now]]
      ensures !ok ==> requestLog == old(requestLog)
    {
      var requests := if ip in requestLog then requestLog[ip] else [];
      var recentRequests := Recent(now, requests);
      if |recentRequests| >= RATE_LIMIT {
        return false;
      }
      recentRequests := recentRequests + [now];
      requestLog := requestLog[ip := recentRequests];
      ok := true;
    }
  }
}
