/** Authentication throttling: a bounded sliding window of failures for each source address. */
module Throttle {
  import opened Wire

  type Source = Bytes
  type Instant = nat
  type Table = map<Source, seq<Instant>>

  const AUTH_FAILURES_PER_SOURCE := 10
  const AUTH_FAILURE_WINDOW := 60_000_000_000
  const MAX_AUTH_SOURCES := 1024

  datatype Limits = Limits(threshold: nat, window: nat, maxSources: nat)

  const SERVER_LIMITS := Limits(AUTH_FAILURES_PER_SOURCE, AUTH_FAILURE_WINDOW, MAX_AUTH_SOURCES)

  /** The elapsed time saturates at zero, so a failure from the future is not stale unless the window is empty. */
  predicate Stale(window: nat, at: Instant, now: Instant) {
    (if now <= at then 0 else now - at) >= window
  }

  /** Stale failures are taken off the front only. */
  function DropStale(window: nat, q: seq<Instant>, now: Instant): seq<Instant> {
    if q == [] || !Stale(window, q[0], now) then q else DropStale(window, q[1..], now)
  }

  function Trim(q: seq<Instant>, n: nat): seq<Instant> {
    if |q| > n then q[|q| - n..] else q
  }

  function Held(t: Table, s: Source): seq<Instant> {
    if s in t then t[s] else []
  }

  function Pruned(lim: Limits, t: Table, now: Instant): Table {
    map s | s in t && DropStale(lim.window, t[s], now) != [] :: DropStale(lim.window, t[s], now)
  }

  predicate Blocked(lim: Limits, t: Table, s: Source, now: Instant) {
    var p := Pruned(lim, t, now);
    s in p && |p[s]| >= lim.threshold
  }

  /** A new source is left untracked while the table is full. */
  function Recorded(lim: Limits, t: Table, s: Source, now: Instant): Table {
    var p := Pruned(lim, t, now);
    if s !in p && |p| >= lim.maxSources then p
    else p[s := Trim(Held(p, s) + [now], lim.threshold)]
  }

  class AuthFailureLimiter {
    var failures: Table
    const limits: Limits

    constructor (limits: Limits)
      ensures failures == map[] && this.limits == limits
    {
      failures, this.limits := map[], limits;
    }

    method Prune(now: Instant)
      modifies this`failures
      ensures failures == Pruned(limits, old(failures), now)
    {
      var todo := failures.Keys;
      ghost var before := failures;
      while todo != {}
        invariant todo <= failures.Keys <= before.Keys
        invariant forall s :: s in todo ==> failures[s] == before[s]
        invariant forall s :: s in before.Keys - todo ==>
          (s in failures <==> DropStale(limits.window, before[s], now) != [])
        invariant forall s :: s in failures.Keys - todo ==> failures[s] == DropStale(limits.window, before[s], now)
        decreases |todo|
      {
        var s :| s in todo;
        todo := todo - {s};
        var q := failures[s];
        while q != [] && Stale(limits.window, q[0], now)
          invariant DropStale(limits.window, q, now) == DropStale(limits.window, before[s], now)
          decreases |q|
        {
          q := q[1..];
        }
        failures := if q == [] then failures - {s} else failures[s := q];
      }
    }

    method IsBlockedAt(s: Source, now: Instant) returns (blocked: bool)
      modifies this`failures
      ensures failures == Pruned(limits, old(failures), now)
      ensures blocked == Blocked(limits, old(failures), s, now)
    {
      Prune(now);
      blocked := s in failures && |failures[s]| >= limits.threshold;
    }

    method RecordFailureAt(s: Source, now: Instant)
      modifies this`failures
      ensures failures == Recorded(limits, old(failures), s, now)
    {
      Prune(now);
      if s !in failures && |failures| >= limits.maxSources { return; }
      var q := Held(failures, s) + [now];
      ghost var pushed := q;
      while |q| > limits.threshold
        invariant |q| <= |pushed| && q == pushed[|pushed| - |q|..]
        invariant |q| < |pushed| ==> |q| >= limits.threshold
        decreases |q|
      {
        q := q[1..];
      }
      assert q == Trim(pushed, limits.threshold);
      failures := failures[s := q];
    }
  }

  // ----- the same service from a full log

  datatype Failure = Failure(source: Source, at: Instant)

  function Times(log: seq<Failure>, s: Source): seq<Instant> {
    if log == [] then []
    else
      var f := log[|log| - 1];
      Times(log[..|log| - 1], s) + if f.source == s then [f.at] else []
  }

  /** How many of `q` fall in the window that ends at `now`. */
  function InWindow(window: nat, q: seq<Instant>, now: Instant): nat {
    if q == [] then 0 else (if now < q[0] + window then 1 else 0) + InWindow(window, q[1..], now)
  }

  function Failures(lim: Limits, log: seq<Failure>, s: Source, now: Instant): nat {
    InWindow(lim.window, Times(log, s), now)
  }

  function Sources(log: seq<Failure>): set<Source> {
    set i | 0 <= i < |log| :: log[i].source
  }

  /** Sources with a failure in the window. */
  function Live(lim: Limits, log: seq<Failure>, now: Instant): set<Source> {
    set s | s in Sources(log) && Failures(lim, log, s, now) > 0
  }

  function Logged(lim: Limits, log: seq<Failure>, s: Source, now: Instant): seq<Failure> {
    if s !in Live(lim, log, now) && |Live(lim, log, now)| >= lim.maxSources then log else log + [Failure(s, now)]
  }

  datatype Call = Check(source: Source, now: Instant) | Fail(source: Source, now: Instant)

  /** Every answer a list of calls gets from the bounded table. */
  function Answers(lim: Limits, t: Table, calls: seq<Call>): seq<bool>
    decreases |calls|
  {
    if calls == [] then []
    else match calls[0]
      case Check(s, now) => [Blocked(lim, t, s, now)] + Answers(lim, Pruned(lim, t, now), calls[1..])
      case Fail(s, now) => Answers(lim, Recorded(lim, t, s, now), calls[1..])
  }

  /** The answers from counting in the full log. */
  function LogAnswers(lim: Limits, log: seq<Failure>, calls: seq<Call>): seq<bool>
    decreases |calls|
  {
    if calls == [] then []
    else match calls[0]
      case Check(s, now) => [Failures(lim, log, s, now) >= lim.threshold] + LogAnswers(lim, log, calls[1..])
      case Fail(s, now) => LogAnswers(lim, Logged(lim, log, s, now), calls[1..])
  }

  function After(lim: Limits, t: Table, calls: seq<Call>): Table
    decreases |calls|
  {
    if calls == [] then t
    else match calls[0]
      case Check(s, now) => After(lim, Pruned(lim, t, now), calls[1..])
      case Fail(s, now) => After(lim, Recorded(lim, t, s, now), calls[1..])
  }

  predicate Ordered(last: Instant, calls: seq<Call>)
    decreases |calls|
  {
    calls == [] || (last <= calls[0].now && Ordered(calls[0].now, calls[1..]))
  }
}
