/** The pruned and truncated table answers exactly as the full log of failures would. */
module ThrottleProofs {
  import opened Wire
  import opened Throttle
  import opened Tally

  predicate Sorted(q: seq<Instant>) {
    forall i, j :: 0 <= i < j < |q| ==> q[i] <= q[j]
  }

  /** How many failures pruning takes off. */
  function Cut(window: nat, q: seq<Instant>, now: Instant): (c: nat)
    ensures c <= |q|
  {
    if q == [] || !Stale(window, q[0], now) then 0 else 1 + Cut(window, q[1..], now)
  }

  /** In a sorted list exactly the first `Cut` failures are stale. */
  lemma {:induction false} CutMeaning(window: nat, q: seq<Instant>, now: Instant)
    requires Sorted(q)
    ensures DropStale(window, q, now) == q[Cut(window, q, now)..]
    ensures forall i :: 0 <= i < |q| ==> (Stale(window, q[i], now) <==> i < Cut(window, q, now))
  {
    if q == [] {
    } else {
      CutMeaning(window, q[1..], now);
      assert forall i :: 1 <= i < |q| ==> q[i] == q[1..][i - 1];
      if Stale(window, q[0], now) {
        assert q[1..][Cut(window, q[1..], now)..] == q[Cut(window, q, now)..];
      } else {
        assert forall i :: 0 <= i < |q| ==> !Stale(window, q[i], now);
        if q[1..] != [] { assert !Stale(window, q[1..][0], now); }
      }
    }
  }

  /** What is left is what falls in the window. */
  lemma {:induction false} WindowCount(window: nat, q: seq<Instant>, now: Instant)
    requires Sorted(q) && forall i :: 0 <= i < |q| ==> q[i] <= now
    ensures InWindow(window, q, now) == |q| - Cut(window, q, now)
  {
    if q == [] {
    } else {
      WindowCount(window, q[1..], now);
      if !Stale(window, q[0], now) && q[1..] != [] { assert q[1..][0] == q[1] && !Stale(window, q[1], now); }
    }
  }

  lemma {:induction false} CutIs(window: nat, q: seq<Instant>, now: Instant, c: nat)
    requires Sorted(q) && c <= |q|
    requires forall i :: 0 <= i < |q| ==> (Stale(window, q[i], now) <==> i < c)
    ensures Cut(window, q, now) == c
  {
    CutMeaning(window, q, now);
    var d := Cut(window, q, now);
    assert c < |q| ==> (Stale(window, q[c], now) <==> c < d);
    assert d < |q| ==> (Stale(window, q[d], now) <==> d < c);
  }

  /** Dropping the first `i` first makes no difference beyond what pruning would have dropped. */
  lemma {:induction false} DropSuffix(window: nat, q: seq<Instant>, now: Instant, i: nat)
    requires Sorted(q) && i <= |q|
    ensures DropStale(window, q[i..], now) == q[if i < Cut(window, q, now) then Cut(window, q, now) else i..]
  {
    hide DropStale, InWindow, Cut, Stale;
    var c := Cut(window, q, now);
    CutMeaning(window, q, now);
    var d := if i < c then c - i else 0;
    assert forall k :: 0 <= k < |q[i..]| ==> q[i..][k] == q[i + k];
    CutIs(window, q[i..], now, d);
    CutMeaning(window, q[i..], now);
    assert q[i..][d..] == q[i + d..];
  }

  /** What is stale stays stale. */
  lemma {:induction false} CutGrows(window: nat, q: seq<Instant>, now: Instant, later: Instant)
    requires Sorted(q) && now <= later
    ensures Cut(window, q, now) <= Cut(window, q, later)
  {
    CutMeaning(window, q, now);
    CutMeaning(window, q, later);
    var c, d := Cut(window, q, now), Cut(window, q, later);
    assert d < |q| ==> (Stale(window, q[d], now) <==> d < c);
  }

  /** A deque that stands for the sorted history `q`, from `last` on: it always prunes to the newest of what is left. */
  ghost predicate Stands(lim: Limits, held: seq<Instant>, q: seq<Instant>, last: Instant) {
    forall now :: now >= last ==> DropStale(lim.window, held, now) == Trim(DropStale(lim.window, q, now), lim.threshold)
  }

  lemma {:induction false} TrimmedStands(lim: Limits, q: seq<Instant>, last: Instant, i: nat)
    requires Sorted(q) && i <= |q| && forall now :: now >= last ==> i <= Cut(lim.window, q, now)
    ensures Stands(lim, Trim(q[i..], lim.threshold), q, last)
  {
    var k := if |q| - i > lim.threshold then |q| - lim.threshold else i;
    assert Trim(q[i..], lim.threshold) == q[k..];
    forall now | now >= last
      ensures DropStale(lim.window, q[k..], now) == Trim(DropStale(lim.window, q, now), lim.threshold)
    {
      DropSuffix(lim.window, q, now, k);
      CutMeaning(lim.window, q, now);
      var c := Cut(lim.window, q, now);
      if |q| - c > lim.threshold { assert q[c..][|q| - c - lim.threshold..] == q[|q| - lim.threshold..]; }
    }
  }

  /** Pruning at `now` keeps the deque standing for the same history. */
  lemma {:induction false} PruneStands(lim: Limits, held: seq<Instant>, q: seq<Instant>, last: Instant, now: Instant)
    requires Sorted(q) && last <= now && Stands(lim, held, q, last)
    ensures Stands(lim, DropStale(lim.window, held, now), q, now)
  {
    CutMeaning(lim.window, q, now);
    var c := Cut(lim.window, q, now);
    assert DropStale(lim.window, held, now) == Trim(q[c..], lim.threshold);
    forall later | later >= now ensures c <= Cut(lim.window, q, later) { CutGrows(lim.window, q, now, later); }
    TrimmedStands(lim, q, now, c);
  }

  lemma {:induction false} PushTrim(q: seq<Instant>, c: nat, now: Instant, n: nat)
    requires c <= |q|
    ensures Trim(Trim(q[c..], n) + [now], n) == Trim((q + [now])[c..], n)
  {
    assert (q + [now])[c..] == q[c..] + [now];
  }

  lemma {:induction false} CutPushed(window: nat, q: seq<Instant>, now: Instant, later: Instant)
    requires Sorted(q) && now <= later && forall i :: 0 <= i < |q| ==> q[i] <= now
    ensures Cut(window, q, now) <= Cut(window, q + [now], later)
  {
    var q' := q + [now];
    var c, e := Cut(window, q, now), Cut(window, q', later);
    CutMeaning(window, q, now);
    CutMeaning(window, q', later);
    assert e < |q| ==> q'[e] == q[e] && (Stale(window, q[e], now) <==> e < c);
  }

  /** Pushing a failure at `now` on the pruned deque makes it stand for the longer history. */
  lemma {:induction false} PushStands(lim: Limits, held: seq<Instant>, q: seq<Instant>, last: Instant, now: Instant)
    requires Sorted(q) && last <= now && Stands(lim, held, q, last) && forall i :: 0 <= i < |q| ==> q[i] <= now
    ensures Sorted(q + [now])
    ensures Stands(lim, Trim(DropStale(lim.window, held, now) + [now], lim.threshold), q + [now], now)
  {
    var q' := q + [now];
    var c := Cut(lim.window, q, now);
    CutMeaning(lim.window, q, now);
    assert DropStale(lim.window, held, now) == Trim(q[c..], lim.threshold);
    PushTrim(q, c, now, lim.threshold);
    hide DropStale, Trim, Stands;
    forall later | later >= now ensures c <= Cut(lim.window, q', later) { CutPushed(lim.window, q, now, later); }
    TrimmedStands(lim, q', now, c);
  }

  lemma {:induction false} StaleTable(lim: Limits, t: Table, s: Source, now: Instant)
    requires forall r :: r in t ==> t[r] != []
    ensures Held(Pruned(lim, t, now), s) == DropStale(lim.window, Held(t, s), now)
    ensures s in Pruned(lim, t, now) <==> Held(Pruned(lim, t, now), s) != []
  {
  }

  // ----- the table and the log

  predicate LogOrdered(log: seq<Failure>, last: Instant) {
    && (forall i, j :: 0 <= i < j < |log| ==> log[i].at <= log[j].at)
    && (forall i :: 0 <= i < |log| ==> log[i].at <= last)
  }

  /**
   Every deque is non-empty, sorted, no longer than the threshold; there are no more than allowed; each stands for its
   source.
   */
  ghost predicate Agree(lim: Limits, t: Table, log: seq<Failure>, last: Instant) {
    && LogOrdered(log, last)
    && WithinBounds(lim, t)
    && forall s :: Stands(lim, Held(t, s), Times(log, s), last)
  }

  predicate WithinBounds(lim: Limits, t: Table) {
    && |t| <= lim.maxSources
    && forall s :: s in t ==> t[s] != [] && Sorted(t[s]) && |t[s]| <= lim.threshold
  }

  lemma {:induction false} TimesOrdered(log: seq<Failure>, last: Instant, s: Source)
    requires LogOrdered(log, last)
    ensures Sorted(Times(log, s)) && forall i :: 0 <= i < |Times(log, s)| ==> Times(log, s)[i] <= last
  {
    if log == [] {
    } else {
      var front := log[..|log| - 1];
      TimesOrdered(front, log[|log| - 1].at, s);
    }
  }

  lemma {:induction false} TimesPresent(log: seq<Failure>, s: Source)
    ensures s in Sources(log) <==> Times(log, s) != []
  {
    if log == [] {
    } else {
      var front := log[..|log| - 1];
      TimesPresent(front, s);
      assert log == front + [log[|log| - 1]];
      assert forall i :: 0 <= i < |front| ==> front[i] == log[i];
      if s in Sources(log) && log[|log| - 1].source != s {
        var i :| 0 <= i < |log| && log[i].source == s;
        assert front[i].source == s;
      }
    }
  }

  /**
   After pruning, the table holds a source exactly when the log has a failure of it in the window, and enough of them.
   */
  lemma {:induction false} PrunedSource(lim: Limits, t: Table, log: seq<Failure>, last: Instant, s: Source,
                                        now: Instant)
    requires lim.threshold >= 1 && last <= now && Agree(lim, t, log, last)
    ensures s in Pruned(lim, t, now) <==> s in Live(lim, log, now)
    ensures Blocked(lim, t, s, now) <==> Failures(lim, log, s, now) >= lim.threshold
  {
    var q := Times(log, s);
    TimesOrdered(log, last, s);
    TimesPresent(log, s);
    CutMeaning(lim.window, q, now);
    WindowCount(lim.window, q, now);
    StaleTable(lim, t, s, now);
    assert DropStale(lim.window, Held(t, s), now) == Trim(DropStale(lim.window, q, now), lim.threshold);
  }

  lemma {:induction false} PrunedSources(lim: Limits, t: Table, log: seq<Failure>, last: Instant, now: Instant)
    requires lim.threshold >= 1 && last <= now && Agree(lim, t, log, last)
    ensures Pruned(lim, t, now).Keys == Live(lim, log, now)
    ensures |Pruned(lim, t, now)| == |Live(lim, log, now)|
  {
    forall s ensures s in Pruned(lim, t, now).Keys <==> s in Live(lim, log, now) {
      PrunedSource(lim, t, log, last, s, now);
    }
    KeyCount(Pruned(lim, t, now));
  }

  lemma {:induction false} KeyCount(t: Table)
    ensures |t| == |t.Keys|
  {
  }

  lemma {:induction false} PrunedBounds(lim: Limits, t: Table, now: Instant)
    requires WithinBounds(lim, t)
    ensures WithinBounds(lim, Pruned(lim, t, now))
  {
    var p := Pruned(lim, t, now);
    SubsetSize(p.Keys, t.Keys);
    forall s | s in p ensures Sorted(p[s]) && |p[s]| <= lim.threshold {
      CutMeaning(lim.window, t[s], now);
    }
  }

  lemma {:induction false} PruneAgrees(lim: Limits, t: Table, log: seq<Failure>, last: Instant, now: Instant)
    requires last <= now && Agree(lim, t, log, last)
    ensures Agree(lim, Pruned(lim, t, now), log, now)
  {
    PrunedBounds(lim, t, now);
    forall s ensures Stands(lim, Held(Pruned(lim, t, now), s), Times(log, s), now) {
      TimesOrdered(log, last, s);
      StaleTable(lim, t, s, now);
      PruneStands(lim, Held(t, s), Times(log, s), last, now);
    }
  }

  lemma {:induction false} PutBounds(lim: Limits, p: Table, s: Source, q: seq<Instant>)
    requires WithinBounds(lim, p) && (s in p || |p| < lim.maxSources)
    requires q != [] && Sorted(q) && |q| <= lim.threshold
    ensures WithinBounds(lim, p[s := q])
  {
    var r := p[s := q];
    if s in p { assert r.Keys == p.Keys; KeyCount(r); KeyCount(p); } else { assert r.Keys == p.Keys + {s}; }
  }

  lemma {:induction false} PushedDeque(q: seq<Instant>, now: Instant, n: nat)
    requires n >= 1 && Sorted(q) && forall i :: 0 <= i < |q| ==> q[i] <= now
    ensures var d := Trim(q + [now], n); d != [] && Sorted(d) && |d| <= n
  {
    assert Sorted(q + [now]);
  }

  lemma {:induction false} RecordBounds(lim: Limits, t: Table, s: Source, now: Instant)
    requires lim.threshold >= 1 && WithinBounds(lim, t)
    requires s in Pruned(lim, t, now) || |Pruned(lim, t, now)| < lim.maxSources
    requires forall i :: 0 <= i < |Held(Pruned(lim, t, now), s)| ==> Held(Pruned(lim, t, now), s)[i] <= now
    ensures WithinBounds(lim, Recorded(lim, t, s, now))
  {
    hide Trim, DropStale, Pruned;
    var p := Pruned(lim, t, now);
    PrunedBounds(lim, t, now);
    PushedDeque(Held(p, s), now, lim.threshold);
    PutBounds(lim, p, s, Trim(Held(p, s) + [now], lim.threshold));
  }

  lemma {:induction false} HeldBefore(lim: Limits, t: Table, log: seq<Failure>, last: Instant, s: Source, now: Instant)
    requires last <= now && Agree(lim, t, log, last)
    ensures forall i :: 0 <= i < |Held(Pruned(lim, t, now), s)| ==> Held(Pruned(lim, t, now), s)[i] <= now
  {
    var q := Times(log, s);
    TimesOrdered(log, last, s);
    StaleTable(lim, t, s, now);
    CutMeaning(lim.window, q, now);
    assert Held(Pruned(lim, t, now), s) == Trim(DropStale(lim.window, q, now), lim.threshold);
  }

  lemma {:induction false} RecordStands(lim: Limits, t: Table, log: seq<Failure>, last: Instant, s: Source,
                                        now: Instant, r: Source)
    requires last <= now && Agree(lim, t, log, last)
    requires s in Pruned(lim, t, now) || |Pruned(lim, t, now)| < lim.maxSources
    ensures Stands(lim, Held(Recorded(lim, t, s, now), r), Times(log + [Failure(s, now)], r), now)
  {
    hide Trim, DropStale, Pruned, Stands;
    var log' := log + [Failure(s, now)];
    assert log'[..|log|] == log;
    TimesOrdered(log, last, r);
    StaleTable(lim, t, r, now);
    if r == s {
      PushStands(lim, Held(t, s), Times(log, s), last, now);
    } else {
      assert Times(log', r) == Times(log, r);
      PruneStands(lim, Held(t, r), Times(log, r), last, now);
    }
  }

  lemma {:induction false} RecordAgrees(lim: Limits, t: Table, log: seq<Failure>, last: Instant, s: Source,
                                        now: Instant)
    requires lim.threshold >= 1 && last <= now && Agree(lim, t, log, last)
    ensures Agree(lim, Recorded(lim, t, s, now), Logged(lim, log, s, now), now)
  {
    hide Trim, DropStale, Pruned, Stands, Live;
    PruneAgrees(lim, t, log, last, now);
    PrunedSources(lim, t, log, last, now);
    var p := Pruned(lim, t, now);
    if s in p || |p| < lim.maxSources {
      HeldBefore(lim, t, log, last, s, now);
      RecordBounds(lim, t, s, now);
      forall r ensures Stands(lim, Held(Recorded(lim, t, s, now), r), Times(log + [Failure(s, now)], r), now) {
        RecordStands(lim, t, log, last, s, now, r);
      }
    }
  }

  /** For any calls with non-decreasing times, the bounded table and the full log give the same answers. */
  lemma {:induction false} SameAnswers(lim: Limits, t: Table, log: seq<Failure>, last: Instant, calls: seq<Call>)
    requires lim.threshold >= 1 && Ordered(last, calls) && Agree(lim, t, log, last)
    ensures Answers(lim, t, calls) == LogAnswers(lim, log, calls)
    ensures WithinBounds(lim, After(lim, t, calls))
    decreases |calls|
  {
    hide Agree, Pruned, Recorded, Blocked, Logged, Failures;
    assert WithinBounds(lim, t) by { Bounds(lim, t, log, last); }
    if calls == [] {
    } else {
      match calls[0]
      case Check(s, now) =>
        PrunedSource(lim, t, log, last, s, now);
        PruneAgrees(lim, t, log, last, now);
        SameAnswers(lim, Pruned(lim, t, now), log, now, calls[1..]);
      case Fail(s, now) =>
        RecordAgrees(lim, t, log, last, s, now);
        SameAnswers(lim, Recorded(lim, t, s, now), Logged(lim, log, s, now), now, calls[1..]);
    }
  }

  lemma {:induction false} Bounds(lim: Limits, t: Table, log: seq<Failure>, last: Instant)
    requires Agree(lim, t, log, last)
    ensures WithinBounds(lim, t)
  {
  }

  lemma {:induction false} LimiterIsExact(lim: Limits, calls: seq<Call>)
    requires lim.threshold >= 1 && Ordered(0, calls)
    ensures Answers(lim, map[], calls) == LogAnswers(lim, [], calls)
    ensures WithinBounds(lim, After(lim, map[], calls))
  {
    assert Agree(lim, map[], [], 0);
    SameAnswers(lim, map[], [], 0, calls);
  }

  /**
   With the server's own limits: ten failures within sixty seconds block a source. Never more than ten are kept for
   one, and never more than 1024 sources.
   */
  lemma {:induction false} ServerLimiterIsExact(calls: seq<Call>)
    requires Ordered(0, calls)
    ensures Answers(SERVER_LIMITS, map[], calls) == LogAnswers(Limits(10, 60_000_000_000, 1024), [], calls)
    ensures var t := After(SERVER_LIMITS, map[], calls); |t| <= 1024 && forall s :: s in t ==> 1 <= |t[s]| <= 10
  {
    LimiterIsExact(SERVER_LIMITS, calls);
  }

  // ----- with room for every source

  function Fails(calls: seq<Call>): seq<Failure> {
    if calls == [] then []
    else (if calls[0].Fail? then [Failure(calls[0].source, calls[0].now)] else []) + Fails(calls[1..])
  }

  /** Every check answered by counting all the failures before it. */
  function PlainAnswers(threshold: nat, window: nat, log: seq<Failure>, calls: seq<Call>): seq<bool>
    decreases |calls|
  {
    if calls == [] then []
    else match calls[0]
      case Check(s, now) =>
        [InWindow(window, Times(log, s), now) >= threshold] + PlainAnswers(threshold, window, log, calls[1..])
      case Fail(s, now) => PlainAnswers(threshold, window, log + [Failure(s, now)], calls[1..])
  }

  lemma {:induction false} RoomToLog(lim: Limits, log: seq<Failure>, s: Source, now: Instant)
    requires |Sources(log + [Failure(s, now)])| <= lim.maxSources
    ensures Logged(lim, log, s, now) == log + [Failure(s, now)]
  {
    var all := Sources(log + [Failure(s, now)]);
    var live := Live(lim, log, now);
    if s !in live {
      assert s in all by { assert (log + [Failure(s, now)])[|log|].source == s; }
      assert live <= all - {s} by {
        forall r | r in live ensures r in all {
          var i :| 0 <= i < |log| && log[i].source == r;
          assert (log + [Failure(s, now)])[i].source == r;
        }
      }
      SubsetSize(live, all - {s});
    }
  }

  lemma {:induction false} MoreSources(log: seq<Failure>, more: seq<Failure>)
    ensures |Sources(log)| <= |Sources(log + more)|
  {
    forall r | r in Sources(log) ensures r in Sources(log + more) {
      var i :| 0 <= i < |log| && log[i].source == r;
      assert (log + more)[i].source == r;
    }
    SubsetSize(Sources(log), Sources(log + more));
  }

  lemma {:induction false} RoomyAnswers(lim: Limits, log: seq<Failure>, calls: seq<Call>)
    requires |Sources(log + Fails(calls))| <= lim.maxSources
    ensures LogAnswers(lim, log, calls) == PlainAnswers(lim.threshold, lim.window, log, calls)
    decreases |calls|
  {
    hide Sources, Times, InWindow, Logged;
    if calls == [] {
    } else {
      match calls[0]
      case Check(s, now) =>
        assert Fails(calls) == Fails(calls[1..]);
        RoomyAnswers(lim, log, calls[1..]);
      case Fail(s, now) =>
        var longer := log + [Failure(s, now)];
        assert log + Fails(calls) == longer + Fails(calls[1..]);
        MoreSources(longer, Fails(calls[1..]));
        RoomToLog(lim, log, s, now);
        RoomyAnswers(lim, longer, calls[1..]);
    }
  }

  /** While no more than 1024 sources fail, a source is blocked exactly from its tenth failure within sixty seconds. */
  lemma {:induction false} TenFailuresBlock(calls: seq<Call>)
    requires Ordered(0, calls) && |Sources(Fails(calls))| <= 1024
    ensures Answers(SERVER_LIMITS, map[], calls) == PlainAnswers(10, 60_000_000_000, [], calls)
  {
    ServerLimiterIsExact(calls);
    assert [] + Fails(calls) == Fails(calls);
    RoomyAnswers(SERVER_LIMITS, [], calls);
  }
}
