/** The data plane's results told by the steps that led to them: who issued, who asked, when it was handed over. */
module DataPlaneHistory {
  import opened Wire
  import opened Pending
  import opened DataPlane
  import opened DataPlaneProofs

  function Stepped(p: Policy, w: World, step: Step): World {
    if Possible(w, step) then Apply(p, w, step) else w
  }

  /** The world before step `i`. */
  function Before(p: Policy, steps: seq<Step>, i: nat): World
    requires i <= |steps|
  {
    Run(p, START, steps[..i])
  }

  lemma {:induction false} RunLast(p: Policy, w: World, steps: seq<Step>)
    requires steps != []
    ensures Run(p, w, steps) == Stepped(p, Run(p, w, steps[..|steps| - 1]), steps[|steps| - 1])
    decreases |steps|
  {
    hide Apply, Possible;
    var front := steps[..|steps| - 1];
    if |steps| == 1 {
      assert front == [] && steps[1..] == [];
      assert Run(p, Stepped(p, w, steps[0]), []) == Stepped(p, w, steps[0]);
    } else {
      assert front[1..] == steps[1..][..|steps| - 2];
      RunLast(p, Stepped(p, w, steps[0]), steps[1..]);
    }
  }

  // ----- what was issued, and by whom

  /** Step `i` accepted the external connection `x` for the Service, and the identifier is good for the lifetime. */
  ghost predicate AcceptedAt(p: Policy, steps: seq<Step>, i: nat, c: ConnectionId, it: Issued) {
    && i < |steps| && steps[i] == Accept(it.session, it.entry.service, c, it.external, it.entry.channel)
    && it.session in Before(p, steps, i).sessions
    && it.principal == Before(p, steps, i).sessions[it.session].principal
    && it.entry.expires == Before(p, steps, i).now + p.pendingLifetime
  }

  lemma {:induction false} StepIssues(p: Policy, w: World, step: Step, c: ConnectionId)
    requires Possible(w, step) && c in Apply(p, w, step).issued
    ensures
      var it := Apply(p, w, step).issued[c];
      || (c in w.issued && w.issued[c] == it)
      || (&& step == Accept(it.session, it.entry.service, c, it.external, it.entry.channel)
          && it.session in w.sessions && it.principal == w.sessions[it.session].principal
          && it.entry.expires == w.now + p.pendingLifetime)
  {
    hide Unused, NeverIssued, Fresh;
    if !step.Accept? && !step.Connect? {
      TablesShrink(p, w, step);
      hide Apply, Possible;
    }
  }

  /** Every identifier in use was issued by an accept of its own external connection, for that Session and Service. */
  lemma {:induction false} IssuedByAccept(p: Policy, steps: seq<Step>, c: ConnectionId)
    requires c in Run(p, START, steps).issued
    ensures exists i :: AcceptedAt(p, steps, i, c, Run(p, START, steps).issued[c])
    decreases |steps|
  {
    if steps == [] {
      assert false;
    } else {
      var n := |steps| - 1;
      var front, w := steps[..n], Run(p, START, steps[..n]);
      hide Apply, Possible, Run;
      RunLast(p, START, steps);
      var it := Run(p, START, steps).issued[c];
      if Possible(w, steps[n]) { StepIssues(p, w, steps[n], c); }
      if c in w.issued && w.issued[c] == it {
        IssuedByAccept(p, front, c);
        var i: nat :| AcceptedAt(p, front, i, c, it);
        assert front[..i] == steps[..i];
        assert AcceptedAt(p, steps, i, c, it);
      } else {
        assert AcceptedAt(p, steps, n, c, it);
      }
    }
  }

  // ----- whose Session it is

  lemma {:induction false} StepSessions(p: Policy, w: World, step: Step, s: SessionId)
    requires Possible(w, step) && s in Apply(p, w, step).sessions
    ensures
      var session := Apply(p, w, step).sessions[s];
      || (s in w.sessions && w.sessions[s].principal == session.principal)
      || step == Connect(s, session.principal)
  {
    hide Unused, NeverIssued, Fresh;
    if !step.Accept? && !step.Connect? {
      TablesShrink(p, w, step);
      hide Apply, Possible;
    }
  }

  /** The Principal of a Session is the one it connected with. */
  lemma {:induction false} SessionsWereConnected(p: Policy, steps: seq<Step>, s: SessionId)
    requires s in Run(p, START, steps).sessions
    ensures exists i :: 0 <= i < |steps| && steps[i] == Connect(s, Run(p, START, steps).sessions[s].principal)
    decreases |steps|
  {
    if steps == [] {
      assert false;
    } else {
      var n := |steps| - 1;
      var front, w := steps[..n], Run(p, START, steps[..n]);
      hide Apply, Possible, Run;
      RunLast(p, START, steps);
      var principal := Run(p, START, steps).sessions[s].principal;
      if Possible(w, steps[n]) { StepSessions(p, w, steps[n], s); }
      if s in w.sessions && w.sessions[s].principal == principal {
        SessionsWereConnected(p, front, s);
        var i :| 0 <= i < |front| && front[i] == Connect(s, principal);
        assert steps[i] == Connect(s, principal);
      } else {
        assert steps[n] == Connect(s, principal);
      }
    }
  }

  // ----- who asked

  /** Step `i` resolved this DataHello against a registered Session of the same Principal. */
  ghost predicate ResolvedAt(p: Policy, steps: seq<Step>, i: nat, k: nat, hello: Hello, principal: Principal,
                             stream: Stream) {
    && i < |steps| && steps[i] == Resolve(k, hello, principal, stream)
    && Known(Before(p, steps, i), hello, principal)
  }

  lemma {:induction false} ResolvedBefore(p: Policy, steps: seq<Step>, n: nat, i: nat, k: nat, hello: Hello,
                                          principal: Principal, stream: Stream)
    requires n <= |steps| && ResolvedAt(p, steps[..n], i, k, hello, principal, stream)
    ensures ResolvedAt(p, steps, i, k, hello, principal, stream)
  {
    hide Known;
    assert steps[..n][..i] == steps[..i];
  }

  lemma {:induction false} StepClaimsFrom(p: Policy, w: World, step: Step, k: nat)
    requires Possible(w, step) && k in Apply(p, w, step).claims
    ensures
      var q := Apply(p, w, step).claims[k];
      || (k in w.claims && w.claims[k].hello == q.hello && w.claims[k].principal == q.principal
          && w.claims[k].stream == q.stream)
      || (step == Resolve(k, q.hello, q.principal, q.stream) && Known(w, q.hello, q.principal))
  {
    hide Unused, NeverIssued, Fresh, Honours, Receives;
    if !step.Resolve? && !step.Take? && !step.Send? && !step.AbortClaim? {
      ClaimsUntouched(p, w, step);
      hide Apply, Possible;
    }
  }

  lemma {:induction false} ClaimsWereResolved(p: Policy, steps: seq<Step>, k: nat)
    requires k in Run(p, START, steps).claims
    ensures
      var q := Run(p, START, steps).claims[k];
      exists i :: ResolvedAt(p, steps, i, k, q.hello, q.principal, q.stream)
    decreases |steps|
  {
    if steps == [] {
      assert false;
    } else {
      var n := |steps| - 1;
      var front, w := steps[..n], Run(p, START, steps[..n]);
      hide Apply, Possible, Run;
      RunLast(p, START, steps);
      var q := Run(p, START, steps).claims[k];
      if Possible(w, steps[n]) { StepClaimsFrom(p, w, steps[n], k); }
      if k in w.claims && w.claims[k].hello == q.hello && w.claims[k].principal == q.principal
         && w.claims[k].stream == q.stream {
        ClaimsWereResolved(p, front, k);
        var i: nat :| ResolvedAt(p, front, i, k, q.hello, q.principal, q.stream);
        ResolvedBefore(p, steps, n, i, k, q.hello, q.principal, q.stream);
      } else {
        assert ResolvedAt(p, steps, n, k, q.hello, q.principal, q.stream);
      }
    }
  }

  // ----- when it was handed over

  /** Step `i` sent the stream, at the time recorded, for the DataHello that step `m` had resolved. */
  ghost predicate SentAt(p: Policy, steps: seq<Step>, m: nat, i: nat, k: nat, d: Delivery) {
    && m < i < |steps| && ResolvedAt(p, steps, m, k, d.hello, d.principal, d.stream)
    && steps[i] == Send(k) && d.at == Before(p, steps, i).now
  }

  lemma {:induction false} StepDelivers(p: Policy, w: World, step: Step, d: Delivery)
    requires Possible(w, step) && d in Apply(p, w, step).deliveries
    ensures
      || d in w.deliveries
      || (step.Send? && step.task in w.claims && w.claims[step.task].hello == d.hello && d.at == w.now
          && w.claims[step.task].principal == d.principal && w.claims[step.task].stream == d.stream)
  {
    if !step.Send? {
      DeliveriesUntouched(p, w, step);
      hide Apply, Possible;
    }
    hide Honours, Receives;
  }

  lemma {:induction false} SentBefore(p: Policy, steps: seq<Step>, n: nat, m: nat, i: nat, k: nat, d: Delivery)
    requires n <= |steps| && SentAt(p, steps[..n], m, i, k, d)
    ensures SentAt(p, steps, m, i, k, d)
  {
    hide ResolvedAt;
    ResolvedBefore(p, steps, n, m, k, d.hello, d.principal, d.stream);
    assert steps[..n][..i] == steps[..i];
  }

  lemma {:induction false} SentLast(p: Policy, steps: seq<Step>, k: nat, d: Delivery)
    requires
      && steps != [] && steps[|steps| - 1] == Send(k)
      && var w := Run(p, START, steps[..|steps| - 1]);
         && k in w.claims && d.at == w.now && d.hello == w.claims[k].hello && d.principal == w.claims[k].principal
         && d.stream == w.claims[k].stream
    ensures exists m, i, k :: SentAt(p, steps, m, i, k, d)
  {
    hide Run, ResolvedAt;
    var n := |steps| - 1;
    ClaimsWereResolved(p, steps[..n], k);
    var m: nat :| ResolvedAt(p, steps[..n], m, k, d.hello, d.principal, d.stream);
    ResolvedBefore(p, steps, n, m, k, d.hello, d.principal, d.stream);
    assert m < n by { ResolvedInside(p, steps[..n], m, k, d); }
    assert SentAt(p, steps, m, n, k, d);
  }

  lemma {:induction false} ResolvedInside(p: Policy, steps: seq<Step>, m: nat, k: nat, d: Delivery)
    requires ResolvedAt(p, steps, m, k, d.hello, d.principal, d.stream)
    ensures m < |steps|
  {
  }

  lemma {:induction false} DeliveriesWereSent(p: Policy, steps: seq<Step>, d: Delivery)
    requires d in Run(p, START, steps).deliveries
    ensures exists m, i, k :: SentAt(p, steps, m, i, k, d)
    decreases |steps|
  {
    if steps == [] {
      assert false;
    } else {
      var n := |steps| - 1;
      var w := Run(p, START, steps[..n]);
      hide Apply, Possible, Run, SentAt;
      RunLast(p, START, steps);
      if Possible(w, steps[n]) { StepDelivers(p, w, steps[n], d); }
      if d in w.deliveries {
        DeliveriesWereSent(p, steps[..n], d);
        var m: nat, i: nat, k: nat :| SentAt(p, steps[..n], m, i, k, d);
        SentBefore(p, steps, n, m, i, k, d);
      } else {
        SentLast(p, steps, steps[n].task, d);
      }
    }
  }

  // ----- the whole story of a stream

  /**
   Step `a` accepted an external connection for the Session and Service the DataHello names; step `m` resolved the
   DataHello with the Session's own Principal; step `i` sent the stream, before the lifetime since `a` was over.
   */
  ghost predicate Earns(p: Policy, steps: seq<Step>, d: Delivery, a: nat, m: nat, i: nat, k: nat) {
    && a < |steps| && steps[a].Accept? && steps[a].connection == d.hello.connection
    && steps[a].session == d.hello.session && steps[a].service == d.hello.service
    && d.hello.session in Before(p, steps, a).sessions
    && Before(p, steps, a).sessions[d.hello.session].principal == d.principal
    && SentAt(p, steps, m, i, k, d)
    && Before(p, steps, i).now < Before(p, steps, a).now + p.pendingLifetime
  }

  lemma {:induction false} EveryDeliveryIsEarned(p: Policy, steps: seq<Step>, d: Delivery)
    requires d in Run(p, START, steps).deliveries
    ensures exists a, m, i, k :: Earns(p, steps, d, a, m, i, k)
  {
    hide Run;
    StreamsMatchTheirIssue(p, steps);
    var c := d.hello.connection;
    IssuedByAccept(p, steps, c);
    var it := Run(p, START, steps).issued[c];
    var a: nat :| AcceptedAt(p, steps, a, c, it);
    DeliveriesWereSent(p, steps, d);
    var m: nat, i: nat, k: nat :| SentAt(p, steps, m, i, k, d);
    assert Earns(p, steps, d, a, m, i, k);
  }

  /** The accept step of the identifier, with the external connection it was made for. */
  ghost predicate AcceptedFor(steps: seq<Step>, a: nat, c: ConnectionId, x: External) {
    a < |steps| && steps[a].Accept? && steps[a].connection == c && steps[a].external == x
  }

  /**
   No identifier is served twice. Every stream handed over was asked for by a DataHello naming the Session and the
   Service of the accept step that issued the identifier, with that Session's Principal, and within the lifetime. Every
   joined pair is such a stream and the external connection of that very accept, which is joined at most once.
   */
  lemma {:induction false} StreamsReachTheirOwn(p: Policy, steps: seq<Step>)
    ensures var w := Run(p, START, steps);
      && (forall i, j :: 0 <= i < j < |w.deliveries| ==>
        w.deliveries[i].hello.connection != w.deliveries[j].hello.connection)
      && (forall d :: d in w.deliveries ==> exists a, m, i, k :: Earns(p, steps, d, a, m, i, k))
      && (forall j :: j in w.joined ==>
        j.delivery in w.deliveries && exists a :: AcceptedFor(steps, a, j.delivery.hello.connection, j.external))
      && (forall i, j :: 0 <= i < j < |w.joined| ==> w.joined[i].external != w.joined[j].external)
  {
    hide Run, Earns;
    StreamsMatchTheirIssue(p, steps);
    var w := Run(p, START, steps);
    forall d | d in w.deliveries ensures exists a, m, i, k :: Earns(p, steps, d, a, m, i, k) {
      EveryDeliveryIsEarned(p, steps, d);
    }
    forall j | j in w.joined ensures exists a :: AcceptedFor(steps, a, j.delivery.hello.connection, j.external) {
      var c := j.delivery.hello.connection;
      IssuedByAccept(p, steps, c);
      var a: nat :| AcceptedAt(p, steps, a, c, w.issued[c]);
      assert AcceptedFor(steps, a, c, j.external);
    }
  }
}
