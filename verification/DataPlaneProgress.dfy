/** What the data plane does for those it admits: an accepted connection that is claimed in time is joined. */
module DataPlaneProgress {
  import opened Wire
  import opened Pending
  import opened DataPlane
  import opened DataPlaneProofs

  /**
   An accept is admitted exactly when fewer than the limit are waiting. Then the identifier waits for the listener's
   own Service, the lifetime from now; otherwise nothing changes.
   */
  lemma {:induction false} AcceptDecides(p: Policy, w: World, s: SessionId, service: ServiceId, c: ConnectionId,
                                         x: External, ch: Channel)
    requires Possible(w, Accept(s, service, c, x, ch))
    ensures
      var v := Apply(p, w, Accept(s, service, c, x, ch));
      && (c in v.issued <==> |w.sessions[s].pending| < p.pendingPerSession)
      && (c !in v.issued ==> v == w)
      && (c in v.issued ==>
        && v.sessions[s].pending == w.sessions[s].pending[c := Entry(service, w.now + p.pendingLifetime, ch)]
        && v.counter == w.counter + 1 && ch in v.relays && v.relays[ch] == Relay(s, c, x, None, Opening)
        && forall z :: z in w.sessions && z != s ==> v.sessions[z] == w.sessions[z])
  {
  }

  /** A held stream is delivered exactly when its identifier is honoured and the accepting task still listens. */
  lemma {:induction false} SendDecides(p: Policy, w: World, k: nat)
    requires Possible(w, Send(k))
    ensures
      var v, q := Apply(p, w, Send(k)), w.claims[k];
      var d := Delivery(q.hello, q.principal, q.stream, w.now);
      var ch := q.entry.channel;
      && v.claims == w.claims - {k}
      && (if q.entry.service == q.hello.service && w.now < q.entry.expires && ch in w.relays
             && !w.relays[ch].phase.Cleaning?
          then v.deliveries == w.deliveries + [d] && ch in v.relays && v.relays[ch] == w.relays[ch].(inbox := Some(d))
          else v.deliveries == w.deliveries && v.relays == w.relays)
  {
  }

  // ----- what takes a waiting identifier away

  /** The step takes this identifier out of its Session's table, if it is there. */
  predicate TakesAway(w: World, step: Step, s: SessionId, c: ConnectionId, service: ServiceId) {
    match step
    case OpenReject(r, d) => r == s && d == c
    case RemoveService(r, k) => r == s && k == service
    case RemoveAll(r) => r == s
    case DropContext(r) => r == s
    case Take(k) => k in w.claims && w.claims[k].hello.session == s && w.claims[k].hello.connection == c
    case OpenFailed(ch) => ch in w.relays && w.relays[ch].session == s && w.relays[ch].connection == c
    case Clean(ch) => ch in w.relays && w.relays[ch].session == s && w.relays[ch].connection == c
    case _ => false
  }

  lemma {:induction false} OneRemoved(w: World, r: SessionId, d: ConnectionId, s: SessionId, c: ConnectionId)
    requires r in w.sessions && s in w.sessions && c in w.sessions[s].pending
    ensures
      var v := RemoveOne(w, r, d);
      && s in v.sessions && (c in v.sessions[s].pending <==> !(r == s && d == c))
      && (c in v.sessions[s].pending ==> v.sessions[s].pending[c] == w.sessions[s].pending[c])
  {
  }

  /**
   An identifier stops waiting exactly at a refused or failed open, a claim, its task's clean-up, or the removal of its
   Service or Session; an aborted task leaves it there.
   */
  lemma {:induction false} TakenAwayExactly(p: Policy, w: World, step: Step, s: SessionId, c: ConnectionId)
    requires Possible(w, step) && s in w.sessions && c in w.sessions[s].pending && c in w.issued
    ensures
      var v, e := Apply(p, w, step), w.sessions[s].pending[c];
      if TakesAway(w, step, s, c, e.service) then s !in v.sessions || c !in v.sessions[s].pending
      else s in v.sessions && c in v.sessions[s].pending && v.sessions[s].pending[c] == e
  {
    if Quiet(step) {
      QuietStep(p, w, step);
      hide Apply, Possible;
    } else if step.OpenFailed? || step.Clean? || step.Take? || step.OpenReject? {
      SingleTakenAway(p, w, step, s, c);
      hide Apply, Possible;
    } else {
      hide RemoveOne, Cleaned, Taken, Sent, Unused, NeverIssued;
    }
  }

  lemma {:induction false} SingleTakenAway(p: Policy, w: World, step: Step, s: SessionId, c: ConnectionId)
    requires step.OpenFailed? || step.Clean? || step.Take? || step.OpenReject?
    requires Possible(w, step) && s in w.sessions && c in w.sessions[s].pending
    ensures
      var v, e := Apply(p, w, step), w.sessions[s].pending[c];
      && s in v.sessions && (c !in v.sessions[s].pending <==> TakesAway(w, step, s, c, e.service))
      && (c in v.sessions[s].pending ==> v.sessions[s].pending[c] == e)
  {
    hide RemoveOne;
    match step
    case OpenFailed(ch) => OneRemoved(w, w.relays[ch].session, w.relays[ch].connection, s, c);
    case Clean(ch) => OneRemoved(w, w.relays[ch].session, w.relays[ch].connection, s, c);
    case Take(k) => OneRemoved(w, w.claims[k].hello.session, w.claims[k].hello.connection, s, c);
    case OpenReject(r, d) => OneRemoved(w, r, d, s, c);
  }

  /** A registered Session is resolved for exactly its own Principal. */
  lemma {:induction false} RegisteredIsResolved(p: Policy, w: World, k: nat, hello: Hello, principal: Principal,
                                                stream: Stream)
    requires hello.session in w.sessions && k !in w.claims
    ensures
      var v := Run(p, w, [Register(hello.session), Resolve(k, hello, principal, stream)]);
      v.claims == if principal == w.sessions[hello.session].principal
                  then w.claims[k := Resolved(hello, principal, stream)] else w.claims
  {
    hide Run;
    RunTwo(p, w, Register(hello.session), Resolve(k, hello, principal, stream));
  }

  /** A Session that has left the registry gives out no more streams, though its table still stands. */
  lemma {:induction false} UnregisteredIsRefused(p: Policy, w: World, k: nat, hello: Hello, principal: Principal,
                                                 stream: Stream)
    ensures Run(p, w, [Unregister(hello.session), Resolve(k, hello, principal, stream)]) ==
      w.(registry := w.registry - {hello.session})
  {
    var a, b := Unregister(hello.session), Resolve(k, hello, principal, stream);
    assert [a, b] == [a] + ([b] + []);
    RunFirst(p, w, a, [b] + []);
    RunFirst(p, Apply(p, w, a), b, []);
  }

  /** A task that times out or is cancelled joins nothing, and its identifier is taken back. */
  lemma {:induction false} TimedOutIsTakenBack(p: Policy, w: World, ch: Channel)
    requires ch in w.relays && w.relays[ch].phase.Listening? && w.relays[ch].session in w.sessions
    ensures
      var v, r := Run(p, w, [Wake(ch, false), Clean(ch)]), w.relays[ch];
      && v.joined == w.joined && v.relays == w.relays - {ch} && v.sessions.Keys == w.sessions.Keys
      && v.sessions[r.session].pending == w.sessions[r.session].pending - {r.connection}
      && v.counter == w.counter - (if r.connection in w.sessions[r.session].pending then 1 else 0)
  {
    hide Run;
    RunTwo(p, w, Wake(ch, false), Clean(ch));
    var r := w.relays[ch];
    assert w.relays[ch := r.(phase := Cleaning(None))] - {ch} == w.relays - {ch};
    assert r.connection !in w.sessions[r.session].pending ==>
      w.sessions[r.session].pending - {r.connection} == w.sessions[r.session].pending;
  }

  // ----- a connection from its accept to its join

  function Serving(s: SessionId, service: ServiceId, c: ConnectionId, x: External, ch: Channel): seq<Step> {
    [Accept(s, service, c, x, ch), OpenSent(ch)]
  }

  /** The client's dial-back: resolved, claimed and sent, at time `t`. */
  function Answering(t: Instant, k: nat, hello: Hello, principal: Principal, stream: Stream): seq<Step> {
    [Tick(t), Resolve(k, hello, principal, stream), Take(k), Send(k)]
  }

  function Joining(ch: Channel): seq<Step> {
    [Wake(ch, true), Clean(ch)]
  }

  lemma {:induction false} RunBoth(p: Policy, w: World, a: seq<Step>, b: seq<Step>)
    ensures Run(p, w, a + b) == Run(p, Run(p, w, a), b)
    decreases |a|
  {
    hide Possible, Apply;
    if a == [] {
      assert a + b == b;
    } else {
      assert (a + b)[1..] == a[1..] + b;
      RunBoth(p, if Possible(w, a[0]) then Apply(p, w, a[0]) else w, a[1..], b);
    }
  }

  lemma {:induction false} RunTwo(p: Policy, w: World, a: Step, b: Step)
    requires Possible(w, a) && Possible(Apply(p, w, a), b)
    ensures Run(p, w, [a, b]) == Apply(p, Apply(p, w, a), b)
  {
    hide Possible, Apply;
    assert [a, b][1..] == [b] && [b][1..] == [];
    assert Run(p, Apply(p, Apply(p, w, a), b), []) == Apply(p, Apply(p, w, a), b);
    assert Run(p, Apply(p, w, a), [b]) == Apply(p, Apply(p, w, a), b);
  }

  /** The world once the accepted connection listens. */
  function Waiting(p: Policy, w: World, s: SessionId, service: ServiceId, c: ConnectionId, x: External,
                   ch: Channel): World
    requires s in w.sessions
  {
    var e := Entry(service, w.now + p.pendingLifetime, ch);
    w.(sessions := w.sessions[s := w.sessions[s].(pending := w.sessions[s].pending[c := e])],
       counter := w.counter + 1, issued := w.issued[c := Issued(s, w.sessions[s].principal, x, e)],
       relays := w.relays[ch := Relay(s, c, x, None, Listening)])
  }

  lemma {:induction false} Serves(p: Policy, w: World, s: SessionId, service: ServiceId, c: ConnectionId, x: External,
                                  ch: Channel)
    requires Possible(w, Accept(s, service, c, x, ch)) && |w.sessions[s].pending| < p.pendingPerSession
    ensures Run(p, w, Serving(s, service, c, x, ch)) == Waiting(p, w, s, service, c, x, ch)
  {
    hide Run, Fresh;
    RunTwo(p, w, Accept(s, service, c, x, ch), OpenSent(ch));
    var v := Apply(p, w, Accept(s, service, c, x, ch));
    assert v.relays[ch := v.relays[ch].(phase := Listening)] ==
      w.relays[ch := Relay(s, c, x, None, Listening)];
  }

  lemma {:induction false} Answers(p: Policy, w: World, t: Instant, k: nat, hello: Hello, principal: Principal,
                                   stream: Stream)
    requires k !in w.claims && w.now <= t
    ensures Run(p, w, Answering(t, k, hello, principal, stream)) == Handled(w.(now := t), k, hello, principal, stream)
  {
    hide Handled;
    var rest := [Resolve(k, hello, principal, stream), Take(k), Send(k)];
    assert Answering(t, k, hello, principal, stream) == [Tick(t)] + rest;
    RunFirst(p, w, Tick(t), rest);
    HandledIsARun(p, w.(now := t), k, hello, principal, stream);
  }

  lemma {:induction false} AnswersWaiting(w: World, k: nat, hello: Hello, stream: Stream)
    requires k !in w.claims && hello.session in w.registry && hello.session in w.sessions
    requires hello.connection in w.sessions[hello.session].pending
    ensures
      var session := w.sessions[hello.session];
      var e := session.pending[hello.connection];
      var v := Handled(w, k, hello, session.principal, stream);
      var d := Delivery(hello, session.principal, stream, w.now);
      && v.sessions == w.sessions[hello.session := session.(pending := session.pending - {hello.connection})]
      && v.counter == w.counter - 1 && v.claims == w.claims && v.joined == w.joined && v.now == w.now
      && v.registry == w.registry
      && v.relays == (if Honours(e, hello, w.now) && Receives(w, e.channel)
                      then w.relays[e.channel := w.relays[e.channel].(inbox := Some(d))] else w.relays)
  {
    var session := w.sessions[hello.session];
    var q := Resolved(hello, session.principal, stream);
    var h := Holding(hello, session.principal, stream, session.pending[hello.connection]);
    assert w.claims[k := q][k := h] - {k} == w.claims;
    hide Honours, Receives;
  }

  lemma {:induction false} Joins(p: Policy, w: World, ch: Channel)
    requires ch in w.relays && w.relays[ch].phase.Listening? && w.relays[ch].session in w.sessions
    requires w.relays[ch].connection !in w.sessions[w.relays[ch].session].pending
    ensures
      var r := w.relays[ch];
      Run(p, w, Joining(ch)) == w.(relays := w.relays - {ch}, joined := w.joined +
        if r.inbox.Some? then [Joined(r.external, ch, r.inbox.value)] else [])
  {
    hide Run;
    RunTwo(p, w, Wake(ch, true), Clean(ch));
    var r := w.relays[ch];
    assert w.relays[ch := r.(phase := Cleaning(r.inbox))] - {ch} == w.relays - {ch};
    if r.inbox.None? { assert w.joined + [] == w.joined; }
  }

  /** Accepted and answered: only the task is left, with the stream in its inbox if it came in time. */
  lemma {:induction false} AnsweredFrom(p: Policy, w: World, s: SessionId, service: ServiceId, c: ConnectionId,
                                        x: External, ch: Channel, t: Instant, k: nat, stream: Stream)
    requires s in w.sessions && s in w.registry && k !in w.claims && w.now <= t && c !in w.sessions[s].pending
    ensures
      var hello, principal := Hello(s, service, c), w.sessions[s].principal;
      var v := Handled(Waiting(p, w, s, service, c, x, ch).(now := t), k, hello, principal, stream);
      var inbox := if t < w.now + p.pendingLifetime then Some(Delivery(hello, principal, stream, t)) else None;
      && v.sessions == w.sessions && v.counter == w.counter && v.claims == w.claims && v.joined == w.joined
      && v.relays == w.relays[ch := Relay(s, c, x, inbox, Listening)]
  {
    var hello := Hello(s, service, c);
    var w1 := Waiting(p, w, s, service, c, x, ch).(now := t);
    AnswersWaiting(w1, k, hello, stream);
    hide Handled;
    assert w1.sessions[s].pending - {c} == w.sessions[s].pending;
    assert w1.sessions[s := w1.sessions[s].(pending := w.sessions[s].pending)] == w.sessions;
    var d := Delivery(hello, w.sessions[s].principal, stream, t);
    assert w1.relays[ch := w1.relays[ch].(inbox := Some(d))] == w.relays[ch := Relay(s, c, x, Some(d), Listening)];
  }

  lemma {:induction false} JoinedFrom(p: Policy, w: World, s: SessionId, service: ServiceId, c: ConnectionId,
                                      x: External, ch: Channel, t: Instant, k: nat, stream: Stream)
    requires Possible(w, Accept(s, service, c, x, ch)) && |w.sessions[s].pending| < p.pendingPerSession
    requires s in w.registry && k !in w.claims && w.now <= t && ch !in w.relays && c !in w.sessions[s].pending
    ensures
      var hello, principal := Hello(s, service, c), w.sessions[s].principal;
      var v := Run(p, w, Serving(s, service, c, x, ch) + Answering(t, k, hello, principal, stream) + Joining(ch));
      && v.joined == w.joined + (if t < w.now + p.pendingLifetime
                                 then [Joined(x, ch, Delivery(hello, principal, stream, t))] else [])
      && v.sessions == w.sessions && v.counter == w.counter && v.claims == w.claims && v.relays == w.relays
  {
    hide Run, Handled, Fresh, Serving, Answering, Joining;
    var hello, principal := Hello(s, service, c), w.sessions[s].principal;
    RunBoth(p, w, Serving(s, service, c, x, ch) + Answering(t, k, hello, principal, stream), Joining(ch));
    RunBoth(p, w, Serving(s, service, c, x, ch), Answering(t, k, hello, principal, stream));
    Serves(p, w, s, service, c, x, ch);
    Answers(p, Waiting(p, w, s, service, c, x, ch), t, k, hello, principal, stream);
    AnsweredFrom(p, w, s, service, c, x, ch, t, k, stream);
    hide Waiting;
    var v := Handled(Waiting(p, w, s, service, c, x, ch).(now := t), k, hello, principal, stream);
    Joins(p, v, ch);
    assert v.relays - {ch} == w.relays;
  }

  lemma {:induction false} FreshIsNew(w: World, s: SessionId, c: ConnectionId, x: External, ch: Channel)
    requires TablesIssued(w) && RelaysGood(w) && s in w.sessions && DataPlane.Fresh(w, c, x, ch)
    ensures ch !in w.relays && c !in w.sessions[s].pending
  {
  }

  /**
   After any run, a connection accepted while there is room and answered by its Session's client at time `t` is joined
   to the client's stream if and only if `t` falls within the lifetime. Either way every table, the count and the tasks
   are as before the accept.
   */
  lemma {:induction false} AcceptedIsJoined(p: Policy, before: seq<Step>, s: SessionId, service: ServiceId,
                                            c: ConnectionId, x: External, ch: Channel, t: Instant, k: nat,
                                            stream: Stream)
    requires
      var w := Run(p, START, before);
      && Possible(w, Accept(s, service, c, x, ch)) && |w.sessions[s].pending| < p.pendingPerSession
      && s in w.registry && k !in w.claims && w.now <= t
    ensures
      var w := Run(p, START, before);
      var hello, principal := Hello(s, service, c), w.sessions[s].principal;
      var v := Run(p, w, Serving(s, service, c, x, ch) + Answering(t, k, hello, principal, stream) + Joining(ch));
      && v.joined == w.joined + (if t < w.now + p.pendingLifetime
                                 then [Joined(x, ch, Delivery(hello, principal, stream, t))] else [])
      && v.sessions == w.sessions && v.counter == w.counter && v.claims == w.claims && v.relays == w.relays
  {
    StartSound(p);
    RunSound(p, START, before);
    var w := Run(p, START, before);
    assert TablesIssued(w) && RelaysGood(w);
    hide Run, Sound, TablesIssued, RelaysGood;
    FreshIsNew(w, s, c, x, ch);
    JoinedFrom(p, w, s, service, c, x, ch, t, k, stream);
  }
}
