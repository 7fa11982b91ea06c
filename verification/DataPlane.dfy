/**
 The server's data plane as interleaved atomic steps: every locked section and every hand-over between tasks is
 one step, and any step that is possible may come next.
 */
module DataPlane {
  import opened Wire
  import opened Pending

  /** The accepted outside connection, and the stream a client dials back. */
  type External = nat
  type Stream = nat

  datatype Session = Session(principal: Principal, pending: Table)

  /** A stream handed over, with the DataHello that earned it and when. */
  datatype Delivery = Delivery(hello: Hello, principal: Principal, stream: Stream, at: Instant)

  /** A Data Connection's task, holding a strong reference to its Session. */
  datatype Claim =
    | Resolved(hello: Hello, principal: Principal, stream: Stream)
    | Holding(hello: Hello, principal: Principal, stream: Stream, entry: Entry)

  datatype Phase = Opening | Listening | Cleaning(outcome: Option<Delivery>)

  /** The task behind one accepted connection: it owns the receiving half of its channel until it starts cleaning. */
  datatype Relay = Relay(session: SessionId, connection: ConnectionId, external: External, inbox: Option<Delivery>,
                         phase: Phase)

  datatype Joined = Joined(external: External, channel: Channel, delivery: Delivery)

  datatype Issued = Issued(session: SessionId, principal: Principal, external: External, entry: Entry)

  datatype World = World(
    now: Instant,
    counter: int,
    sessions: map<SessionId, Session>,
    registry: set<SessionId>,
    relays: map<Channel, Relay>,
    claims: map<nat, Claim>,
    issued: map<ConnectionId, Issued>,
    deliveries: seq<Delivery>,
    joined: seq<Joined>)

  const START := World(0, 0, map[], {}, map[], map[], map[], [], [])

  datatype Policy = Policy(pendingPerSession: nat, pendingLifetime: nat)

  datatype Step =
    | Tick(to: Instant)
    | Connect(session: SessionId, principal: Principal)
    | Register(session: SessionId)
    | Unregister(session: SessionId)
    | DropContext(session: SessionId)
    | Accept(session: SessionId, service: ServiceId, connection: ConnectionId, external: External, channel: Channel)
    | OpenFailed(channel: Channel)
    | OpenSent(channel: Channel)
    | Wake(channel: Channel, take: bool)
    | Clean(channel: Channel)
    | Abort(channel: Channel)
    | Resolve(task: nat, hello: Hello, principal: Principal, stream: Stream)
    | Take(task: nat)
    | Send(task: nat)
    | AbortClaim(task: nat)
    | OpenReject(session: SessionId, connection: ConnectionId)
    | RemoveService(session: SessionId, service: ServiceId)
    | RemoveAll(session: SessionId)

  // ----- locked sections

  function Store(w: World, s: SessionId, t: Table, counter: int): World
    requires s in w.sessions
  {
    w.(sessions := w.sessions[s := w.sessions[s].(pending := t)], counter := counter)
  }

  /** Remove one entry if it is there, and only then count it off. */
  function RemoveOne(w: World, s: SessionId, c: ConnectionId): World
    requires s in w.sessions
  {
    var t := w.sessions[s].pending;
    if c in t then Store(w, s, t - {c}, w.counter - 1) else w
  }

  predicate Unused(w: World, s: SessionId) {
    && (forall ch :: ch in w.relays ==> w.relays[ch].session != s)
    && (forall k :: k in w.claims ==> w.claims[k].hello.session != s)
  }

  /** Identifiers come from a random source wide enough never to repeat. */
  predicate Fresh(w: World, c: ConnectionId, x: External, ch: Channel) {
    && c !in w.issued
    && (forall d :: d in w.issued ==> w.issued[d].external != x && w.issued[d].entry.channel != ch)
  }

  function Accepted(p: Policy, w: World, s: SessionId, service: ServiceId, c: ConnectionId, x: External,
                    ch: Channel): World
    requires s in w.sessions
  {
    var t := w.sessions[s].pending;
    if |t| >= p.pendingPerSession then w
    else
      var e := Entry(service, w.now + p.pendingLifetime, ch);
      Store(w, s, t[c := e], w.counter + 1).(
        issued := w.issued[c := Issued(s, w.sessions[s].principal, x, e)],
        relays := w.relays[ch := Relay(s, c, x, None, Opening)])
  }

  function Cleaned(w: World, ch: Channel): World
    requires ch in w.relays && w.relays[ch].session in w.sessions && w.relays[ch].phase.Cleaning?
  {
    var r := w.relays[ch];
    var v := RemoveOne(w, r.session, r.connection).(relays := w.relays - {ch});
    match r.phase.outcome
    case None => v
    case Some(d) => v.(joined := w.joined + [Joined(r.external, ch, d)])
  }

  function Taken(w: World, k: nat): World
    requires k in w.claims && w.claims[k].hello.session in w.sessions
  {
    var q := w.claims[k];
    var t := w.sessions[q.hello.session].pending;
    var v := RemoveOne(w, q.hello.session, q.hello.connection);
    if q.hello.connection in t then
      v.(claims := w.claims[k := Holding(q.hello, q.principal, q.stream, t[q.hello.connection])])
    else v.(claims := w.claims - {k})
  }

  /** The receiver is there until its task has chosen an outcome. */
  predicate Receives(w: World, ch: Channel) {
    ch in w.relays && !w.relays[ch].phase.Cleaning?
  }

  function Sent(w: World, k: nat): World
    requires k in w.claims && w.claims[k].Holding?
  {
    var q := w.claims[k];
    var v := w.(claims := w.claims - {k});
    var d := Delivery(q.hello, q.principal, q.stream, w.now);
    if !Honours(q.entry, q.hello, w.now) || !Receives(w, q.entry.channel) then v
    else
      v.(relays := w.relays[q.entry.channel := w.relays[q.entry.channel].(inbox := Some(d))],
         deliveries := w.deliveries + [d])
  }

  // ----- steps

  predicate Possible(w: World, step: Step) {
    match step
    case Tick(to) => w.now <= to
    case Connect(s, _) => s !in w.sessions && s !in w.registry && Unused(w, s) && NeverIssued(w, s)
    case Register(s) => s in w.sessions
    case Unregister(_) => true
    case DropContext(s) => s in w.sessions && Unused(w, s)
    case Accept(s, _, c, x, ch) => s in w.sessions && Fresh(w, c, x, ch)
    case OpenFailed(ch) => ch in w.relays && w.relays[ch].phase.Opening? && w.relays[ch].session in w.sessions
    case OpenSent(ch) => ch in w.relays && w.relays[ch].phase.Opening?
    case Wake(ch, _) => ch in w.relays && w.relays[ch].phase.Listening?
    case Clean(ch) => ch in w.relays && w.relays[ch].phase.Cleaning? && w.relays[ch].session in w.sessions
    case Abort(ch) => ch in w.relays
    case Resolve(k, _, _, _) => k !in w.claims
    case Take(k) => k in w.claims && w.claims[k].Resolved? && w.claims[k].hello.session in w.sessions
    case Send(k) => k in w.claims && w.claims[k].Holding?
    case AbortClaim(k) => k in w.claims
    case OpenReject(s, _) => s in w.sessions
    case RemoveService(s, _) => s in w.sessions
    case RemoveAll(s) => s in w.sessions
  }

  predicate NeverIssued(w: World, s: SessionId) {
    forall c :: c in w.issued ==> w.issued[c].session != s
  }

  function Apply(p: Policy, w: World, step: Step): World
    requires Possible(w, step)
  {
    match step
    case Tick(to) => w.(now := to)
    case Connect(s, principal) => w.(sessions := w.sessions[s := Session(principal, map[])])
    case Register(s) => w.(registry := w.registry + {s})
    case Unregister(s) => w.(registry := w.registry - {s})
    case DropContext(s) =>
      w.(sessions := w.sessions - {s}, counter := w.counter - |w.sessions[s].pending|)
    case Accept(s, service, c, x, ch) => Accepted(p, w, s, service, c, x, ch)
    case OpenFailed(ch) =>
      RemoveOne(w, w.relays[ch].session, w.relays[ch].connection).(relays := w.relays - {ch})
    case OpenSent(ch) => w.(relays := w.relays[ch := w.relays[ch].(phase := Listening)])
    case Wake(ch, take) =>
      w.(relays := w.relays[ch := w.relays[ch].(phase := Cleaning(if take then w.relays[ch].inbox else None))])
    case Clean(ch) => Cleaned(w, ch)
    case Abort(ch) => w.(relays := w.relays - {ch})
    case Resolve(k, hello, principal, stream) =>
      if hello.session in w.registry && hello.session in w.sessions && w.sessions[hello.session].principal == principal
      then w.(claims := w.claims[k := Resolved(hello, principal, stream)])
      else w
    case Take(k) => Taken(w, k)
    case Send(k) => Sent(w, k)
    case AbortClaim(k) => w.(claims := w.claims - {k})
    case OpenReject(s, c) => RemoveOne(w, s, c)
    case RemoveService(s, service) =>
      var t := w.sessions[s].pending;
      Store(w, s, Retained(t, service), w.counter - (|t| - |Retained(t, service)|))
    case RemoveAll(s) => Store(w, s, map[], w.counter - |w.sessions[s].pending|)
  }

  /** Every step in turn, those that are not possible left out. */
  function Run(p: Policy, w: World, steps: seq<Step>): World
    decreases |steps|
  {
    if steps == [] then w
    else if Possible(w, steps[0]) then Run(p, Apply(p, w, steps[0]), steps[1..])
    else Run(p, w, steps[1..])
  }
}
