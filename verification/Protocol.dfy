/**
 One client Session and one server Session joined by two in-order queues. Each step
 is one handler of one of the two control loops.
 */
module Protocol {
  import opened Wire
  import opened ServiceStore
  import opened ReadyLoop
  import opened ServerControl

  /** `about` labels a server message with the Service it answers; neither side reads it. */
  datatype Envelope = Envelope(message: Message, about: ServiceId)

  /** The initial Services are registered one by one; `awaiting` while one is unanswered. */
  datatype Stage = Registering(done: nat, awaiting: bool) | Ready

  datatype Net = Net(
    client: Client,
    stage: Stage,
    session: SessionId,
    generation: nat,
    limit: nat,
    table: Table,
    maxServices: nat,
    up: bool,
    toServer: seq<Message>,
    toClient: seq<Envelope>)

  datatype Step =
    | SendInitial
    | Activate
    | ClientReceives(closed: set<Reply>, cleanupSent: bool)
    | Submit(service: Service, reply: Reply, closed: set<Reply>, write: Write)
    | Withdraw(id: ServiceId, sent: bool)
    | Sweep(now: nat)
    | ClientSends(message: Message)
    | ServerReceives(listener: Listener, diagnostic: Text)
    | ServerSends(message: Message)
    | Stop

  function Correlated(n: Net): bool {
    n.client.store.mode.CorrelatedBounded?
  }

  /** A Session that has just been authenticated, over whatever earlier Sessions left in the store. */
  function Begun(s: Store, mode: Mode, session: SessionId, generation: nat, limit: nat, maxServices: nat): Net {
    Net(Client(ClearActive(SetMode(s, mode)), [], 0), Registering(0, false), session, generation, limit,
        Table(map[], {}), maxServices, true, [], [])
  }

  function Down(n: Net): Net {
    n.(up := false)
  }

  /** Go on with what a handler left, or end the Session. */
  function Settled(n: Net, h: Handled): Net {
    if h.verdict.Continue? then n.(client := h.client, toServer := n.toServer + h.sent) else Down(n)
  }

  function OnSendInitial(n: Net): Net {
    match n.stage
    case Registering(done, awaiting) =>
      if awaiting || done >= |n.client.store.desired| then n
      else n.(stage := Registering(done, true), toServer := n.toServer + [Registration(n.client.store.desired[done])])
    case Ready => n
  }

  function OnActivate(n: Net): Net {
    match n.stage
    case Registering(done, awaiting) =>
      if awaiting || done < |n.client.store.desired| then n
      else n.(stage := Ready,
              client := n.client.(store := ActivateInitial(n.client.store), services := |n.client.store.desired|))
    case Ready => n
  }

  /** During the initial registrations anything but the awaited acknowledgement ends the Session. */
  function OnInitialAnswer(n: Net, m: Message): Net {
    match n.stage
    case Registering(done, awaiting) =>
      if done < |n.client.store.desired| && m.RegisterAck? && m.serviceId == n.client.store.desired[done].id then
        n.(stage := Registering(done + 1, false),
           client := n.client.(binds := n.client.binds + [BindEntry(n.session, m.serviceId, m.effectiveBind)]))
      else Down(n)
    case Ready => n
  }

  function OnClientReceives(n: Net, closed: set<Reply>, cleanupSent: bool): Net {
    if n.toClient == [] || (n.stage.Registering? && !n.stage.awaiting) then n
    else
      var m := n.toClient[0].message;
      var n1 := n.(toClient := n.toClient[1..]);
      if n.stage.Registering? then OnInitialAnswer(n1, m)
      else Settled(n1, OnMessage(n.client, n.session, n.generation, m, closed, cleanupSent))
  }

  function OnServerReceives(n: Net, listener: Listener, diagnostic: Text): Net {
    if n.toServer == [] then n
    else
      var n1 := n.(toServer := n.toServer[1..]);
      match n.toServer[0]
      case RegisterService(id, name, _, _) =>
        var (table, answer) := Register(n.table, n.maxServices, Correlated(n), id, name, listener, diagnostic);
        n1.(table := table, toClient := n.toClient + [Envelope(answer, id)])
      case UnregisterService(id) => n1.(table := Removed(n.table, id))
      case OpenReject(_, _) => n1
      case Ping(nonce) => n1.(toClient := n.toClient + [Envelope(Pong(nonce), 0)])
      case _ => Down(n)
  }

  function Apply(n: Net, step: Step): Net {
    if !n.up then n
    else
      match step
      case SendInitial => OnSendInitial(n)
      case Activate => OnActivate(n)
      case ClientReceives(closed, cleanupSent) => OnClientReceives(n, closed, cleanupSent)
      case Submit(service, reply, closed, write) =>
        if !n.stage.Ready? then n
        else Settled(n, OnRegister(n.client, n.generation, n.limit, service, reply, closed, write))
      case Withdraw(id, sent) => if n.stage.Ready? then Settled(n, OnUnregister(n.client, id, sent)) else n
      case Sweep(now) => if n.stage.Ready? then Settled(n, OnDeadline(n.client, now)) else n
      case ClientSends(m) =>
        if n.stage.Ready? && (m.Ping? || m.Pong? || m.OpenReject?) then n.(toServer := n.toServer + [m]) else n
      case ServerReceives(listener, diagnostic) => OnServerReceives(n, listener, diagnostic)
      case ServerSends(m) => if m.Open? || m.Drain? then n.(toClient := n.toClient + [Envelope(m, 0)]) else n
      case Stop => Down(n)
  }

  function Run(n: Net, steps: seq<Step>): Net
    decreases |steps|
  {
    if steps == [] then n else Run(Apply(n, steps[0]), steps[1..])
  }
}
