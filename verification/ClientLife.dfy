/**
 The client's whole life: any number of Sessions, each set up, run and ended in any
 of the ways the client ends one, with caller commands arriving at any time.
 */
module ClientLife {
  import opened Wire
  import opened ServiceStore
  import opened ReadyLoop

  /** The Service ids in `Registering` are registered one at a time; `done` of them are acknowledged. */
  datatype Phase =
    | Disconnected
    | Registering(session: SessionId, generation: nat, done: nat)
    | Ready(session: SessionId, generation: nat)

  datatype Event = Entered(service: Service) | Left(id: ServiceId)

  /** `submitted` and `log` record the history of registration calls and of the desired list. */
  datatype Life = Life(
    client: Client,
    phase: Phase,
    lastGeneration: nat,
    limit: nat,
    submitted: set<Reply>,
    log: seq<Event>)

  datatype Step =
    | Submit(service: Service, reply: Reply, closed: set<Reply>, write: Write)
    | Withdraw(id: ServiceId, written: bool)
    | Establish(session: SessionId, mode: Mode)
    | InitialAck(bind: EffectiveBind)
    | Activate
    | Incoming(message: Message, closed: set<Reply>, written: bool)
    | Sweep(now: nat)
    | EndEarly
    | EndClean(cancelled: bool)

  function Start(services: seq<Service>, limit: nat): Life {
    Life(Client(New(services), [], 0), Phase.Disconnected, 0, limit, {},
      seq(|services|, i requires 0 <= i < |services| => Entered(services[i])))
  }

  /** The supervisor clears the embedder's view before the next Session; the store keeps what it holds. */
  function Ended(l: Life): Life {
    l.(client := l.client.(binds := [], services := 0), phase := Phase.Disconnected)
  }

  function EndedCleanly(l: Life, e: TunnelError): Life {
    Ended(l.(client := l.client.(store := ClearActive(FinishPending(l.client.store, e)))))
  }

  function Conclude(l: Life, h: Handled): Life {
    var l1 := l.(client := h.client);
    match h.verdict
    case Continue => l1
    case Break(timedOut) => EndedCleanly(l1, if timedOut then Timeout else TunnelError.Disconnected)
    case Return(_) => Ended(l1)
  }

  function OnSubmit(l: Life, service: Service, reply: Reply, closed: set<Reply>, write: Write): Life {
    var l1 := l.(submitted := l.submitted + {reply});
    match l.phase
    case Disconnected =>
      l1.(client := l.client.(store := Answer(l.client.store, Some(reply), Failed(TunnelError.Disconnected))))
    case Ready(_, generation) =>
      Conclude(l1, OnRegister(l.client, generation, l.limit, service, reply, closed, write))
    case Registering(_, _, _) => l
  }

  function OnWithdraw(l: Life, id: ServiceId, written: bool): Life {
    var l1 := l.(log := l.log + [Left(id)]);
    match l.phase
    case Disconnected => l1.(client := l.client.(store := Unregister(l.client.store, id)))
    case Ready(_, _) => Conclude(l1, OnUnregister(l.client, id, written))
    case Registering(_, _, _) => l
  }

  /** The generation counter is spent once it reaches its maximum; no further Session begins. */
  function OnEstablish(l: Life, session: SessionId, mode: Mode): Life {
    if !l.phase.Disconnected? || l.lastGeneration >= U64_MAX then l
    else
      var generation := l.lastGeneration + 1;
      l.(client := l.client.(store := ClearActive(SetMode(l.client.store, mode))),
         phase := Registering(session, generation, 0),
         lastGeneration := generation)
  }

  function OnInitialAck(l: Life, bind: EffectiveBind): Life {
    match l.phase
    case Registering(session, generation, done) =>
      if done >= |l.client.store.desired| then l
      else
        l.(client := l.client.(binds := l.client.binds + [BindEntry(session, l.client.store.desired[done].id, bind)]),
           phase := Registering(session, generation, done + 1))
    case _ => l
  }

  function OnActivate(l: Life): Life {
    match l.phase
    case Registering(session, generation, done) =>
      if done < |l.client.store.desired| then l
      else l.(client := l.client.(store := ActivateInitial(l.client.store), services := |l.client.store.desired|),
              phase := Ready(session, generation))
    case _ => l
  }

  function Commits(l: Life, m: Message, closed: set<Reply>): Option<Service> {
    if l.phase.Ready? && m.RegisterAck? then
      match TakeAck(l.client.store, m.serviceId, l.phase.generation, closed).1
      case Commit(service, _) => Some(service)
      case _ => None
    else None
  }

  function OnIncoming(l: Life, m: Message, closed: set<Reply>, written: bool): Life {
    match l.phase
    case Ready(session, generation) =>
      var committed := Commits(l, m, closed);
      Conclude(l.(log := if committed.Some? then l.log + [Entered(committed.value)] else l.log),
               OnMessage(l.client, session, generation, m, closed, written))
    case _ => l
  }

  /** One step; a step whose turn it is not changes nothing. */
  function Apply(l: Life, step: Step): Life {
    match step
    case Submit(service, reply, closed, write) =>
      if reply in l.submitted then l else OnSubmit(l, service, reply, closed, write)
    case Withdraw(id, written) => OnWithdraw(l, id, written)
    case Establish(session, mode) => OnEstablish(l, session, mode)
    case InitialAck(bind) => OnInitialAck(l, bind)
    case Activate => OnActivate(l)
    case Incoming(m, closed, written) => OnIncoming(l, m, closed, written)
    case Sweep(now) => if l.phase.Ready? then Conclude(l, OnDeadline(l.client, now)) else l
    case EndEarly => if l.phase.Disconnected? then l else Ended(l)
    case EndClean(cancelled) =>
      if l.phase.Ready? then EndedCleanly(l, if cancelled then Cancelled else TunnelError.Disconnected) else l
  }

  function Run(l: Life, steps: seq<Step>): Life
    decreases |steps|
  {
    if steps == [] then l else Run(Apply(l, steps[0]), steps[1..])
  }
}
