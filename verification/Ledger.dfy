/**
 What happened in one Session, noted beside the two parties and read by neither: which registrations went on the wire,
 how the server ruled on them, and what became of the Services it accepted.
 */
module Ledger {
  import opened Wire
  import opened ServiceStore
  import opened ReadyLoop
  import opened ServerControl
  import opened Protocol

  /** A registration on the wire, with the channel of its caller; the configured Services have none. */
  datatype Request = Request(id: ServiceId, reply: Option<Reply>)

  /** Why a registration was granted or refused, in terms of the Services the server had. */
  datatype Ruling = Granted(bind: EffectiveBind) | Full | Taken | NoListener

  /** A request is lost when its write runs out of budget undelivered; so is a clean-up unregistration. */
  datatype Fate =
    | Accepted(id: ServiceId)
    | Unregistered(id: ServiceId)
    | CleanupLost(id: ServiceId)
    | RequestLost(id: ServiceId)

  /** Requests and rulings in order, each ruling on the request of the same index; and the fates of Services. */
  datatype Book = Book(asked: seq<Request>, ruled: seq<Ruling>, fates: seq<Fate>)

  const BLANK := Book([], [], [])

  ghost function Rule(t: Table, maxServices: nat, id: ServiceId, name: Text, listener: Listener): Ruling {
    if |t.services| >= maxServices then Full
    else if id in t.services || exists k :: k in t.services && t.services[k] == name then Taken
    else
      match listener
      case Listening(bind) => Granted(bind)
      case _ => NoListener
  }

  /** What the caller of a registration is to be told of a ruling. */
  function Told(r: Ruling): Outcome {
    match r
    case Granted(bind) => Bound(bind)
    case Full => Failed(ResourceExhausted)
    case Taken => Failed(ServiceAlreadyExists)
    case NoListener => Failed(Authorization)
  }

  // ----- the fate of one Service

  /** The server accepted `i`, and nobody has unregistered it there since. */
  predicate Kept(fates: seq<Fate>, i: ServiceId) {
    if fates == [] then false
    else
      match fates[|fates| - 1]
      case Accepted(k) => k == i || Kept(fates[..|fates| - 1], i)
      case Unregistered(k) => k != i && Kept(fates[..|fates| - 1], i)
      case _ => Kept(fates[..|fates| - 1], i)
  }

  /** Since the server last accepted `i` a clean-up of it was lost, and no unregistration has arrived. */
  predicate Stranded(fates: seq<Fate>, i: ServiceId) {
    if fates == [] then false
    else
      var front := fates[..|fates| - 1];
      match fates[|fates| - 1]
      case Accepted(k) => k != i && Stranded(front, i)
      case Unregistered(k) => k != i && Stranded(front, i)
      case CleanupLost(k) => Stranded(front, i) || (k == i && Kept(front, i))
      case RequestLost(_) => Stranded(front, i)
  }

  // ----- keeping the ledger

  /** The registration passes every check on the client's side, so that only its write can still fail. */
  predicate Begins(n: Net, service: Service, reply: Reply, closed: set<Reply>) {
    && |n.client.store.desired| + Unacknowledged(n.client.store) < n.limit && reply !in closed
    && AnswerBegin(n.client.store, service, n.generation, reply).1
  }

  function NoteSubmit(b: Book, n: Net, service: Service, reply: Reply, closed: set<Reply>, write: Write): Book {
    if OnRegister(n.client, n.generation, n.limit, service, reply, closed, write).sent != [] then
      b.(asked := b.asked + [Request(service.id, Some(reply))])
    else if Begins(n, service, reply, closed) && write == WriteTimedOut(false) then
      b.(fates := b.fates + [RequestLost(service.id)])
    else b
  }

  function NoteInitial(b: Book, n: Net): Book {
    match n.stage
    case Registering(done, awaiting) =>
      if awaiting || done >= |n.client.store.desired| then b
      else b.(asked := b.asked + [Request(n.client.store.desired[done].id, None)])
    case Ready => b
  }

  function NoteReply(b: Book, n: Net, closed: set<Reply>, cleanupSent: bool): Book {
    if n.stage.Ready? && n.toClient != [] && n.toClient[0].message.RegisterAck? && !cleanupSent
       && TakeAck(n.client.store, n.toClient[0].message.serviceId, n.generation, closed).1.AckAbandoned? then
      b.(fates := b.fates + [CleanupLost(n.toClient[0].message.serviceId)])
    else b
  }

  ghost function NoteRuling(b: Book, n: Net, listener: Listener): Book {
    if n.toServer == [] then b
    else
      match n.toServer[0]
      case RegisterService(id, name, _, _) =>
        var r := Rule(n.table, n.maxServices, id, name, listener);
        b.(ruled := b.ruled + [r], fates := b.fates + if r.Granted? then [Accepted(id)] else [])
      case UnregisterService(id) => b.(fates := b.fates + [Unregistered(id)])
      case _ => b
  }

  ghost function Noted(b: Book, n: Net, step: Step): Book {
    if !n.up then b
    else
      match step
      case SendInitial => NoteInitial(b, n)
      case ClientReceives(closed, cleanupSent) => NoteReply(b, n, closed, cleanupSent)
      case Submit(service, reply, closed, write) =>
        if n.stage.Ready? then NoteSubmit(b, n, service, reply, closed, write) else b
      case ServerReceives(listener, _) => NoteRuling(b, n, listener)
      case _ => b
  }

  /** The ledger after every step of a run. */
  ghost function Notes(b: Book, n: Net, steps: seq<Step>): Book
    decreases |steps|
  {
    if steps == [] then b else Notes(Noted(b, n, steps[0]), Apply(n, steps[0]), steps[1..])
  }
}
