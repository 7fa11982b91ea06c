/**
 The client's registration store as a value: what each operation of the store
 does to it, and the facts that every operation keeps.

 A reply channel is a number. `answers` records, for every channel, what was sent
 on it so far, in order; `Dropped` records that the sending half was discarded.
 */
module ServiceStore {
  import opened Wire

  datatype Service = Service(id: ServiceId, name: Text, requestedBind: RequestedBind, target: TcpTarget)

  type Reply = nat

  datatype Outcome = Bound(bind: EffectiveBind) | Failed(error: TunnelError) | Dropped

  type Answers = map<Reply, seq<Outcome>>

  datatype Txn = Txn(service: Service, generation: nat, reply: Option<Reply>, deadline: Option<nat>)

  datatype Mode = LegacySerial | CorrelatedBounded(maxInFlight: nat)

  datatype Store = Store(
    desired: seq<Service>,
    active: map<ServiceId, Service>,
    pending: Option<Txn>,
    inFlight: map<ServiceId, Txn>,
    abandoned: map<ServiceId, nat>,
    mode: Mode,
    answers: Answers)

  datatype Expiry = NoneExpired | LegacyExpired | CorrelatedExpired(count: nat)

  datatype AckDisposition =
    | Commit(service: Service, reply: Option<Reply>)
    | AckAbandoned
    | AckStale(reply: Option<Reply>)
    | Unexpected

  datatype RejectDisposition =
    | Reject(reply: Option<Reply>)
    | RejectStale(reply: Option<Reply>)
    | Unknown

  const MAX_TOMBSTONES := 256

  // ----- reply channels

  function Sent(a: Answers, r: Reply): seq<Outcome> {
    if r in a then a[r] else []
  }

  /** Send `o` once on every channel of `rs`. */
  function Settle(a: Answers, rs: set<Reply>, o: Outcome): Answers {
    map r | r in a.Keys + rs :: Sent(a, r) + (if r in rs then [o] else [])
  }

  function Channel(r: Option<Reply>): set<Reply> {
    if r.Some? then {r.value} else {}
  }

  function ChannelsOf(txns: map<ServiceId, Txn>): set<Reply> {
    set k | k in txns && txns[k].reply.Some? :: txns[k].reply.value
  }

  function PendingChannel(p: Option<Txn>): set<Reply> {
    if p.Some? then Channel(p.value.reply) else {}
  }

  /** The reply channels still held by an outstanding transaction. */
  function Held(s: Store): set<Reply> {
    PendingChannel(s.pending) + ChannelsOf(s.inFlight)
  }

  // ----- reading the store

  predicate Clash(a: Service, b: Service) {
    a.id == b.id || a.name == b.name
  }

  function Without(services: seq<Service>, id: ServiceId): seq<Service> {
    if services == [] then []
    else (if services[0].id == id then [] else [services[0]]) + Without(services[1..], id)
  }

  function ById(services: seq<Service>): map<ServiceId, Service> {
    if services == [] then map[]
    else
      var last := services[|services| - 1];
      ById(services[..|services| - 1])[last.id := last]
  }

  predicate Desires(s: Store, id: ServiceId) {
    exists i :: 0 <= i < |s.desired| && s.desired[i].id == id
  }

  predicate PendingFor(s: Store, id: ServiceId) {
    s.pending.Some? && s.pending.value.service.id == id
  }

  predicate Outstanding(s: Store, id: ServiceId) {
    PendingFor(s, id) || id in s.inFlight
  }

  function Unacknowledged(s: Store): nat {
    (if s.pending.Some? then 1 else 0) + |s.inFlight|
  }

  function Ceiling(mode: Mode): nat {
    if mode.CorrelatedBounded? && mode.maxInFlight > 1 then mode.maxInFlight else 1
  }

  predicate Overdue(t: Txn, now: nat) {
    t.deadline.Some? && t.deadline.value <= now
  }

  /** Every armed acknowledgement deadline, in both modes. */
  function Deadlines(s: Store): set<nat> {
    (if s.pending.Some? && s.pending.value.deadline.Some? then {s.pending.value.deadline.value} else {}) +
    (set k | k in s.inFlight && s.inFlight[k].deadline.Some? :: s.inFlight[k].deadline.value)
  }

  predicate Earliest(ds: set<nat>, d: Option<nat>) {
    match d
    case None => ds == {}
    case Some(x) => x in ds && forall y :: y in ds ==> x <= y
  }

  // ----- the operations

  function New(desired: seq<Service>): Store {
    Store(desired, map[], None, map[], map[], LegacySerial, map[])
  }

  function DuplicateError(e: TunnelError): TunnelError {
    if e.Io? || e.Protocol? then Disconnected else e
  }

  function FinishPending(s: Store, e: TunnelError): Store {
    s.(pending := None, inFlight := map[], abandoned := map[],
       answers := Settle(s.answers, Held(s), Failed(DuplicateError(e))))
  }

  function SetMode(s: Store, mode: Mode): Store {
    FinishPending(s, Disconnected).(mode := mode)
  }

  function ActivateInitial(s: Store): Store {
    s.(active := ById(s.desired))
  }

  function ClearActive(s: Store): Store {
    s.(active := map[])
  }

  predicate Refuses(s: Store, service: Service) {
    || (exists i :: 0 <= i < |s.desired| && Clash(s.desired[i], service))
    || (s.pending.Some? && Clash(s.pending.value.service, service))
    || (exists k :: k in s.inFlight && Clash(s.inFlight[k].service, service))
  }

  /** The refusals leave the reply with the caller; a fresh id outranks its tombstone even when refused for room. */
  function Begin(s: Store, service: Service, generation: nat, reply: Reply): (Store, Option<TunnelError>) {
    if Refuses(s, service) then (s, Some(ServiceAlreadyExists))
    else
      var s1 := s.(abandoned := s.abandoned - {service.id});
      var txn := Txn(service, generation, Some(reply), None);
      match s.mode
      case LegacySerial =>
        if s.pending.Some? then (s1, Some(ResourceExhausted))
        else (s1.(pending := Some(txn)), None)
      case CorrelatedBounded(_) =>
        if |s.inFlight| >= Ceiling(s.mode) then (s1, Some(ResourceExhausted))
        else (s1.(inFlight := s.inFlight[service.id := txn]), None)
  }

  /** Take the transaction a response for `id` belongs to, if there is one. */
  function TakeTransaction(s: Store, id: ServiceId): (Store, Option<Txn>) {
    if s.pending.Some? then
      if s.pending.value.service.id == id then (s.(pending := None), s.pending) else (s, None)
    else if id in s.inFlight then
      (s.(inFlight := s.inFlight - {id}), Some(s.inFlight[id]))
    else (s, None)
  }

  /** `closed` holds the channels whose receiving half is gone. */
  function TakeAck(s: Store, id: ServiceId, generation: nat, closed: set<Reply>): (Store, AckDisposition) {
    var (s1, taken) := TakeTransaction(s, id);
    match taken
    case None =>
      if id in s.abandoned then
        (s.(abandoned := s.abandoned - {id}),
         if s.abandoned[id] == generation then AckAbandoned else AckStale(None))
      else (s, Unexpected)
    case Some(txn) =>
      if txn.generation != generation then (s1, AckStale(txn.reply))
      else if txn.reply.None? || txn.reply.value in closed then
        (s1.(answers := Settle(s.answers, Channel(txn.reply), Dropped)), AckAbandoned)
      else (s1, Commit(txn.service, txn.reply))
  }

  function TakeReject(s: Store, id: ServiceId, generation: nat): (Store, RejectDisposition) {
    var (s1, taken) := TakeTransaction(s, id);
    match taken
    case None =>
      if id in s.abandoned then (s.(abandoned := s.abandoned - {id}), RejectStale(None))
      else (s, Unknown)
    case Some(txn) =>
      (s1, if txn.generation != generation then RejectStale(txn.reply) else Reject(txn.reply))
  }

  /** A generic error belongs to whatever the legacy slot holds. */
  function TakePending(s: Store): (Store, Option<Txn>) {
    (s.(pending := None), s.pending)
  }

  function Tombstone(abandoned: map<ServiceId, nat>, id: ServiceId, generation: nat): map<ServiceId, nat> {
    if |abandoned| >= MAX_TOMBSTONES then map[id := generation] else abandoned[id := generation]
  }

  function Abandon(s: Store, id: ServiceId): Store {
    if id !in s.inFlight then s
    else
      var txn := s.inFlight[id];
      s.(inFlight := s.inFlight - {id},
         abandoned := Tombstone(s.abandoned, id, txn.generation),
         answers := Settle(s.answers, Channel(txn.reply), Failed(Timeout)))
  }

  /** Only the legacy slot leaves a tombstone behind. */
  function Unregister(s: Store, id: ServiceId): Store {
    var s1 :=
      if PendingFor(s, id) then
        s.(pending := None,
           abandoned := Tombstone(s.abandoned, id, s.pending.value.generation),
           answers := Settle(s.answers, Channel(s.pending.value.reply), Failed(Cancelled)))
      else s;
    var s2 :=
      if id in s1.inFlight then
        s1.(inFlight := s1.inFlight - {id},
            answers := Settle(s1.answers, Channel(s1.inFlight[id].reply), Failed(Cancelled)))
      else s1;
    s2.(desired := Without(s.desired, id), active := s.active - {id})
  }

  function Committed(s: Store, service: Service): Store {
    s.(active := s.active[service.id := service], desired := s.desired + [service])
  }

  function OverdueTxns(s: Store, now: nat): map<ServiceId, Txn> {
    map k | k in s.inFlight && Overdue(s.inFlight[k], now) :: s.inFlight[k]
  }

  function ExpireOverdue(s: Store, now: nat): (Store, Expiry) {
    var late := OverdueTxns(s, now);
    var s1 := s.(inFlight := s.inFlight - late.Keys,
                 answers := Settle(s.answers, ChannelsOf(late), Failed(Timeout)));
    if s.pending.Some? && Overdue(s.pending.value, now) then
      (s1.(pending := None, answers := Settle(s1.answers, Channel(s.pending.value.reply), Failed(Timeout))),
       LegacyExpired)
    else (s1, if |late| > 0 then CorrelatedExpired(|late|) else NoneExpired)
  }

  /** Arm the acknowledgement deadline of the transaction just written. */
  function ArmDeadline(s: Store, id: ServiceId, deadline: nat): Store {
    match s.mode
    case LegacySerial =>
      if s.pending.None? then s else s.(pending := Some(s.pending.value.(deadline := Some(deadline))))
    case CorrelatedBounded(_) =>
      if id !in s.inFlight then s else s.(inFlight := s.inFlight[id := s.inFlight[id].(deadline := Some(deadline))])
  }

  /** A legacy write timeout answers the caller and leaves the disarmed slot for the Session's clean-up. */
  function FailLegacyWrite(s: Store): Store {
    if s.pending.None? then s
    else s.(pending := Some(s.pending.value.(reply := None)),
            answers := Settle(s.answers, Channel(s.pending.value.reply), Failed(Timeout)))
  }

  // ----- an operation together with the answer its caller gives

  /** The channel of a refused registration is answered with the refusal. */
  function AnswerBegin(s: Store, service: Service, generation: nat, reply: Reply): (Store, bool) {
    var (s1, refused) := Begin(s, service, generation, reply);
    if refused.Some? then (Answer(s1, Some(reply), Failed(refused.value)), false) else (s1, true)
  }

  function Answer(s: Store, reply: Option<Reply>, o: Outcome): Store {
    s.(answers := Settle(s.answers, Channel(reply), o))
  }

  function AnswerAck(s: Store, id: ServiceId, generation: nat, closed: set<Reply>,
                     bind: EffectiveBind): (Store, AckDisposition) {
    var (s1, d) := TakeAck(s, id, generation, closed);
    match d
    case Commit(service, reply) => (Answer(Committed(s1, service), reply, Bound(bind)), d)
    case AckStale(reply) => (Answer(s1, reply, Failed(Disconnected)), d)
    case _ => (s1, d)
  }

  function AnswerReject(s: Store, id: ServiceId, generation: nat, e: TunnelError): (Store, RejectDisposition) {
    var (s1, d) := TakeReject(s, id, generation);
    match d
    case Reject(reply) => (Answer(s1, reply, Failed(e)), d)
    case RejectStale(reply) => (Answer(s1, reply, Failed(Disconnected)), d)
    case Unknown => (s1, d)
  }

  function AnswerError(s: Store, e: TunnelError): (Store, bool) {
    var (s1, taken) := TakePending(s);
    if taken.Some? then (Answer(s1, taken.value.reply, Failed(e)), true) else (s1, false)
  }

  // ----- what every operation keeps

  predicate DesiredDistinct(desired: seq<Service>) {
    forall i, j :: 0 <= i < j < |desired| ==> !Clash(desired[i], desired[j])
  }

  /** Each in-flight transaction sits under its own id; names and ids are claimed once. */
  ghost predicate ClaimsDistinct(s: Store) {
    && DesiredDistinct(s.desired)
    && (forall k :: k in s.inFlight ==> s.inFlight[k].service.id == k)
    && (forall k, l :: k in s.inFlight && l in s.inFlight && k != l ==>
      s.inFlight[k].service.name != s.inFlight[l].service.name)
    && (forall i, k :: 0 <= i < |s.desired| && k in s.inFlight ==> !Clash(s.desired[i], s.inFlight[k].service))
    && (s.pending.Some? ==> forall i :: 0 <= i < |s.desired| ==> !Clash(s.desired[i], s.pending.value.service))
  }

  ghost predicate TombstonesApart(s: Store) {
    && (forall i :: 0 <= i < |s.desired| ==> s.desired[i].id !in s.abandoned)
    && (forall k :: k in s.abandoned ==> k !in s.inFlight)
    && (s.pending.Some? ==> s.pending.value.service.id !in s.abandoned)
  }

  ghost predicate Bounded(s: Store) {
    && (s.mode.LegacySerial? ==> s.inFlight == map[])
    && (s.mode.CorrelatedBounded? ==> s.pending == None)
    && |s.inFlight| <= Ceiling(s.mode)
    && |s.abandoned| <= MAX_TOMBSTONES
  }

  ghost predicate Inv(s: Store) {
    ClaimsDistinct(s) && TombstonesApart(s) && Bounded(s)
  }

  /** A reply channel is owned by at most one transaction. */
  ghost predicate ChannelsDistinct(s: Store) {
    && (forall k, l :: k in s.inFlight && l in s.inFlight && k != l && s.inFlight[k].reply.Some? ==>
          s.inFlight[k].reply != s.inFlight[l].reply)
    && PendingChannel(s.pending) !! ChannelsOf(s.inFlight)
  }

  /**
   Conservation of callers: every submitted channel is either held by one
   transaction and has been sent nothing, or is held by none and was settled once.
   */
  ghost predicate Conserves(s: Store, submitted: set<Reply>) {
    && ChannelsDistinct(s)
    && Held(s) !! s.answers.Keys
    && Held(s) + s.answers.Keys == submitted
    && forall r :: r in s.answers ==> |s.answers[r]| == 1
  }

  /** Every transaction and tombstone was made by Session generation `g`. */
  ghost predicate OfGeneration(s: Store, g: nat) {
    && (s.pending.Some? ==> s.pending.value.generation == g)
    && (forall k :: k in s.inFlight ==> s.inFlight[k].generation == g)
    && (forall k :: k in s.abandoned ==> s.abandoned[k] == g)
  }
}
