/**
 What the queues say about one Service, where the client's store has it, and what each client handler does to the
 statuses of all Services and to the places in which replies are awaited.
 */
module ProtocolProofs {
  import opened Wire
  import opened ServiceStore
  import opened Tally
  import opened ServiceStoreProofs
  import opened ReadyLoop
  import opened ClientLifeProofs
  import opened ClientHistory
  import opened ServerControl
  import opened Protocol

  // ----- what the queues say about one Service

  datatype Mention = Reg(name: Text) | Unreg

  function MentionOf(m: Message, i: ServiceId): seq<Mention> {
    if m.RegisterService? && m.serviceId == i then [Reg(m.name)]
    else if m.UnregisterService? && m.serviceId == i then [Unreg]
    else []
  }

  function Mentions(q: seq<Message>, i: ServiceId): seq<Mention> {
    if q == [] then [] else MentionOf(q[0], i) + Mentions(q[1..], i)
  }

  predicate IsReply(m: Message) {
    m.RegisterAck? || m.Error? || m.RegisterReject?
  }

  /** The verdicts on the way to the client about Service `i`: true for an acknowledgement. */
  function AnswerOf(e: Envelope, i: ServiceId): seq<bool> {
    if e.about == i && IsReply(e.message) then [e.message.RegisterAck?] else []
  }

  function AnswersAbout(q: seq<Envelope>, i: ServiceId): seq<bool> {
    if q == [] then [] else AnswerOf(q[0], i) + AnswersAbout(q[1..], i)
  }

  function RegCount(ms: seq<Mention>): nat {
    if ms == [] then 0 else (if ms[0].Reg? then 1 else 0) + RegCount(ms[1..])
  }

  // ----- replies owed, and the places for them

  function Regs(q: seq<Message>): nat {
    if q == [] then 0 else (if q[0].RegisterService? then 1 else 0) + Regs(q[1..])
  }

  function Replies(q: seq<Envelope>): nat {
    if q == [] then 0 else (if IsReply(q[0].message) then 1 else 0) + Replies(q[1..])
  }

  function Owed(n: Net): nat {
    Regs(n.toServer) + Replies(n.toClient)
  }

  function StoreSlots(s: Store): nat {
    |s.abandoned| + Unacknowledged(s)
  }

  function Slots(n: Net): nat {
    match n.stage
    case Registering(_, awaiting) => if awaiting then 1 else 0
    case Ready => StoreSlots(n.client.store)
  }

  // ----- the situation of one Service

  datatype Status = Absent | Live(name: Text) | Waiting(name: Text) | Buried

  function StoreStatus(s: Store, i: ServiceId): Status {
    if i in s.active then Live(s.active[i].name)
    else if PendingFor(s, i) then Waiting(s.pending.value.service.name)
    else if i in s.inFlight then Waiting(s.inFlight[i].service.name)
    else if i in s.abandoned then Buried
    else Absent
  }

  function InitialStatus(desired: seq<Service>, done: nat, awaiting: bool, i: ServiceId): Status
    requires done <= |desired|
  {
    if i in ById(desired[..done]) then Live(ById(desired[..done])[i].name)
    else if awaiting && done < |desired| && desired[done].id == i then Waiting(desired[done].name)
    else Absent
  }

  function StatusOf(n: Net, i: ServiceId): Status {
    match n.stage
    case Registering(done, awaiting) =>
      if done <= |n.client.store.desired| then InitialStatus(n.client.store.desired, done, awaiting, i) else Absent
    case Ready => StoreStatus(n.client.store, i)
  }

  function ServerName(t: Table, i: ServiceId): Option<Text> {
    if i in t.services then Some(t.services[i]) else None
  }

  // ----- queues

  lemma {:induction false} MentionsAppend(q: seq<Message>, m: Message, i: ServiceId)
    ensures Mentions(q + [m], i) == Mentions(q, i) + MentionOf(m, i)
  {
    if q == [] {
      assert q + [m] == [m];
    } else {
      assert (q + [m])[1..] == q[1..] + [m];
      MentionsAppend(q[1..], m, i);
    }
  }

  lemma {:induction false} AnswersAppend(q: seq<Envelope>, e: Envelope, i: ServiceId)
    ensures AnswersAbout(q + [e], i) == AnswersAbout(q, i) + AnswerOf(e, i)
  {
    if q == [] {
      assert q + [e] == [e];
    } else {
      assert (q + [e])[1..] == q[1..] + [e];
      AnswersAppend(q[1..], e, i);
    }
  }

  lemma {:induction false} RegsAppend(q: seq<Message>, m: Message)
    ensures Regs(q + [m]) == Regs(q) + if m.RegisterService? then 1 else 0
  {
    if q == [] {
      assert q + [m] == [m];
    } else {
      assert (q + [m])[1..] == q[1..] + [m];
      RegsAppend(q[1..], m);
    }
  }

  lemma {:induction false} RepliesAppend(q: seq<Envelope>, e: Envelope)
    ensures Replies(q + [e]) == Replies(q) + if IsReply(e.message) then 1 else 0
  {
    if q == [] {
      assert q + [e] == [e];
    } else {
      assert (q + [e])[1..] == q[1..] + [e];
      RepliesAppend(q[1..], e);
    }
  }

  lemma {:induction false} RegCountAppend(ms: seq<Mention>, m: Mention)
    ensures RegCount(ms + [m]) == RegCount(ms) + if m.Reg? then 1 else 0
  {
    if ms == [] {
      assert ms + [m] == [m];
    } else {
      assert (ms + [m])[1..] == ms[1..] + [m];
      RegCountAppend(ms[1..], m);
    }
  }

  lemma {:induction false} LastCounts(ms: seq<Mention>)
    requires ms != [] && ms[|ms| - 1].Reg?
    ensures RegCount(ms) >= 1
  {
    if |ms| == 1 {
    } else {
      LastCounts(ms[1..]);
    }
  }

  // ----- what each client handler does to the places and to the statuses

  /** An active Service is desired, and nothing outstanding or buried is active. */
  ghost predicate Apart(s: Store) {
    forall i :: i in s.active ==> Desires(s, i) && !Outstanding(s, i) && i !in s.abandoned
  }

  lemma {:induction false} TabledApart(c: Client, session: SessionId)
    requires Inv(c.store) && Tabled(c, session)
    ensures Apart(c.store)
  {
    hide ById, BindsMatch;
    forall i | i in c.store.active ensures Desires(c.store, i) && !Outstanding(c.store, i) && i !in c.store.abandoned {
      ByIdKey(c.store.desired, i);
    }
  }

  /** Statuses and places are the same in both stores, except that `i` went from one status to another. */
  ghost predicate Moved(s: Store, t: Store, i: ServiceId, from: Status, to: Status) {
    && StoreStatus(s, i) == from && StoreStatus(t, i) == to
    && forall j :: j != i ==> StoreStatus(t, j) == StoreStatus(s, j)
  }

  ghost predicate Unmoved(s: Store, t: Store) {
    StoreSlots(t) == StoreSlots(s) && forall j :: StoreStatus(t, j) == StoreStatus(s, j)
  }

  /** The places of `t` are those of `s` with one tombstone gone, and one new transaction if `taken`. */
  ghost predicate OneMore(s: Store, t: Store, service: Service, taken: bool) {
    && t.active == s.active && t.abandoned == s.abandoned - {service.id}
    && (if !taken then t.pending == s.pending && t.inFlight == s.inFlight
        else
          || (s.pending == None && PendingFor(t, service.id) && t.pending.value.service == service
            && t.inFlight == s.inFlight)
          || (t.pending == s.pending && service.id in t.inFlight && t.inFlight[service.id].service == service
              && t.inFlight == s.inFlight[service.id := t.inFlight[service.id]]))
  }

  lemma {:induction false} OneMoreForm(s: Store, service: Service, g: nat, reply: Reply)
    requires Inv(s) && Apart(s)
    ensures
      var (t, accepted) := AnswerBegin(s, service, g, reply);
      && (accepted ==> OneMore(s, t, service, true) && service.id !in s.active && !Outstanding(s, service.id))
      && (!accepted ==> t == s.(answers := t.answers) || OneMore(s, t, service, false))
  {
    hide Begin, Inv, Apart, Ceiling, Refuses, Settle;
    BeginForm(s, service, g, reply);
    if Begin(s, service, g, reply).1.None? {
      BeginFree(s, service);
    }
  }

  lemma {:induction false} OneMoreSlots(s: Store, t: Store, service: Service, taken: bool)
    requires OneMore(s, t, service, taken) && (taken ==> !Outstanding(s, service.id))
    ensures StoreSlots(t) == StoreSlots(s) + (if taken then 1 else 0) - (if service.id in s.abandoned then 1 else 0)
  {
    ShrinkSize(s.abandoned, service.id);
  }

  lemma {:induction false} OneMoreStatus(s: Store, t: Store, service: Service, taken: bool, j: ServiceId)
    requires OneMore(s, t, service, taken) && service.id !in s.abandoned
    requires taken ==> service.id !in s.active && !Outstanding(s, service.id)
    ensures taken && j == service.id ==> StoreStatus(s, j) == Absent && StoreStatus(t, j) == Waiting(service.name)
    ensures !taken || j != service.id ==> StoreStatus(t, j) == StoreStatus(s, j)
  {
  }

  lemma {:induction false} BeginEffect(s: Store, service: Service, g: nat, reply: Reply)
    requires Inv(s) && Apart(s)
    ensures
      var (t, accepted) := AnswerBegin(s, service, g, reply);
      if accepted then
        || StoreSlots(t) <= StoreSlots(s)
        || (StoreSlots(t) == StoreSlots(s) + 1 && Moved(s, t, service.id, Absent, Waiting(service.name)))
      else StoreSlots(t) < StoreSlots(s) || Unmoved(s, t)
  {
    hide AnswerBegin, OneMore, StoreSlots, StoreStatus, Inv, Apart, Outstanding;
    OneMoreForm(s, service, g, reply);
    var (t, accepted) := AnswerBegin(s, service, g, reply);
    if accepted || t != s.(answers := t.answers) {
      OneMoreSlots(s, t, service, accepted);
      if service.id !in s.abandoned {
        forall j ensures (accepted && j == service.id ==>
          StoreStatus(s, j) == Absent && StoreStatus(t, j) == Waiting(service.name))
                         && (!accepted || j != service.id ==> StoreStatus(t, j) == StoreStatus(s, j)) {
          OneMoreStatus(s, t, service, accepted, j);
        }
      }
    } else {
      AnswersUnmoved(s, t);
    }
  }

  lemma {:induction false} AnswersUnmoved(s: Store, t: Store)
    requires t == s.(answers := t.answers)
    ensures Unmoved(s, t)
  {
  }

  lemma {:induction false} BeginFree(s: Store, service: Service)
    requires Inv(s) && Apart(s) && !Refuses(s, service)
    ensures service.id !in s.active && !Outstanding(s, service.id)
    ensures s.mode.LegacySerial? ==> s.inFlight == map[]
    ensures s.mode.CorrelatedBounded? ==> s.pending == None
  {
  }

  lemma {:induction false} RearmedUnmoved(s: Store, t: Store)
    requires Rearmed(s, t)
    ensures Unmoved(s, t)
  {
    assert |t.inFlight.Keys| == |s.inFlight.Keys|;
  }

  lemma {:induction false} AbandonSlots(s: Store, id: ServiceId)
    requires Inv(s) && id in s.inFlight
    ensures StoreSlots(Abandon(s, id)) == StoreSlots(s) || StoreSlots(Abandon(s, id)) < StoreSlots(s) - 1
    ensures StoreSlots(Abandon(s, id)) == StoreSlots(s) ==>
      Abandon(s, id).abandoned == s.abandoned[id := s.inFlight[id].generation]
  {
    hide Settle, Clash;
    ShrinkSize(s.inFlight, id);
  }

  lemma {:induction false} AbandonStatus(s: Store, id: ServiceId, j: ServiceId)
    requires Inv(s) && id !in s.active && id in s.inFlight
    requires Abandon(s, id).abandoned == s.abandoned[id := s.inFlight[id].generation]
    ensures StoreStatus(Abandon(s, id), j) == if j == id then Buried else StoreStatus(s, j)
  {
    hide Settle, Clash, Tombstone, Ceiling;
  }

  lemma {:induction false} BegunFacts(s: Store, service: Service, g: nat, reply: Reply)
    requires Inv(s) && Apart(s) && AnswerBegin(s, service, g, reply).1
    ensures
      var t := AnswerBegin(s, service, g, reply).0;
      Inv(t) && service.id !in t.active && (s.mode.CorrelatedBounded? ==> service.id in t.inFlight)
  {
    hide Inv, Apart, AnswerBegin;
    BeginKeeps(s, service, g, reply);
    OneMoreForm(s, service, g, reply);
    BeginMode(s, service, g, reply);
  }

  lemma {:induction false} BeginMode(s: Store, service: Service, g: nat, reply: Reply)
    ensures AnswerBegin(s, service, g, reply).0.mode == s.mode
    ensures AnswerBegin(s, service, g, reply).1 && s.mode.CorrelatedBounded? ==>
      service.id in AnswerBegin(s, service, g, reply).0.inFlight
  {
    hide Settle, Refuses, Ceiling;
  }

  /**
   A registration command either changes no status, or loses a place, or opens one transaction for one reply it
   causes.
   */
  lemma {:induction false} RegisterEffect(c: Client, g: nat, limit: nat, service: Service, reply: Reply,
                                          closed: set<Reply>, write: Write)
    requires Inv(c.store) && Apart(c.store)
    ensures
      var h := OnRegister(c, g, limit, service, reply, closed, write);
      var t := h.client.store;
      h.verdict.Continue? ==>
        && t.mode == c.store.mode
        && (h.sent == [] || h.sent == [Registration(service)])
        && (h.sent == [] ==>
              || StoreSlots(t) < StoreSlots(c.store) || Unmoved(c.store, t)
              || (CorrelatedStore(c.store) && write == WriteTimedOut(false)))
        && (h.sent != [] ==>
              || StoreSlots(t) <= StoreSlots(c.store)
              || (StoreSlots(t) == StoreSlots(c.store) + 1 &&
                  (Moved(c.store, t, service.id, Absent, Waiting(service.name))
                    || Moved(c.store, t, service.id, Absent, Buried))))
  {
    hide Inv, Apart, AnswerBegin, ArmDeadline, Abandon, FailLegacyWrite, StoreSlots, StoreStatus, Registration,
      Unacknowledged, Settle, Rearmed;
    var s := c.store;
    AnswersUnmoved(s, Answer(s, Some(reply), Failed(ResourceExhausted)));
    AnswersUnmoved(s, Answer(s, Some(reply), Dropped));
    BeginEffect(s, service, g, reply);
    BeginMode(s, service, g, reply);
    var (t, accepted) := AnswerBegin(s, service, g, reply);
    if accepted {
      BegunFacts(s, service, g, reply);
      match write
      case Written(deadline) =>
        ArmForm(t, service.id, deadline);
        RearmedUnmoved(t, ArmDeadline(t, service.id, deadline));
        RearmedMode(t, ArmDeadline(t, service.id, deadline));
      case WriteFailed =>
      case WriteTimedOut(_) =>
        if t.mode.CorrelatedBounded? {
          AbandonSlots(t, service.id);
          AbandonMode(t, service.id);
          if StoreSlots(Abandon(t, service.id)) == StoreSlots(t) {
            forall j ensures StoreStatus(Abandon(t, service.id), j) == if j == service.id then Buried
              else StoreStatus(t, j) {
              AbandonStatus(t, service.id, j);
            }
          }
        }
    }
  }

  lemma {:induction false} RearmedMode(s: Store, t: Store)
    requires Rearmed(s, t)
    ensures t.mode == s.mode
  {
  }

  lemma {:induction false} AbandonMode(s: Store, id: ServiceId)
    ensures Abandon(s, id).mode == s.mode
  {
    hide Settle, Tombstone;
  }

  lemma {:induction false} TakeSlots(s: Store, id: ServiceId)
    ensures
      var (t, taken) := TakeTransaction(s, id);
      StoreSlots(t) == StoreSlots(s) - if taken.Some? then 1 else 0
  {
    if s.pending.None? && id in s.inFlight {
      ShrinkSize(s.inFlight, id);
    }
  }

  /** A transaction's Service has no other place. */
  lemma {:induction false} SolePlace(s: Store, id: ServiceId)
    requires Inv(s) && Apart(s) && Outstanding(s, id)
    ensures id !in s.active && id !in s.abandoned && !(PendingFor(s, id) && id in s.inFlight)
    ensures id in s.inFlight ==> s.pending == None && s.inFlight[id].service.id == id
  {
  }

  /** Taking a transaction frees its place. */
  lemma {:induction false} TakeEffect(s: Store, id: ServiceId, j: ServiceId)
    requires Inv(s) && Apart(s)
    ensures
      var (t, taken) := TakeTransaction(s, id);
      match taken
      case None => t == s
      case Some(txn) =>
        && StoreSlots(t) == StoreSlots(s) - 1 && txn.service.id == id
        && StoreStatus(s, id) == Waiting(txn.service.name)
        && StoreStatus(t, j) == (if j == id then Absent else StoreStatus(s, j))
  {
    hide Inv, Apart, StoreSlots;
    TakeSlots(s, id);
    if s.pending.Some? {
      if PendingFor(s, id) { SolePlace(s, id); }
    } else if id in s.inFlight {
      SolePlace(s, id);
      FreedFlight(s, id, j);
    }
  }

  lemma {:induction false} FreedFlight(s: Store, id: ServiceId, j: ServiceId)
    requires s.pending.None? && id in s.inFlight && id !in s.active && id !in s.abandoned
    ensures StoreStatus(s.(inFlight := s.inFlight - {id}), j) == if j == id then Absent else StoreStatus(s, j)
  {
  }

  lemma {:induction false} UntombEffect(s: Store, id: ServiceId, j: ServiceId)
    requires Inv(s) && Apart(s) && id in s.abandoned
    ensures
      var t := s.(abandoned := s.abandoned - {id});
      && StoreSlots(t) == StoreSlots(s) - 1
      && StoreStatus(s, id) == Buried
      && StoreStatus(t, j) == (if j == id then Absent else StoreStatus(s, j))
  {
    hide Clash, Ceiling;
    ShrinkSize(s.abandoned, id);
    assert id in s.active ==> id !in s.abandoned;
  }

  lemma {:induction false} CommitEffect(t: Store, u: Store, service: Service, j: ServiceId)
    requires u == t.(desired := u.desired, active := t.active[service.id := service], answers := u.answers)
    ensures StoreSlots(u) == StoreSlots(t)
    ensures StoreStatus(u, j) == if j == service.id then Live(service.name) else StoreStatus(t, j)
  {
  }

  /** What is known of a store reached from `s` by consuming one reply for `id`. */
  ghost predicate Consumed(s: Store, u: Store, id: ServiceId, to: Status) {
    && StoreSlots(u) == StoreSlots(s) - 1 && u.mode == s.mode
    && (StoreStatus(s, id).Waiting? || StoreStatus(s, id).Buried?)
    && StoreStatus(u, id) == to
    && forall j :: j != id ==> StoreStatus(u, j) == StoreStatus(s, j)
  }

  lemma {:induction false} TakenConsumed(s: Store, u: Store, id: ServiceId)
    requires Inv(s) && Apart(s)
    requires
      var (t, taken) := TakeTransaction(s, id);
      if taken.Some? then u == t.(answers := u.answers)
      else id in s.abandoned && u == s.(abandoned := s.abandoned - {id}, answers := u.answers)
    ensures Consumed(s, u, id, Absent)
  {
    hide Inv, Apart, StoreStatus, StoreSlots, TakeTransaction;
    var (t, taken) := TakeTransaction(s, id);
    var v := if taken.Some? then t else s.(abandoned := s.abandoned - {id});
    AnswersUnmoved(v, u);
    TakeMode(s, id);
    forall j ensures StoreSlots(v) == StoreSlots(s) - 1
      && StoreStatus(v, j) == (if j == id then Absent else StoreStatus(s, j)) {
      if taken.Some? { TakeEffect(s, id, j); } else { UntombEffect(s, id, j); }
    }
    if taken.Some? { TakeEffect(s, id, id); } else { UntombEffect(s, id, id); }
  }

  lemma {:induction false} TakeMode(s: Store, id: ServiceId)
    ensures TakeTransaction(s, id).0.mode == s.mode
  {
  }

  /** Which acknowledgements do what, when nothing outstanding is stale. */
  lemma {:induction false} AckCases(s: Store, id: ServiceId, g: nat, closed: set<Reply>, bind: EffectiveBind)
    requires OfGeneration(s, g)
    ensures
      var (t, taken) := TakeTransaction(s, id);
      var (u, d) := AnswerAck(s, id, g, closed, bind);
      && !d.AckStale?
      && (d.AckAbandoned? ==>
            if taken.Some? then u == t.(answers := u.answers)
            else id in s.abandoned && u == s.(abandoned := s.abandoned - {id}, answers := u.answers))
      && (d.Commit? ==>
            && taken.Some? && d.service == taken.value.service
            && u == t.(desired := u.desired, active := t.active[d.service.id := d.service], answers := u.answers))
  {
    hide Settle, TakeTransaction;
    TakeCurrent(s, g, id);
  }

  lemma {:induction false} CommitConsumed(s: Store, u: Store, id: ServiceId)
    requires Inv(s) && Apart(s)
    requires
      var (t, taken) := TakeTransaction(s, id);
      && taken.Some?
      && u == t.(desired := u.desired, active := t.active[taken.value.service.id := taken.value.service],
        answers := u.answers)
    ensures StoreStatus(s, id).Waiting? && Consumed(s, u, id, Live(StoreStatus(s, id).name))
  {
    hide Inv, Apart, StoreStatus, StoreSlots, TakeTransaction;
    var (t, taken) := TakeTransaction(s, id);
    TakeMode(s, id);
    TakeEffect(s, id, id);
    forall j ensures StoreSlots(u) == StoreSlots(s) - 1
      && StoreStatus(u, j) == (if j == id then Live(taken.value.service.name) else StoreStatus(s, j)) {
      TakeEffect(s, id, j);
      CommitEffect(t, u, taken.value.service, j);
    }
  }

  /** An acknowledgement makes its Service live, or sends the clean-up unless that is lost, or ends the Session. */
  lemma {:induction false} AckEffect(c: Client, session: SessionId, g: nat, id: ServiceId, bind: EffectiveBind,
                                     closed: set<Reply>, written: bool)
    requires Inv(c.store) && Apart(c.store) && OfGeneration(c.store, g)
    ensures
      var h := OnAck(c, session, g, id, bind, closed, written);
      h.verdict.Continue? ==>
        if TakeAck(c.store, id, g, closed).1.AckAbandoned? then
          && h.sent == (if written then [UnregisterService(id)] else [])
          && Consumed(c.store, h.client.store, id, Absent)
        else
          && h.sent == [] && StoreStatus(c.store, id).Waiting?
          && Consumed(c.store, h.client.store, id, Live(StoreStatus(c.store, id).name))
  {
    hide Inv, Apart, OfGeneration, AnswerAck, TakeTransaction, StoreStatus, StoreSlots, Consumed;
    var s := c.store;
    AckCases(s, id, g, closed, bind);
    var (u, d) := AnswerAck(s, id, g, closed, bind);
    AckVerdict(s, id, g, closed, bind);
    if d.AckAbandoned? {
      TakenConsumed(s, u, id);
    } else if d.Commit? {
      CommitConsumed(s, u, id);
    }
  }

  lemma {:induction false} AckVerdict(s: Store, id: ServiceId, g: nat, closed: set<Reply>, bind: EffectiveBind)
    ensures AnswerAck(s, id, g, closed, bind).1 == TakeAck(s, id, g, closed).1
  {
    hide TakeTransaction, Settle;
  }

  lemma {:induction false} RejectEffect(c: Client, g: nat, id: ServiceId, code: u16)
    requires Inv(c.store) && Apart(c.store)
    ensures
      var h := OnReject(c, g, id, code);
      h.sent == []
        && (h.verdict.Continue? ==> CorrelatedStore(c.store) && Consumed(c.store, h.client.store, id, Absent))
  {
    hide Inv, Apart, AnswerReject, TakeTransaction, StoreStatus, StoreSlots, Consumed, RegistrationErrorCode;
    var s := c.store;
    var e := RegistrationErrorCode(code);
    var (u, d) := AnswerReject(s, id, g, e);
    RejectCases(s, id, g, e);
    if s.mode.CorrelatedBounded? && !d.Unknown? {
      var taken := TakeTransaction(s, id).1;
      assert taken.None? || taken.Some?;
      TakenConsumed(s, u, id);
    }
  }

  predicate CorrelatedStore(s: Store) {
    s.mode.CorrelatedBounded?
  }

  lemma {:induction false} RejectCases(s: Store, id: ServiceId, g: nat, e: TunnelError)
    ensures
      var (t, taken) := TakeTransaction(s, id);
      var (u, d) := AnswerReject(s, id, g, e);
      match taken
      case None => d.Unknown? || (id in s.abandoned && u == s.(abandoned := s.abandoned - {id}, answers := u.answers))
      case Some(_) => u == t.(answers := u.answers)
  {
    hide Settle, TakeTransaction;
  }

  lemma {:induction false} ErrorEffect(c: Client, code: u16)
    requires Inv(c.store) && Apart(c.store)
    ensures
      var h := OnError(c, code);
      && h.sent == []
      && (h.verdict.Continue? ==>
            && c.store.pending.Some? && !CorrelatedStore(c.store)
            && StoreStatus(c.store, c.store.pending.value.service.id).Waiting?
            && Consumed(c.store, h.client.store, c.store.pending.value.service.id, Absent))
  {
    var s := c.store;
    var u := OnError(c, code).client.store;
    assert s.mode.CorrelatedBounded? ==> s.pending == None;
    assert u == s.(pending := None, answers := u.answers) by { hide Settle, RegistrationErrorCode; }
    hide Inv, Apart, StoreStatus, StoreSlots, Consumed, AnswerError, RegistrationErrorCode;
    if s.pending.Some? {
      var id := s.pending.value.service.id;
      assert TakeTransaction(s, id) == (s.(pending := None), s.pending);
      TakenConsumed(s, u, id);
      TakeEffect(s, id, id);
    }
  }

  lemma {:induction false} UnregisterEffect(s: Store, id: ServiceId)
    requires Inv(s) && Apart(s)
    ensures
      var t := Unregister(s, id);
      && t.mode == s.mode && StoreSlots(t) <= StoreSlots(s)
      && (StoreSlots(t) == StoreSlots(s) ==>
            && (forall j :: j != id ==> StoreStatus(t, j) == StoreStatus(s, j))
            && (StoreStatus(s, id).Waiting? ==> s.mode.LegacySerial?)
            && StoreStatus(t, id) ==
              (if StoreStatus(s, id).Waiting? || StoreStatus(s, id).Buried? then Buried else Absent))
  {
    hide Unregister, Without;
    UnregisterForm(s, id);
    UnregisterSlots(s, id);
    hide Inv, Apart, Tombstone, StoreSlots, PendingFor;
    if StoreSlots(Unregister(s, id)) == StoreSlots(s) {
      forall j
        ensures StoreStatus(Unregister(s, id), j) ==
                if j != id then StoreStatus(s, j)
                else if StoreStatus(s, id).Waiting? || StoreStatus(s, id).Buried? then Buried else Absent
      {
        UnregisterStatus(s, id, j);
      }
    }
    UnregisterLegacy(s, id);
  }

  lemma {:induction false} UnregisterSlots(s: Store, id: ServiceId)
    requires Inv(s)
    ensures
      var t := Unregister(s, id);
      && StoreSlots(t) <= StoreSlots(s)
      && (StoreSlots(t) == StoreSlots(s) ==>
            && id !in s.inFlight
            && t.abandoned == if PendingFor(s, id) then s.abandoned[id := s.pending.value.generation] else s.abandoned)
  {
    hide Unregister, Without, Clash;
    UnregisterForm(s, id);
    ShrinkSize(s.inFlight, id);
  }

  lemma {:induction false} ReleasedStatus(s: Store, t: Store, id: ServiceId, j: ServiceId)
    requires id in s.active ==> !PendingFor(s, id) && id !in s.abandoned
    requires t.active == s.active - {id} && t.inFlight == s.inFlight && id !in s.inFlight
    requires PendingFor(s, id) ==>
      id !in s.abandoned && t.pending == None && t.abandoned.Keys == s.abandoned.Keys + {id}
    requires !PendingFor(s, id) ==> t.pending == s.pending && t.abandoned == s.abandoned
    ensures StoreStatus(t, j) == if j != id then StoreStatus(s, j)
                                 else if StoreStatus(s, id).Waiting?
                                   || StoreStatus(s, id).Buried? then Buried else Absent
  {
  }

  lemma {:induction false} UnregisterStatus(s: Store, id: ServiceId, j: ServiceId)
    requires Inv(s) && Apart(s)
    ensures
      var t := Unregister(s, id);
      StoreSlots(t) == StoreSlots(s) ==>
        StoreStatus(t, j) == if j != id then StoreStatus(s, j)
                             else if StoreStatus(s, id).Waiting? || StoreStatus(s, id).Buried? then Buried else Absent
  {
    hide *;
    UnregisterForm(s, id);
    UnregisterSlots(s, id);
    PlaceFacts(s, id);
    var t := Unregister(s, id);
    if StoreSlots(t) == StoreSlots(s) {
      MinusAbsent(s.inFlight, id);
      ReleasedStatus(s, t, id, j);
    }
  }

  lemma {:induction false} PlaceFacts(s: Store, id: ServiceId)
    requires Inv(s) && Apart(s)
    ensures id in s.active ==> !PendingFor(s, id) && id !in s.abandoned
    ensures id in s.abandoned ==> !PendingFor(s, id) && id !in s.inFlight
  {
    hide Clash, Ceiling;
  }

  lemma {:induction false} MinusAbsent<K, V>(m: map<K, V>, k: K)
    requires k !in m
    ensures m - {k} == m
  {
  }

  lemma {:induction false} UnregisterLegacy(s: Store, id: ServiceId)
    requires Inv(s)
    ensures StoreSlots(Unregister(s, id)) == StoreSlots(s) && StoreStatus(s, id).Waiting? ==> s.mode.LegacySerial?
  {
    hide Unregister, Clash;
    UnregisterSlots(s, id);
  }

  lemma {:induction false} ExpireEffect(c: Client, now: nat)
    requires Inv(c.store)
    ensures
      var h := OnDeadline(c, now);
      h.verdict.Continue? ==>
        && h.sent == [] && h.client.store.mode == c.store.mode
        && (StoreSlots(h.client.store) < StoreSlots(c.store) || Unmoved(c.store, h.client.store))
  {
    hide ExpireOverdue, Inv;
    var s := c.store;
    var t := ExpireOverdue(s, now).0;
    ExpiryRemovesTheOverdue(s, now);
    if |t.inFlight| == |s.inFlight| {
      assert t.inFlight.Keys == s.inFlight.Keys by { SameSize(t.inFlight.Keys, s.inFlight.Keys); }
    } else {
      ExpireLoad(s, now);
    }
  }

  lemma {:induction false} SameSize<T>(a: set<T>, b: set<T>)
    requires a <= b && |a| == |b|
    ensures a == b
  {
    assert |b - a| == 0;
  }

  // ----- statuses fade

  /**
   What a client handler may do to a Service without a word to the server: nothing, or forget a registration or a
   tombstone, or bury a registration. Only a lost request buries a Service that nobody was waiting for.
   */
  predicate Fades(a: Status, b: Status, lost: bool) {
    b == a || (!a.Live? && (b.Absent? || (b.Buried? && (a.Waiting? || lost))))
  }

  lemma {:induction false} BeginStatus(s: Store, service: Service, g: nat, reply: Reply, j: ServiceId)
    requires Inv(s) && Apart(s)
    ensures
      var (t, accepted) := AnswerBegin(s, service, g, reply);
      if accepted && j == service.id then
        (StoreStatus(s, j).Absent? || StoreStatus(s, j).Buried?) && StoreStatus(t, j) == Waiting(service.name)
      else Fades(StoreStatus(s, j), StoreStatus(t, j), false)
  {
    hide AnswerBegin, Inv, Apart;
    OneMoreForm(s, service, g, reply);
  }

  lemma {:induction false} AbandonFades(s: Store, id: ServiceId, j: ServiceId)
    requires Inv(s) && id !in s.active && id in s.inFlight
    ensures
      if j == id then StoreStatus(Abandon(s, id), j) == Buried
      else Fades(StoreStatus(s, j), StoreStatus(Abandon(s, id), j), false)
  {
    hide Settle, Clash, Ceiling;
  }

  lemma {:induction false} RearmedStatus(s: Store, t: Store, j: ServiceId)
    requires Rearmed(s, t)
    ensures StoreStatus(t, j) == StoreStatus(s, j)
  {
  }

  /** A registration command asks, or only fades; `lost` if it was begun and its write never arrived. */
  lemma {:induction false} RegisterFades(c: Client, g: nat, limit: nat, service: Service, reply: Reply,
                                         closed: set<Reply>, write: Write, j: ServiceId)
    requires Inv(c.store) && Apart(c.store)
    ensures
      var h := OnRegister(c, g, limit, service, reply, closed, write);
      var a, b := StoreStatus(c.store, j), StoreStatus(h.client.store, j);
      var begun := |c.store.desired| + Unacknowledged(c.store) < limit && reply !in closed
                   && AnswerBegin(c.store, service, g, reply).1;
      h.verdict.Continue? ==>
        && (h.sent == [] || h.sent == [Registration(service)])
        && (if h.sent != [] && j == service.id then
              (a.Absent? || a.Buried?) && (b == Waiting(service.name) || b.Buried?)
            else Fades(a, b, j == service.id && begun && write == WriteTimedOut(false)))
  {
    hide Inv, Apart, AnswerBegin, ArmDeadline, Abandon, FailLegacyWrite, StoreStatus, Registration, Unacknowledged,
      Settle, Rearmed;
    var s := c.store;
    SameAnswersStatus(s, Some(reply), Failed(ResourceExhausted), j);
    SameAnswersStatus(s, Some(reply), Dropped, j);
    BeginStatus(s, service, g, reply, j);
    BeginMode(s, service, g, reply);
    var (t, accepted) := AnswerBegin(s, service, g, reply);
    if accepted {
      BegunFacts(s, service, g, reply);
      match write
      case Written(deadline) =>
        ArmForm(t, service.id, deadline);
        RearmedStatus(t, ArmDeadline(t, service.id, deadline), j);
      case WriteFailed =>
      case WriteTimedOut(_) =>
        if t.mode.CorrelatedBounded? { AbandonFades(t, service.id, j); }
    }
  }

  lemma {:induction false} SameAnswersStatus(s: Store, reply: Option<Reply>, o: Outcome, j: ServiceId)
    ensures StoreStatus(Answer(s, reply, o), j) == StoreStatus(s, j)
  {
  }

  lemma {:induction false} TombstoneKeys(abandoned: map<ServiceId, nat>, id: ServiceId, g: nat)
    ensures Tombstone(abandoned, id, g).Keys <= abandoned.Keys + {id}
  {
  }

  lemma {:induction false} ForgottenStatus(s: Store, t: Store, id: ServiceId, j: ServiceId)
    requires id in s.active ==> !PendingFor(s, id) && id !in s.abandoned
    requires id in s.abandoned ==> !PendingFor(s, id) && id !in s.inFlight
    requires t.active == s.active - {id} && t.inFlight == s.inFlight - {id}
    requires if PendingFor(s, id) then t.pending == None && t.abandoned.Keys <= s.abandoned.Keys + {id}
             else t.pending == s.pending && t.abandoned == s.abandoned
    ensures
      var a, b := StoreStatus(s, j), StoreStatus(t, j);
      if j != id then Fades(a, b, false)
      else b.Absent? || (b.Buried? && (a.Waiting? || a.Buried?))
  {
  }

  lemma {:induction false} UnregisterFades(s: Store, id: ServiceId, j: ServiceId)
    requires Inv(s) && Apart(s)
    ensures
      var a, b := StoreStatus(s, j), StoreStatus(Unregister(s, id), j);
      if j != id then Fades(a, b, false)
      else b.Absent? || (b.Buried? && (a.Waiting? || a.Buried?))
  {
    hide *;
    UnregisterForm(s, id);
    PlaceFacts(s, id);
    if PendingFor(s, id) { TombstoneKeys(s.abandoned, id, s.pending.value.generation); }
    ForgottenStatus(s, Unregister(s, id), id, j);
  }

  lemma {:induction false} ExpireFades(s: Store, now: nat, j: ServiceId)
    requires Inv(s)
    ensures Fades(StoreStatus(s, j), StoreStatus(ExpireOverdue(s, now).0, j), false)
  {
    hide ExpireOverdue, Clash, Ceiling;
    ExpiryRemovesTheOverdue(s, now);
  }
}
