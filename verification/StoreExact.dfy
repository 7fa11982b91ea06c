/** When the registration store and the ready loop accept, refuse, tell and go on, from the transactions they hold. */
module StoreExact {
  import opened Wire
  import opened ServiceStore
  import opened Tally
  import opened ServiceStoreProofs
  import opened ReadyLoop
  import opened ClientLifeProofs

  /** The outstanding transaction of a Service. */
  function TxnOf(s: Store, id: ServiceId): Option<Txn> {
    if s.pending.Some? && s.pending.value.service.id == id then s.pending
    else if id in s.inFlight then Some(s.inFlight[id])
    else None
  }

  /** Some desired or outstanding Service has the id or the name. */
  ghost predicate Claimed(s: Store, id: ServiceId, name: Text) {
    || (exists i :: 0 <= i < |s.desired| && (s.desired[i].id == id || s.desired[i].name == name))
    || (s.pending.Some? && (s.pending.value.service.id == id || s.pending.value.service.name == name))
    || (exists k :: k in s.inFlight && (s.inFlight[k].service.id == id || s.inFlight[k].service.name == name))
  }

  /** One at a time in legacy mode; in correlated mode as many as the ceiling allows, and always one. */
  predicate HasRoom(s: Store) {
    match s.mode
    case LegacySerial => s.pending == None
    case CorrelatedBounded(maxInFlight) => |s.inFlight| == 0 || |s.inFlight| < maxInFlight
  }

  // ----- beginning a registration

  /** A taken id or name is refused as existing, lack of room as exhausted, and nothing else is refused. */
  lemma {:induction false} BeginDecides(s: Store, service: Service, g: nat, reply: Reply)
    ensures Begin(s, service, g, reply).1 ==
      if Claimed(s, service.id, service.name) then Some(ServiceAlreadyExists)
      else if !HasRoom(s) then Some(ResourceExhausted)
      else None
  {
    assert Refuses(s, service) <==> Claimed(s, service.id, service.name);
  }

  /** What is begun is outstanding under its id with its caller and no deadline; nothing else outstanding changes. */
  lemma {:induction false} BeginOpens(s: Store, service: Service, g: nat, reply: Reply, k: ServiceId)
    requires Inv(s)
    ensures
      var (t, refused) := Begin(s, service, g, reply);
      && TxnOf(t, k) ==
        (if refused.None? && k == service.id then Some(Txn(service, g, Some(reply), None)) else TxnOf(s, k))
      && (k in t.abandoned <==> k in s.abandoned && (refused == Some(ServiceAlreadyExists) || k != service.id))
      && t.desired == s.desired && t.active == s.active && t.answers == s.answers && t.mode == s.mode
  {
    assert s.mode.LegacySerial? ==> s.inFlight == map[];
    assert s.mode.CorrelatedBounded? ==> s.pending == None;
    BeginRefused(s, service, g, reply);
    BeginForm(s, service, g, reply);
    hide Begin, Refuses, Inv, Ceiling;
  }

  lemma {:induction false} BeginRefused(s: Store, service: Service, g: nat, reply: Reply)
    ensures
      var (t, refused) := Begin(s, service, g, reply);
      && (refused == Some(ServiceAlreadyExists) ==> t == s)
      && (refused.Some? && refused != Some(ServiceAlreadyExists) ==> t == s.(abandoned := s.abandoned - {service.id}))
  {
    hide Refuses, Ceiling;
  }

  // ----- deadlines

  /** Every outstanding transaction has a deadline. */
  ghost predicate Armed(s: Store) {
    forall k :: TxnOf(s, k).Some? ==> TxnOf(s, k).value.deadline.Some?
  }

  lemma {:induction false} ArmSets(s: Store, id: ServiceId, deadline: nat, k: ServiceId)
    requires Inv(s) && TxnOf(s, id).Some?
    ensures TxnOf(ArmDeadline(s, id, deadline), k) ==
      if k == id then Some(TxnOf(s, id).value.(deadline := Some(deadline))) else TxnOf(s, k)
  {
    hide Clash, Ceiling;
  }

  // ----- what callers are told

  predicate Holds(s: Store, r: Reply) {
    || (s.pending.Some? && s.pending.value.reply == Some(r))
    || (exists k :: k in s.inFlight && s.inFlight[k].reply == Some(r))
  }

  lemma {:induction false} HeldIs(s: Store, r: Reply)
    ensures r in ServiceStore.Held(s) <==> Holds(s, r)
  {
    if k :| k in s.inFlight && s.inFlight[k].reply == Some(r) { assert s.inFlight[k].reply.value == r; }
  }

  lemma {:induction false} OneSettled(a: Answers, rs: set<Reply>, o: Outcome, r: Reply)
    ensures Sent(Settle(a, rs, o), r) == Sent(a, r) + if r in rs then [o] else []
  {
  }

  /** Whoever waits is told how the Session ended; a transport or protocol fault is only a disconnection to them. */
  lemma {:induction false} FinishTells(s: Store, e: TunnelError, r: Reply)
    ensures
      var told := if e == Io || e == Protocol then TunnelError.Disconnected else e;
      Sent(FinishPending(s, e).answers, r) == Sent(s.answers, r) + if Holds(s, r) then [Failed(told)] else []
  {
    HeldIs(s, r);
    OneSettled(s.answers, ServiceStore.Held(s), Failed(DuplicateError(e)), r);
    hide Settle;
  }

  lemma {:induction false} SwitchTells(s: Store, mode: Mode, r: Reply)
    ensures Sent(SetMode(s, mode).answers, r) ==
      Sent(s.answers, r) + if Holds(s, r) then [Failed(TunnelError.Disconnected)] else []
    ensures SetMode(s, mode).mode == mode && SetMode(s, mode).desired == s.desired
  {
    FinishTells(s, TunnelError.Disconnected, r);
  }

  lemma {:induction false} AbandonTells(s: Store, id: ServiceId, r: Reply)
    ensures Sent(Abandon(s, id).answers, r) ==
      Sent(s.answers, r) + if id in s.inFlight && s.inFlight[id].reply == Some(r) then [Failed(Timeout)] else []
  {
    if id in s.inFlight { OneSettled(s.answers, Channel(s.inFlight[id].reply), Failed(Timeout), r); }
    hide Settle, Tombstone;
  }

  lemma {:induction false} UnregisterTells(s: Store, id: ServiceId, r: Reply)
    requires Inv(s)
    ensures
      var txn := TxnOf(s, id);
      Sent(Unregister(s, id).answers, r) ==
        Sent(s.answers, r) + if txn.Some? && txn.value.reply == Some(r) then [Failed(Cancelled)] else []
  {
    assert !(PendingFor(s, id) && id in s.inFlight);
    hide Settle, Tombstone, Without, Inv;
    if PendingFor(s, id) {
      OneSettled(s.answers, Channel(s.pending.value.reply), Failed(Cancelled), r);
    } else if id in s.inFlight {
      OneSettled(s.answers, Channel(s.inFlight[id].reply), Failed(Cancelled), r);
    }
  }

  lemma {:induction false} LegacyTimeoutTells(s: Store, r: Reply)
    ensures Sent(FailLegacyWrite(s).answers, r) ==
      Sent(s.answers, r) + if s.pending.Some? && s.pending.value.reply == Some(r) then [Failed(Timeout)] else []
  {
    if s.pending.Some? { OneSettled(s.answers, Channel(s.pending.value.reply), Failed(Timeout), r); }
    hide Settle;
  }

  // ----- tombstones

  /** Below 256 every tombstone stays; at 256 all others are dropped for the new one. */
  lemma {:induction false} TombstonesKept(s: Store, id: ServiceId, k: ServiceId)
    requires Inv(s)
    ensures id in s.inFlight ==>
      (k in Abandon(s, id).abandoned <==> k == id || (k in s.abandoned && |s.abandoned| < 256))
    ensures s.pending.Some? && s.pending.value.service.id == id ==>
      (k in Unregister(s, id).abandoned <==> k == id || (k in s.abandoned && |s.abandoned| < 256))
  {
    UnregisterForm(s, id);
    hide Settle, Unregister, Inv;
  }

  // ----- one registration command

  /** The place and channel part of what a registration command leaves. */
  ghost predicate SameTxns(s: Store, t: Store) {
    t == s.(answers := t.answers)
  }

  /** A full client and a caller that has gone are turned away before the store is asked. */
  lemma {:induction false} RegisterTurnsAway(c: Client, g: nat, limit: nat, service: Service, reply: Reply,
                                             closed: set<Reply>, write: Write)
    ensures
      var h := OnRegister(c, g, limit, service, reply, closed, write);
      var outstanding := |c.store.inFlight| + if c.store.pending.Some? then 1 else 0;
      var full := |c.store.desired| + outstanding >= limit;
      full || reply in closed ==>
        && h.sent == [] && h.verdict.Continue? && SameTxns(c.store, h.client.store)
        && Sent(h.client.store.answers, reply) ==
             Sent(c.store.answers, reply) + [if full then Failed(ResourceExhausted) else Dropped]
  {
    OneSettled(c.store.answers, {reply}, Failed(ResourceExhausted), reply);
    OneSettled(c.store.answers, {reply}, Dropped, reply);
    hide Settle, AnswerBegin;
  }

  lemma {:induction false} RegisterRefuses(c: Client, g: nat, limit: nat, service: Service, reply: Reply,
                                           closed: set<Reply>, write: Write)
    requires |c.store.desired| + |c.store.inFlight| + (if c.store.pending.Some? then 1 else 0) < limit
    requires reply !in closed && (Claimed(c.store, service.id, service.name) || !HasRoom(c.store))
    ensures
      var h := OnRegister(c, g, limit, service, reply, closed, write);
      var why := if Claimed(c.store, service.id, service.name) then ServiceAlreadyExists else ResourceExhausted;
      h.sent == [] && h.verdict.Continue?
      && Sent(h.client.store.answers, reply) == Sent(c.store.answers, reply) + [Failed(why)]
  {
    BeginDecides(c.store, service, g, reply);
    var (t, refused) := Begin(c.store, service, g, reply);
    assert t.answers == c.store.answers by { hide Refuses, Ceiling; }
    OneSettled(c.store.answers, {reply}, Failed(refused.value), reply);
    hide Settle, Begin, Claimed;
  }

  /** Otherwise the request is written: armed with its deadline, or ended or told by how the write failed. */
  lemma {:induction false} RegisterAsks(c: Client, g: nat, limit: nat, service: Service, reply: Reply,
                                        closed: set<Reply>, write: Write, k: ServiceId)
    requires Inv(c.store)
    requires |c.store.desired| + |c.store.inFlight| + (if c.store.pending.Some? then 1 else 0) < limit
    requires reply !in closed && !Claimed(c.store, service.id, service.name) && HasRoom(c.store)
    ensures
      var h := OnRegister(c, g, limit, service, reply, closed, write);
      var wire := RegisterService(service.id, service.name, service.requestedBind, service.target);
      match write
      case Written(deadline) =>
        && h.verdict == Continue && h.sent == [wire]
        && TxnOf(h.client.store, k) ==
             if k == service.id then Some(Txn(service, g, Some(reply), Some(deadline))) else TxnOf(c.store, k)
      case WriteFailed => h.verdict == Return(Io)
      case WriteTimedOut(delivered) =>
        && h.verdict == (if c.store.mode.LegacySerial? then Break(true) else Continue)
        && h.sent == (if delivered then [wire] else [])
        && (c.store.mode.CorrelatedBounded? ==>
              TxnOf(h.client.store, k) == (if k == service.id then None else TxnOf(c.store, k))
              && service.id in h.client.store.abandoned)
  {
    BeginDecides(c.store, service, g, reply);
    BeginOpens(c.store, service, g, reply, k);
    BeginOpens(c.store, service, g, reply, service.id);
    BeginKeeps(c.store, service, g, reply);
    var t := Begin(c.store, service, g, reply).0;
    assert AnswerBegin(c.store, service, g, reply) == (t, true);
    hide Begin, AnswerBegin, Claimed, HasRoom, Settle, Inv, TxnOf;
    if write.Written? {
      ArmSets(t, service.id, write.deadline, k);
    } else if write.WriteTimedOut? && t.mode.CorrelatedBounded? {
      AbandonTakes(t, service.id, k);
    }
  }

  lemma {:induction false} AbandonTakes(s: Store, id: ServiceId, k: ServiceId)
    requires Inv(s) && s.mode.CorrelatedBounded? && TxnOf(s, id).Some?
    ensures TxnOf(Abandon(s, id), k) == (if k == id then None else TxnOf(s, k)) && id in Abandon(s, id).abandoned
  {
    hide Settle, Clash, Ceiling;
  }

  // ----- when the loop goes on

  /** A message ends the Session unless it answers something outstanding or buried, or is harmless traffic. */
  lemma {:induction false} LoopGoesOn(c: Client, session: SessionId, g: nat, m: Message, closed: set<Reply>,
                                      written: bool)
    requires Inv(c.store) && OfGeneration(c.store, g)
    ensures OnMessage(c, session, g, m, closed, written).verdict ==
      match m
      case RegisterAck(id, _) =>
        if TxnOf(c.store, id).Some? || id in c.store.abandoned then Continue else Return(Protocol)
      case RegisterReject(id, _, _) =>
        if c.store.mode.CorrelatedBounded? && (TxnOf(c.store, id).Some? || id in c.store.abandoned) then Continue
        else Return(Protocol)
      case Error(_, _) => if c.store.pending.Some? then Continue else Return(Authorization)
      case Open(_, _) => Continue
      case Ping(_) => Continue
      case Pong(_) => Continue
      case Drain(_) => Break(false)
      case _ => Return(Protocol)
  {
    hide Settle, AnswerAck, AnswerReject, TxnOf, Inv, OfGeneration, RegistrationErrorCode;
    match m
    case RegisterAck(id, bind) => AckGoesOn(c.store, g, id, closed, bind);
    case RegisterReject(id, code, _) => RejectGoesOn(c.store, g, id, RegistrationErrorCode(code));
    case _ =>
  }

  /** A withdrawal goes on unless its write fails for an active Service; a sweep, unless the legacy slot is overdue. */
  lemma {:induction false} OthersGoOn(c: Client, id: ServiceId, written: bool, now: nat)
    ensures OnUnregister(c, id, written).verdict == if written
      || id !in c.store.active then Continue else Return(Timeout)
    ensures OnUnregister(c, id, written).sent == if written then [UnregisterService(id)] else []
    ensures OnDeadline(c, now).sent == []
    ensures
      var late := c.store.pending.Some? && c.store.pending.value.deadline.Some?
        && c.store.pending.value.deadline.value <= now;
      OnDeadline(c, now).verdict == if late then Break(true) else Continue
  {
    hide Unregister, Settle, OverdueTxns, ChannelsOf;
  }

  lemma {:induction false} AckGoesOn(s: Store, g: nat, id: ServiceId, closed: set<Reply>, bind: EffectiveBind)
    requires Inv(s) && OfGeneration(s, g)
    ensures
      var d := AnswerAck(s, id, g, closed, bind).1;
      && !d.AckStale? && (d.Unexpected? <==> TxnOf(s, id) == None && id !in s.abandoned)
      && (d.Commit? <==>
        TxnOf(s, id).Some? && TxnOf(s, id).value.reply.Some? && TxnOf(s, id).value.reply.value !in closed)
  {
    hide Settle, Clash, Ceiling;
  }

  lemma {:induction false} RejectGoesOn(s: Store, g: nat, id: ServiceId, e: TunnelError)
    requires Inv(s)
    ensures AnswerReject(s, id, g, e).1.Unknown? <==> TxnOf(s, id) == None && id !in s.abandoned
  {
    hide Settle, Clash, Ceiling;
  }
}
