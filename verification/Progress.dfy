/** What the two parties get done: a Session gets ready, a registration is answered, a withdrawal is carried out. */
module Progress {
  import opened Wire
  import opened ServiceStore
  import opened ServiceStoreProofs
  import opened ReadyLoop
  import opened ServerControl
  import opened Protocol
  import opened Ledger
  import opened ProtocolProofs
  import opened Situations
  import opened Agreement
  import opened Tally
  import StoreExact

  // ----- the client's answers to its callers

  lemma {:induction false} TakesOwn(s: Store, txn: Txn)
    requires Inv(s) && StoreExact.TxnOf(s, txn.service.id) == Some(txn)
    ensures
      var (t, taken) := TakeTransaction(s, txn.service.id);
      && taken == Some(txn) && t.desired == s.desired && t.active == s.active && t.answers == s.answers
      && Unacknowledged(t) + 1 == Unacknowledged(s)
  {
    assert s.mode.LegacySerial? ==> s.inFlight == map[];
    assert s.mode.CorrelatedBounded? ==> s.pending == None;
    hide Inv;
  }

  lemma {:induction false} AckTells(s: Store, txn: Txn, closed: set<Reply>, bind: EffectiveBind)
    requires Inv(s) && StoreExact.TxnOf(s, txn.service.id) == Some(txn)
    requires txn.reply.Some? && txn.reply.value !in closed
    ensures
      var (t, d) := AnswerAck(s, txn.service.id, txn.generation, closed, bind);
      && d == Commit(txn.service, txn.reply)
      && t.desired == s.desired + [txn.service] && t.active == s.active[txn.service.id := txn.service]
      && Sent(t.answers, txn.reply.value) == Sent(s.answers, txn.reply.value) + [Bound(bind)]
      && Unacknowledged(t) + 1 == Unacknowledged(s)
  {
    TakesOwn(s, txn);
    StoreExact.OneSettled(s.answers, {txn.reply.value}, Bound(bind), txn.reply.value);
    hide Settle, Inv, TakeTransaction, StoreExact.TxnOf;
  }

  lemma {:induction false} RejectTells(s: Store, txn: Txn, e: TunnelError)
    requires Inv(s) && StoreExact.TxnOf(s, txn.service.id) == Some(txn) && txn.reply.Some?
    ensures
      var (t, d) := AnswerReject(s, txn.service.id, txn.generation, e);
      && !d.Unknown? && t.desired == s.desired && t.active == s.active
      && Sent(t.answers, txn.reply.value) == Sent(s.answers, txn.reply.value) + [Failed(e)]
      && Unacknowledged(t) + 1 == Unacknowledged(s)
  {
    TakesOwn(s, txn);
    StoreExact.OneSettled(s.answers, {txn.reply.value}, Failed(e), txn.reply.value);
    hide Settle, Inv, TakeTransaction, StoreExact.TxnOf;
  }

  lemma {:induction false} ErrorTells(s: Store, e: TunnelError)
    requires s.pending.Some? && s.pending.value.reply.Some?
    ensures
      var (t, found) := AnswerError(s, e);
      var reply := s.pending.value.reply.value;
      && found && t.desired == s.desired && t.active == s.active
      && Sent(t.answers, reply) == Sent(s.answers, reply) + [Failed(e)]
      && Unacknowledged(t) + 1 == Unacknowledged(s)
  {
    StoreExact.OneSettled(s.answers, {s.pending.value.reply.value}, Failed(e), s.pending.value.reply.value);
    hide Settle;
  }

  // ----- a registration from its submission to its answer

  /** No Service the client wants has the id or the name. */
  predicate Fresh(s: Store, service: Service) {
    forall i :: 0 <= i < |s.desired| ==> s.desired[i].id != service.id && s.desired[i].name != service.name
  }

  lemma {:induction false} Opened(s: Store, service: Service, g: nat, reply: Reply, deadline: nat)
    requires s.pending == None && s.inFlight == map[] && Fresh(s, service)
    ensures
      var (u, accepted) := AnswerBegin(s, service, g, reply);
      var t := ArmDeadline(u, service.id, deadline);
      && accepted && t.desired == s.desired && t.active == s.active && t.answers == s.answers && t.mode == s.mode
      && StoreExact.TxnOf(t, service.id) == Some(Txn(service, g, Some(reply), Some(deadline)))
      && Unacknowledged(t) == 1 && (t.pending.Some? <==> t.mode.LegacySerial?)
  {
    StoreExact.BeginDecides(s, service, g, reply);
    hide Settle;
  }

  lemma {:induction false} Asked(n: Net, service: Service, reply: Reply, deadline: nat)
    requires n.up && n.stage.Ready? && Unacknowledged(n.client.store) == 0
    requires |n.client.store.desired| < n.limit && Fresh(n.client.store, service)
    ensures
      var s := n.client.store;
      var v := Apply(n, Submit(service, reply, {}, Written(deadline)));
      var t := v.client.store;
      && v == n.(client := n.client.(store := t), toServer := n.toServer + [Registration(service)])
      && t.desired == s.desired && t.active == s.active && t.answers == s.answers && t.mode == s.mode
      && StoreExact.TxnOf(t, service.id) == Some(Txn(service, n.generation, Some(reply), Some(deadline)))
      && Unacknowledged(t) == 1 && (t.pending.Some? <==> t.mode.LegacySerial?)
  {
    Opened(n.client.store, service, n.generation, reply, deadline);
    hide AnswerBegin, ArmDeadline, StoreExact.TxnOf, Settle, Fresh;
  }

  lemma {:induction false} Ruled(n: Net, service: Service, listener: Listener, diagnostic: Text)
    requires n.up && n.toServer == [Registration(service)] && n.toClient == []
    ensures
      var (table, answer) := Register(n.table, n.maxServices, Correlated(n), service.id, service.name, listener,
                                      diagnostic);
      Apply(n, ServerReceives(listener, diagnostic)) ==
        n.(toServer := [], table := table, toClient := [Envelope(answer, service.id)])
  {
    hide Register;
    assert n.toServer[1..] == [];
  }

  /** What a caller is to hear, from the table, the limit and the listener alone. */
  function Answered(t: Table, max: nat, service: Service, listener: Listener): Outcome {
    if |t.services| >= max then Failed(ResourceExhausted)
    else if !Free(t, max, service.id, service.name) then Failed(ServiceAlreadyExists)
    else if listener.Listening? then Bound(listener.bind)
    else Failed(Authorization)
  }

  lemma {:induction false} RulingIs(t: Table, max: nat, correlated: bool, service: Service, listener: Listener,
                                    diagnostic: Text)
    requires Consistent(t) && |t.services| <= max
    ensures
      var (u, answer) := Register(t, max, correlated, service.id, service.name, listener, diagnostic);
      var o := Answered(t, max, service, listener);
      if o.Bound? then answer == RegisterAck(service.id, o.bind) && u.services == t.services[service.id := service.name]
      else
        && u == t && o.Failed? && (answer.RegisterReject? <==> correlated) && (answer.Error? <==> !correlated)
        && RegistrationErrorCode(answer.code) == o.error && (correlated ==> answer.serviceId == service.id)
  {
    RegisterMeaning(t, max, correlated, service.id, service.name, listener, diagnostic);
    hide Register, Free, Consistent;
  }

  /** The message carries the outcome to the transaction it is about. */
  predicate Tells(m: Message, id: ServiceId, correlated: bool, o: Outcome) {
    match o
    case Bound(bind) => m == RegisterAck(id, bind)
    case Failed(e) =>
      if correlated then m.RegisterReject? && m.serviceId == id && RegistrationErrorCode(m.code) == e
      else m.Error? && RegistrationErrorCode(m.code) == e
    case Dropped => false
  }

  lemma {:induction false} HeardBound(c: Client, session: SessionId, txn: Txn, bind: EffectiveBind, cleanup: bool)
    requires Inv(c.store) && StoreExact.TxnOf(c.store, txn.service.id) == Some(txn) && txn.reply.Some?
    ensures
      var h := OnMessage(c, session, txn.generation, RegisterAck(txn.service.id, bind), {}, cleanup);
      var t, r := h.client.store, txn.reply.value;
      && h.verdict == Continue && h.sent == []
      && Unacknowledged(t) + 1 == Unacknowledged(c.store)
      && Sent(t.answers, r) == Sent(c.store.answers, r) + [Bound(bind)]
      && t.desired == c.store.desired + [txn.service] && t.active == c.store.active[txn.service.id := txn.service]
      && h.client.binds == c.binds + [BindEntry(session, txn.service.id, bind)] && h.client.services == |t.active|
  {
    AckTells(c.store, txn, {}, bind);
    hide AnswerAck, Inv, StoreExact.TxnOf, Unacknowledged;
  }

  lemma {:induction false} HeardReject(c: Client, session: SessionId, txn: Txn, code: u16, text: Text, e: TunnelError,
                                       cleanup: bool)
    requires Inv(c.store) && StoreExact.TxnOf(c.store, txn.service.id) == Some(txn) && txn.reply.Some?
    requires c.store.mode.CorrelatedBounded? && RegistrationErrorCode(code) == e
    ensures
      var h := OnMessage(c, session, txn.generation, RegisterReject(txn.service.id, code, text), {}, cleanup);
      var t, r := h.client.store, txn.reply.value;
      && h.verdict == Continue && h.sent == []
      && Unacknowledged(t) + 1 == Unacknowledged(c.store)
      && Sent(t.answers, r) == Sent(c.store.answers, r) + [Failed(e)]
      && t.desired == c.store.desired && t.active == c.store.active && h.client.binds == c.binds
      && h.client.services == c.services
  {
    RejectTells(c.store, txn, e);
    hide AnswerReject, Inv, StoreExact.TxnOf, Unacknowledged, RegistrationErrorCode;
  }

  lemma {:induction false} HeardError(c: Client, session: SessionId, txn: Txn, code: u16, text: Text, e: TunnelError,
                                      cleanup: bool)
    requires c.store.pending == Some(txn) && txn.reply.Some? && RegistrationErrorCode(code) == e
    ensures
      var h := OnMessage(c, session, txn.generation, Error(code, text), {}, cleanup);
      var t, r := h.client.store, txn.reply.value;
      && h.verdict == Continue && h.sent == []
      && Unacknowledged(t) + 1 == Unacknowledged(c.store)
      && Sent(t.answers, r) == Sent(c.store.answers, r) + [Failed(e)]
      && t.desired == c.store.desired && t.active == c.store.active && h.client.binds == c.binds
      && h.client.services == c.services
  {
    ErrorTells(c.store, e);
    hide AnswerError, Unacknowledged, RegistrationErrorCode;
  }

  lemma {:induction false} LegacyTxn(s: Store, id: ServiceId)
    requires Inv(s) && s.mode.LegacySerial? && StoreExact.TxnOf(s, id).Some?
    ensures s.pending == StoreExact.TxnOf(s, id)
  {
    hide Clash, ClaimsDistinct, TombstonesApart;
  }

  lemma {:induction false} Received(n: Net, m: Message, about: ServiceId, cleanup: bool)
    requires n.up && n.stage.Ready? && n.toClient == [Envelope(m, about)]
    ensures
      var h := OnMessage(n.client, n.session, n.generation, m, {}, cleanup);
      h.verdict == Continue && h.sent == [] ==>
        Apply(n, ClientReceives({}, cleanup)) == n.(client := h.client, toClient := [])
  {
    hide OnMessage;
    assert n.toClient[1..] == [] && n.toServer + [] == n.toServer;
  }

  lemma {:induction false} Heard(n: Net, txn: Txn, m: Message, o: Outcome, cleanup: bool)
    requires n.up && n.stage.Ready? && n.toClient == [Envelope(m, txn.service.id)] && Inv(n.client.store)
    requires StoreExact.TxnOf(n.client.store, txn.service.id) == Some(txn)
    requires txn.generation == n.generation && txn.reply.Some? && Tells(m, txn.service.id, Correlated(n), o)
    ensures
      var v, s := Apply(n, ClientReceives({}, cleanup)), n.client.store;
      var t, r := v.client.store, txn.reply.value;
      && v.up && v.stage.Ready? && v.toServer == n.toServer && v.toClient == [] && v.table == n.table
      && Unacknowledged(t) + 1 == Unacknowledged(s) && Sent(t.answers, r) == Sent(s.answers, r) + [o]
      && t.desired == s.desired + (if o.Bound? then [txn.service] else [])
      && t.active == (if o.Bound? then s.active[txn.service.id := txn.service] else s.active)
      && v.client.binds ==
           n.client.binds + (if o.Bound? then [BindEntry(n.session, txn.service.id, o.bind)] else [])
  {
    hide Apply, Inv, StoreExact.TxnOf, Unacknowledged, OnMessage, RegistrationErrorCode;
    Received(n, m, txn.service.id, cleanup);
    if o.Bound? {
      HeardBound(n.client, n.session, txn, o.bind, cleanup);
    } else {
      assert n.client.store.desired + [] == n.client.store.desired && n.client.binds + [] == n.client.binds;
      if Correlated(n) {
        HeardReject(n.client, n.session, txn, m.code, m.diagnostic, o.error, cleanup);
      } else {
        LegacyTxn(n.client.store, txn.service.id);
        HeardError(n.client, n.session, txn, m.code, m.diagnostic, o.error, cleanup);
      }
    }
  }

  lemma {:induction false} RunThree(n: Net, a: Protocol.Step, b: Protocol.Step, c: Protocol.Step)
    ensures Run(n, [a, b, c]) == Apply(Apply(Apply(n, a), b), c)
  {
    hide Apply;
    assert [a, b, c][1..] == [b, c] && [b, c][1..] == [c] && [c][1..] == [];
    assert Run(Apply(Apply(Apply(n, a), b), c), []) == Apply(Apply(Apply(n, a), b), c);
    assert Run(Apply(Apply(n, a), b), [c]) == Apply(Apply(Apply(n, a), b), c);
    assert Run(Apply(n, a), [b, c]) == Run(Apply(Apply(n, a), b), [c]);
  }

  lemma {:induction false} AnsweredFrom(n: Net, b: Book, service: Service, reply: Reply, deadline: nat,
                                        listener: Listener, diagnostic: Text, cleanup: bool)
    requires n.stage.Ready? && Quiet(n) && Holds(n, b) && |n.table.services| <= n.maxServices
    requires |n.client.store.desired| < n.limit && Fresh(n.client.store, service)
    ensures
      var v := Run(n, [Submit(service, reply, {}, Written(deadline)), ServerReceives(listener, diagnostic),
                       ClientReceives({}, cleanup)]);
      var o := Answered(n.table, n.maxServices, service, listener);
      var s, t := n.client.store, v.client.store;
      && v.stage.Ready? && Quiet(v) && Sent(t.answers, reply) == Sent(s.answers, reply) + [o]
      && t.desired == s.desired + (if o.Bound? then [service] else [])
      && v.table.services == (if o.Bound? then n.table.services[service.id := service.name] else n.table.services)
      && v.client.binds == n.client.binds + (if o.Bound? then [BindEntry(n.session, service.id, o.bind)] else [])
  {
    var submit := Submit(service, reply, {}, Written(deadline));
    RunThree(n, submit, ServerReceives(listener, diagnostic), ClientReceives({}, cleanup));
    QuietStore(n, b);
    Asked(n, service, reply, deadline);
    var n1 := Apply(n, submit);
    StepHolds(n, b, submit);
    assert Inv(n1.client.store) && Consistent(n.table) by { hide Inv, Consistent; }
    hide Holds, Run, Inv, Consistent, Fresh, Unacknowledged, StoreExact.TxnOf, RegistrationErrorCode, Free;
    Ruled(n1, service, listener, diagnostic);
    RulingIs(n.table, n.maxServices, Correlated(n1), service, listener, diagnostic);
    hide Register;
    var n2 := Apply(n1, ServerReceives(listener, diagnostic));
    hide Apply;
    var txn := Txn(service, n.generation, Some(reply), Some(deadline));
    Heard(n2, txn, n2.toClient[0].message, Answered(n.table, n.maxServices, service, listener), cleanup);
  }

  lemma {:induction false} RegisterBounded(t: Table, max: nat, correlated: bool, id: ServiceId, name: Text,
                                           listener: Listener, diagnostic: Text)
    requires |t.services| <= max
    ensures |Register(t, max, correlated, id, name, listener, diagnostic).0.services| <= max
  {
  }

  lemma {:induction false} ServerShape(n: Net, listener: Listener, diagnostic: Text)
    requires n.toServer != []
    ensures
      var v, m := OnServerReceives(n, listener, diagnostic), n.toServer[0];
      && v.maxServices == n.maxServices && v.limit == n.limit && v.session == n.session
      && v.table == (
           if m.RegisterService? then
             Register(n.table, n.maxServices, Correlated(n), m.serviceId, m.name, listener, diagnostic).0
           else if m.UnregisterService? then Removed(n.table, m.serviceId)
           else n.table)
  {
    hide Register, Removed;
  }

  lemma {:induction false} ServerTable(n: Net, listener: Listener, diagnostic: Text)
    requires |n.table.services| <= n.maxServices
    ensures
      var v := OnServerReceives(n, listener, diagnostic);
      |v.table.services| <= v.maxServices == n.maxServices && v.limit == n.limit && v.session == n.session
  {
    if n.toServer == [] {
    } else {
      ServerShape(n, listener, diagnostic);
      hide OnServerReceives, Register;
      var m := n.toServer[0];
      if m.RegisterService? {
        RegisterBounded(n.table, n.maxServices, Correlated(n), m.serviceId, m.name, listener, diagnostic);
      } else if m.UnregisterService? {
        ShrinkSize(n.table.services, m.serviceId);
      }
    }
  }

  lemma {:induction false} StepTable(n: Net, step: Protocol.Step)
    requires |n.table.services| <= n.maxServices
    ensures |Apply(n, step).table.services| <= Apply(n, step).maxServices == n.maxServices
    ensures Apply(n, step).limit == n.limit && Apply(n, step).session == n.session
  {
    hide OnMessage, OnRegister, OnUnregister, OnDeadline, ActivateInitial, OnServerReceives;
    if step.ServerReceives? { ServerTable(n, step.listener, step.diagnostic); }
  }

  lemma {:induction false} RunTable(n: Net, steps: seq<Protocol.Step>)
    requires |n.table.services| <= n.maxServices
    ensures |Run(n, steps).table.services| <= Run(n, steps).maxServices == n.maxServices
    ensures Run(n, steps).limit == n.limit && Run(n, steps).session == n.session
    decreases |steps|
  {
    if steps == [] {
    } else {
      StepTable(n, steps[0]);
      RunTable(Apply(n, steps[0]), steps[1..]);
    }
  }

  /**
   After any run that leaves a ready Session with nothing in flight, a Service whose id and name the client does not
   have yet is settled by three steps, and the Session stays ready and quiet. Its caller hears the address if and
   only if the server has room, has neither the id nor the name, and can listen; otherwise it hears which of these
   failed. Exactly then do both parties have the Service.
   */
  lemma {:induction false} RegistrationIsAnswered(
      s: Store, mode: Mode, session: SessionId, generation: nat, limit: nat, max: nat, steps: seq<Protocol.Step>,
      service: Service, reply: Reply, deadline: nat, listener: Listener, diagnostic: Text, cleanup: bool)
    requires DesiredDistinct(s.desired)
    requires
      var n := Run(Begun(s, mode, session, generation, limit, max), steps);
      n.stage.Ready? && Quiet(n) && |n.client.store.desired| < limit && Fresh(n.client.store, service)
    ensures
      var n := Run(Begun(s, mode, session, generation, limit, max), steps);
      var v := Run(n, [Submit(service, reply, {}, Written(deadline)), ServerReceives(listener, diagnostic),
                       ClientReceives({}, cleanup)]);
      var o := Answered(n.table, max, service, listener);
      && v.stage.Ready? && Quiet(v)
      && Sent(v.client.store.answers, reply) == Sent(n.client.store.answers, reply) + [o]
      && v.client.store.desired == n.client.store.desired + (if o.Bound? then [service] else [])
      && v.table.services == (if o.Bound? then n.table.services[service.id := service.name] else n.table.services)
      && v.client.binds == n.client.binds + (if o.Bound? then [BindEntry(session, service.id, o.bind)] else [])
  {
    var start := Begun(s, mode, session, generation, limit, max);
    BegunHolds(s, mode, session, generation, limit, max);
    assert start.up && |start.table.services| <= start.maxServices == max && start.limit == limit
      && start.session == session;
    hide Begun, Holds;
    EveryRunHolds(start, BLANK, steps);
    RunTable(start, steps);
    var n, b := Run(start, steps), Notes(BLANK, start, steps);
    hide Run, Notes;
    AnsweredFrom(n, b, service, reply, deadline, listener, diagnostic, cleanup);
  }

  // ----- a withdrawal

  lemma {:induction false} RunTwo(n: Net, a: Protocol.Step, b: Protocol.Step)
    ensures Run(n, [a, b]) == Apply(Apply(n, a), b)
  {
    hide Apply;
    assert [a, b][1..] == [b] && [b][1..] == [];
    assert Run(Apply(Apply(n, a), b), []) == Apply(Apply(n, a), b);
    assert Run(Apply(n, a), [b]) == Apply(Apply(n, a), b);
  }

  lemma {:induction false} Withdrawn(n: Net, id: ServiceId)
    requires n.up && n.stage.Ready?
    ensures
      var v := Apply(n, Withdraw(id, true));
      && v == n.(client := v.client, toServer := n.toServer + [UnregisterService(id)])
      && v.client.store == Unregister(n.client.store, id)
      && v.client.binds == (if id in n.client.store.active then BindsWithout(n.client.binds, id) else n.client.binds)
  {
    hide Unregister, BindsWithout;
  }

  lemma {:induction false} Unlisted(n: Net, id: ServiceId, listener: Listener, diagnostic: Text)
    requires n.up && n.toServer == [UnregisterService(id)]
    ensures
      var v := Apply(n, ServerReceives(listener, diagnostic));
      v == n.(toServer := [], table := v.table) && v.table.services == n.table.services - {id}
  {
    assert n.toServer[1..] == [];
    assert id !in n.table.services ==> n.table.services - {id} == n.table.services;
  }

  /** From a quiet ready Session, two steps take a Service out of both parties, and nothing else. */
  lemma {:induction false} WithdrawalIsCarriedOut(n: Net, id: ServiceId, listener: Listener, diagnostic: Text)
    requires n.stage.Ready? && Quiet(n)
    ensures
      var v := Run(n, [Withdraw(id, true), ServerReceives(listener, diagnostic)]);
      && v.stage.Ready? && Quiet(v) && v.table.services == n.table.services - {id}
      && v.client.store.active == n.client.store.active - {id}
      && (forall x :: x in v.client.store.desired <==> x in n.client.store.desired && x.id != id)
  {
    hide Run, Apply, Unregister, Without, BindsWithout;
    RunTwo(n, Withdraw(id, true), ServerReceives(listener, diagnostic));
    Withdrawn(n, id);
    WithdrawnStore(n.client.store, id);
    Unlisted(Apply(n, Withdraw(id, true)), id, listener, diagnostic);
    forall x ensures x in Without(n.client.store.desired, id) <==> x in n.client.store.desired && x.id != id {
      StaysWithout(n.client.store.desired, id, x);
    }
  }

  lemma {:induction false} WithdrawnStore(s: Store, id: ServiceId)
    ensures Unregister(s, id).desired == Without(s.desired, id) && Unregister(s, id).active == s.active - {id}
  {
    hide Settle, Tombstone, Without;
  }

  lemma {:induction false} StaysWithout(xs: seq<Service>, id: ServiceId, x: Service)
    ensures x in Without(xs, id) <==> x in xs && x.id != id
  {
    if xs == [] {
    } else {
      assert xs == [xs[0]] + xs[1..];
      StaysWithout(xs[1..], id, x);
    }
  }

  /** The server answers a Ping with its own number, ignores a refused open, and ends on what a client may not send. */
  lemma {:induction false} ServerGoesOn(n: Net, listener: Listener, diagnostic: Text)
    requires n.up && n.toServer != []
    ensures
      var v, m := Apply(n, ServerReceives(listener, diagnostic)), n.toServer[0];
      && (v.up <==> m.RegisterService? || m.UnregisterService? || m.OpenReject? || m.Ping?)
      && (v.up ==> v.toServer == n.toServer[1..] && v.client == n.client && v.stage == n.stage)
      && (m.Ping? ==> v.toClient == n.toClient + [Envelope(Pong(m.nonce), 0)])
      && (m.Ping? || m.OpenReject? ==> v.table == n.table)
      && (m.OpenReject? || m.UnregisterService? ==> v.toClient == n.toClient)
  {
    hide Register, Removed;
  }

  // ----- the first registrations of a Session

  /** One configured Service after another: asked for, bound, acknowledged. */
  function Opening(binds: seq<EffectiveBind>): seq<Protocol.Step> {
    if binds == [] then []
    else [SendInitial, ServerReceives(Listening(binds[0]), []), ClientReceives({}, true)] + Opening(binds[1..])
  }

  function FirstBinds(session: SessionId, services: seq<Service>, binds: seq<EffectiveBind>): seq<BindEntry>
    requires |services| == |binds|
  {
    seq(|binds|, i requires 0 <= i < |binds| => BindEntry(session, services[i].id, binds[i]))
  }

  lemma {:induction false} NextIsFree(n: Net, b: Book)
    requires Holds(n, b) && Quiet(n) && n.stage.Registering? && !n.stage.awaiting
    requires n.stage.done < |n.client.store.desired| && |n.table.services| < n.maxServices
    ensures
      var next := n.client.store.desired[n.stage.done];
      next.id !in n.table.services && next.name !in n.table.names
  {
    RegisteringMeansAgreed(n, b);
    assert Consistent(n.table) && DesiredDistinct(n.client.store.desired) by {
      assert ClaimsDistinct(n.client.store);
      hide ClaimsDistinct, Consistent;
    }
    hide Holds;
    var k, desired := n.stage.done, n.client.store.desired;
    NotYetRegistered(desired, k);
    if desired[k].name in n.table.names { NameIsDesired(n.table, desired[..k], desired[k].name); }
  }

  lemma {:induction false} NameIsDesired(t: Table, services: seq<Service>, name: Text)
    requires Consistent(t) && name in t.names
    requires forall i :: i in t.services ==> i in ById(services) && t.services[i] == ById(services)[i].name
    ensures exists j :: 0 <= j < |services| && services[j].name == name
  {
    var i :| i in t.services && t.services[i] == name;
    ByIdEntry(services, i);
  }

  lemma {:induction false} ByIdEntry(xs: seq<Service>, i: ServiceId)
    requires i in ById(xs)
    ensures exists j :: 0 <= j < |xs| && xs[j] == ById(xs)[i]
  {
    var last := xs[|xs| - 1];
    if last.id == i {
      assert xs[|xs| - 1] == ById(xs)[i];
    } else {
      ByIdEntry(xs[..|xs| - 1], i);
      var j :| 0 <= j < |xs[..|xs| - 1]| && xs[..|xs| - 1][j] == ById(xs[..|xs| - 1])[i];
      assert xs[j] == ById(xs)[i];
    }
  }

  lemma {:induction false} OneFirst(n: Net, b: Book, bind: EffectiveBind)
    requires Holds(n, b) && Quiet(n) && n.stage.Registering? && !n.stage.awaiting
    requires n.stage.done < |n.client.store.desired| && |n.table.services| < n.maxServices
    ensures
      var v := Run(n, [SendInitial, ServerReceives(Listening(bind), []), ClientReceives({}, true)]);
      var id := n.client.store.desired[n.stage.done].id;
      && Quiet(v) && v.stage == Registering(n.stage.done + 1, false) && v.client.store == n.client.store
      && v.client.binds == n.client.binds + [BindEntry(n.session, id, bind)]
      && v.maxServices == n.maxServices && v.session == n.session && |v.table.services| == |n.table.services| + 1
  {
    RunThree(n, SendInitial, ServerReceives(Listening(bind), []), ClientReceives({}, true));
    NextIsFree(n, b);
    hide Holds, Run;
    var next := n.client.store.desired[n.stage.done];
    var n1 := Apply(n, SendInitial);
    assert n1 == n.(stage := Registering(n.stage.done, true), toServer := [Registration(next)]);
    Ruled(n1, next, Listening(bind), []);
    var n2 := Apply(n1, ServerReceives(Listening(bind), []));
    assert n2.toClient == [Envelope(RegisterAck(next.id, bind), next.id)];
    assert n2.toClient[1..] == [];
  }

  lemma {:induction false} RunsOn(n: Net, a: seq<Protocol.Step>, b: seq<Protocol.Step>)
    ensures Run(n, a + b) == Run(Run(n, a), b)
    decreases |a|
  {
    hide Apply;
    if a == [] {
      assert a + b == b;
    } else {
      assert (a + b)[1..] == a[1..] + b;
      RunsOn(Apply(n, a[0]), a[1..], b);
    }
  }

  lemma {:induction false} AllFirst(n: Net, b: Book, binds: seq<EffectiveBind>)
    requires Holds(n, b) && Quiet(n) && n.stage.Registering? && !n.stage.awaiting
    requires n.stage.done + |binds| == |n.client.store.desired| && |n.table.services| + |binds| <= n.maxServices
    ensures
      var v := Run(n, Opening(binds));
      && Quiet(v) && v.stage == Registering(|n.client.store.desired|, false) && v.client.store == n.client.store
      && v.client.binds ==
           n.client.binds + FirstBinds(n.session, n.client.store.desired[n.stage.done..], binds)
    decreases |binds|
  {
    hide Holds;
    var rest := n.client.store.desired[n.stage.done..];
    if binds == [] {
      assert n.client.binds + FirstBinds(n.session, rest, binds) == n.client.binds;
    } else {
      var one := [SendInitial, ServerReceives(Listening(binds[0]), []), ClientReceives({}, true)];
      RunsOn(n, one, Opening(binds[1..]));
      OneFirst(n, b, binds[0]);
      EveryRunHolds(n, b, one);
      var v := Run(n, one);
      var c := Notes(b, n, one);
      hide Run, Notes;
      AllFirst(v, c, binds[1..]);
      assert rest[1..] == n.client.store.desired[v.stage.done..];
      assert FirstBinds(n.session, rest, binds) ==
        [BindEntry(n.session, rest[0].id, binds[0])] + FirstBinds(n.session, rest[1..], binds[1..]);
    }
  }

  /**
   A new Session whose configured Services fit under the server's limit and can all listen gets ready in order: every
   Service is active at the client and registered at the server, each bound to the address its own listener got.
   */
  lemma {:induction false} SessionGetsReady(s: Store, mode: Mode, session: SessionId, generation: nat, limit: nat,
                                            max: nat, binds: seq<EffectiveBind>)
    requires DesiredDistinct(s.desired) && |binds| == |s.desired| <= max
    ensures
      var v := Run(Begun(s, mode, session, generation, limit, max), Opening(binds) + [Activate]);
      && v.stage.Ready? && Quiet(v) && v.client.store.desired == s.desired
      && v.client.binds == FirstBinds(session, s.desired, binds) && v.client.services == |s.desired|
      && v.client.store.active == ById(s.desired)
      && (forall i :: i in v.table.services <==> i in ById(s.desired))
      && (forall i :: i in v.table.services ==> v.table.services[i] == ById(s.desired)[i].name)
  {
    var start := Begun(s, mode, session, generation, limit, max);
    BegunHolds(s, mode, session, generation, limit, max);
    assert start.client.binds == [] && start.client.store.desired == s.desired && start.session == session;
    assert start.maxServices == max && start.table.services == map[] && Quiet(start);
    assert start.stage == Registering(0, false);
    hide Begun, Holds, ById;
    AllFirst(start, BLANK, binds);
    assert s.desired[0..] == s.desired;
    RunsOn(start, Opening(binds), [Activate]);
    var n := Run(start, Opening(binds));
    assert Run(n, [Activate]) == Apply(n, Activate) by { assert [Activate][1..] == []; }
    assert forall k :: 0 <= k < |Opening(binds) + [Activate]| ==> Arrives((Opening(binds) + [Activate])[k]) by {
      OpeningArrives(binds);
    }
    QuiescentPartiesAgree(s, mode, session, generation, limit, max, Opening(binds) + [Activate]);
    ArrivingWritesAgree(s, mode, session, generation, limit, max, Opening(binds) + [Activate]);
    hide Run, Notes, Stranded;
  }

  lemma {:induction false} OpeningArrives(binds: seq<EffectiveBind>)
    ensures forall k :: 0 <= k < |Opening(binds)| ==> Arrives(Opening(binds)[k])
  {
    if binds == [] {
    } else {
      OpeningArrives(binds[1..]);
    }
  }
}
