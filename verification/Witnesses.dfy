/** Runs in which the parties part ways: a refusal that reaches the wrong caller, and writes that are lost. */
module Witnesses {
  import opened Wire
  import opened ServiceStore
  import opened ReadyLoop
  import opened ServerControl
  import opened Protocol
  import opened Ledger
  import opened ProtocolProofs
  import opened Agreement
  import opened Callers

  /** A ready Session with no Service and room for one on either side. */
  function Idle(mode: Mode, session: SessionId, g: nat): Net {
    Around(Store([], map[], None, map[], map[], mode, map[]), session, g, Table(map[], {}), [], [])
  }

  function Around(s: Store, session: SessionId, g: nat, table: Table, toServer: seq<Message>,
                  toClient: seq<Envelope>): Net {
    Net(Client(s, [], 0), Stage.Ready, session, g, 1, table, 1, true, toServer, toClient)
  }

  lemma {:induction false} ActivatesIdle(mode: Mode, session: SessionId, g: nat)
    ensures Apply(Begun(New([]), mode, session, g, 1, 1), Protocol.Activate) == Idle(mode, session, g)
  {
    assert Settle(map[], {}, Failed(DuplicateError(Disconnected))) == map[];
  }

  lemma {:induction false} RunFirst(n: Net, step: Protocol.Step, n': Net, rest: seq<Protocol.Step>)
    requires Apply(n, step) == n'
    ensures Run(n, [step] + rest) == Run(n', rest)
  {
    hide Apply;
    assert ([step] + rest)[1..] == rest;
  }

  // ----- a refusal that reaches the wrong caller

  function Pending(service: Service, g: nat, reply: Reply): Option<Txn> {
    Some(Txn(service, g, Some(reply), Some(0)))
  }

  function Legacy(pending: Option<Txn>, abandoned: map<ServiceId, nat>, answers: Answers): Store {
    Store([], map[], pending, map[], abandoned, LegacySerial, answers)
  }

  lemma {:induction false} Submits(service: Service, reply: Reply, session: SessionId, g: nat, abandoned: map<ServiceId,
                                   nat>,
                                   answers: Answers, toServer: seq<Message>)
    ensures
      Apply(Around(Legacy(None, abandoned, answers), session, g, Table(map[], {}), toServer, []),
            Submit(service, reply, {}, Written(0)))
      == Around(Legacy(Pending(service, g, reply), abandoned - {service.id}, answers), session, g, Table(map[], {}),
                toServer + [Registration(service)], [])
  {
    hide Settle;
    var s := Legacy(None, abandoned, answers);
    assert !Refuses(s, service);
    assert AnswerBegin(s, service, g, reply) ==
      (s.(abandoned := abandoned - {service.id}, pending := Some(Txn(service, g, Some(reply), None))), true);
  }

  lemma {:induction false} Withdraws(service: Service, reply: Reply, session: SessionId, g: nat, toServer: seq<Message>)
    ensures
      Apply(Around(Legacy(Pending(service, g, reply), map[], map[]), session, g, Table(map[], {}), toServer, []),
            Withdraw(service.id, true))
      == Around(Legacy(None, map[service.id := g], Settle(map[], {reply}, Failed(Cancelled))), session, g,
                Table(map[], {}), toServer + [UnregisterService(service.id)], [])
  {
    hide Settle;
    var s := Legacy(Pending(service, g, reply), map[], map[]);
    assert s.active - {service.id} == map[];
    assert Unregister(s, service.id) == Legacy(None, map[service.id := g], Settle(map[], {reply}, Failed(Cancelled)));
  }

  lemma {:induction false} ServerHears(n: Net, m: Message, rest: seq<Message>, listener: Listener)
    requires n.up && n.toServer == [m] + rest && n.table == Table(map[], {}) && n.maxServices == 1 && !Correlated(n)
    ensures m.RegisterService? && listener.BindRefused? ==>
      Apply(n, ServerReceives(listener, [])) ==
        n.(toServer := rest, toClient := n.toClient + [Envelope(Error(ERROR_BIND, []), m.serviceId)])
    ensures m.RegisterService? && listener.Listening? ==>
      Apply(n, ServerReceives(listener, [])) ==
        n.(table := Table(map[m.serviceId := m.name], {m.name}), toServer := rest,
           toClient := n.toClient + [Envelope(RegisterAck(m.serviceId, listener.bind), m.serviceId)])
    ensures m.UnregisterService? ==> Apply(n, ServerReceives(listener, [])) == n.(toServer := rest)
  {
    assert n.toServer[1..] == rest;
  }

  lemma {:induction false} TakesError(service: Service, reply: Reply, session: SessionId, g: nat, table: Table,
                                      abandoned: map<ServiceId, nat>, answers: Answers, about: ServiceId,
                                        rest: seq<Envelope>)
    ensures
      Apply(Around(Legacy(Pending(service, g, reply), abandoned, answers), session, g, table, [],
                   [Envelope(Error(ERROR_BIND, []), about)] + rest),
            ClientReceives({}, true))
      == Around(Legacy(None, abandoned, Settle(answers, {reply}, Failed(Authorization))), session, g, table, [], rest)
  {
    hide Settle;
    assert ([Envelope(Error(ERROR_BIND, []), about)] + rest)[1..] == rest;
  }

  /** A withdrawn registration and a second one, both still to be heard of by the server. */
  function TwoAsked(first: Service, r1: Reply, second: Service, r2: Reply, session: SessionId, g: nat): Net {
    Around(Legacy(Pending(second, g, r2), map[first.id := g] - {second.id}, Settle(map[], {r1}, Failed(Cancelled))),
           session, g, Table(map[], {}), [Registration(first), UnregisterService(first.id), Registration(second)], [])
  }

  function Asking(first: Service, r1: Reply, second: Service, r2: Reply): seq<Protocol.Step> {
    [Protocol.Activate, Submit(first, r1, {}, Written(0)), Withdraw(first.id, true), Submit(second, r2, {}, Written(0))]
  }

  lemma {:induction false} FourSteps(n: Net, a: Protocol.Step, b: Protocol.Step, c: Protocol.Step, d: Protocol.Step)
    ensures Run(n, [a, b, c, d]) == Apply(Apply(Apply(Apply(n, a), b), c), d)
    ensures Run(n, [a, b, c]) == Apply(Apply(Apply(n, a), b), c)
    ensures Run(n, [a, b]) == Apply(Apply(n, a), b)
  {
    hide Apply;
    assert [a, b, c, d] == [a] + [b, c, d] && [b, c, d] == [b] + [c, d] && [c, d] == [c] + [d] && [d] == [d] + [];
    assert [a, b, c] == [a] + [b, c] && [b, c] == [b] + [c] && [c] == [c] + [];
    assert [a, b] == [a] + [b] && [b] == [b] + [];
    RunFirst(n, a, Apply(n, a), [b, c, d]);
    RunFirst(n, a, Apply(n, a), [b, c]);
    RunFirst(n, a, Apply(n, a), [b]);
    var m := Apply(n, a);
    RunFirst(m, b, Apply(m, b), [c, d]);
    RunFirst(m, b, Apply(m, b), [c]);
    RunFirst(m, b, Apply(m, b), []);
    var l := Apply(m, b);
    RunFirst(l, c, Apply(l, c), [d]);
    RunFirst(l, c, Apply(l, c), []);
    RunFirst(Apply(l, c), d, Apply(Apply(l, c), d), []);
  }

  lemma {:induction false} BothAsked(first: Service, r1: Reply, second: Service, r2: Reply, session: SessionId, g: nat)
    ensures Run(Begun(New([]), LegacySerial, session, g, 1, 1), Asking(first, r1, second, r2)) ==
      TwoAsked(first, r1, second, r2, session, g)
  {
    hide Settle, Apply, Run, Begun;
    var reg1, unreg, reg2 := Registration(first), UnregisterService(first.id), Registration(second);
    var told := Settle(map[], {r1}, Failed(Cancelled));
    var none: map<ServiceId, nat> := map[];
    ActivatesIdle(LegacySerial, session, g);
    Submits(first, r1, session, g, none, map[], []);
    assert [] + [reg1] == [reg1] && none - {first.id} == none;
    Withdraws(first, r1, session, g, [reg1]);
    assert [reg1] + [unreg] == [reg1, unreg];
    Submits(second, r2, session, g, map[first.id := g], told, [reg1, unreg]);
    assert [reg1, unreg] + [reg2] == [reg1, unreg, reg2];
    FourSteps(Begun(New([]), LegacySerial, session, g, 1, 1), Protocol.Activate, Submit(first, r1, {}, Written(0)),
              Withdraw(first.id, true), Submit(second, r2, {}, Written(0)));
  }

  function Ruling(bind: EffectiveBind): seq<Protocol.Step> {
    [ServerReceives(BindRefused, []), ServerReceives(BindRefused, []), ServerReceives(Listening(bind), [])]
  }

  lemma {:induction false} BothRuled(n: Net, first: Service, second: Service, bind: EffectiveBind)
    requires n.up && n.table == Table(map[], {}) && n.maxServices == 1 && !Correlated(n) && n.toClient == []
    requires n.toServer == [Registration(first), UnregisterService(first.id), Registration(second)]
    ensures
      Run(n, Ruling(bind)) ==
        n.(table := Table(map[second.id := second.name], {second.name}), toServer := [],
           toClient := [Envelope(Error(ERROR_BIND, []), first.id), Envelope(RegisterAck(second.id, bind), second.id)])
  {
    hide Apply, Run;
    var reg1, unreg, reg2 := Registration(first), UnregisterService(first.id), Registration(second);
    var e1, e2 := Envelope(Error(ERROR_BIND, []), first.id), Envelope(RegisterAck(second.id, bind), second.id);
    assert n.toServer == [reg1] + [unreg, reg2] && [] + [e1] == [e1];
    ServerHears(n, reg1, [unreg, reg2], BindRefused);
    var n1 := n.(toServer := [unreg, reg2], toClient := [e1]);
    assert [unreg, reg2] == [unreg] + [reg2];
    ServerHears(n1, unreg, [reg2], BindRefused);
    var n2 := n1.(toServer := [reg2]);
    assert [reg2] == [reg2] + [] && [e1] + [e2] == [e1, e2];
    ServerHears(n2, reg2, [], Listening(bind));
    FourSteps(n, ServerReceives(BindRefused, []), ServerReceives(BindRefused, []), ServerReceives(Listening(bind), []),
              Protocol.Stop);
  }

  lemma {:induction false} RunsOn(n: Net, a: seq<Protocol.Step>, b: seq<Protocol.Step>)
    ensures Run(n, a + b) == Run(Run(n, a), b)
    decreases |a|
  {
    hide Apply;
    if a == [] {
      assert a + b == b;
    } else {
      assert (a + b)[1..] == a[1..] + b;
      RunsOn(Apply(n, a[0]), a[1..], b);
    }
  }

  /**
   The first of two registrations is withdrawn and then refused, the second is granted. The refusal, which says not
   what it answers, is taken by the second: the server has the second Service and its caller is told it was refused.
   The two may even be for the same Service, so the label of the reply would not tell them apart.
   */
  lemma {:induction false} RefusalReachesTheWrongCaller(first: Service, r1: Reply, second: Service, r2: Reply,
                                                        bind: EffectiveBind, session: SessionId, g: nat)
    requires r1 != r2
    ensures
      var start := Begun(New([]), LegacySerial, session, g, 1, 1);
      var before := Run(start, Asking(first, r1, second, r2) + Ruling(bind));
      var after := Apply(before, ClientReceives({}, true));
      && before.toClient != [] && before.toClient[0].about == first.id && Owed(before) == 2
      && Settles(before) == Pending(second, g, r2)
      && after.up && second.id in after.table.services
      && Sent(after.client.store.answers, r2) == [Failed(Authorization)]
      && Sent(after.client.store.answers, r1) == [Failed(Cancelled)]
  {
    var start := Begun(New([]), LegacySerial, session, g, 1, 1);
    var asked := TwoAsked(first, r1, second, r2, session, g);
    hide Settle, Apply, Run, Begun;
    BothAsked(first, r1, second, r2, session, g);
    BothRuled(asked, first, second, bind);
    RunsOn(start, Asking(first, r1, second, r2), Ruling(bind));
    var before := Run(asked, Ruling(bind));
    var e1, e2 := before.toClient[0], before.toClient[1];
    assert before.toClient == [e1] + [e2];
    TakesError(second, r2, session, g, before.table, map[first.id := g] - {second.id},
               Settle(map[], {r1}, Failed(Cancelled)), first.id, [e2]);
    ToldApart(r1, r2);
    TwoOwed(before, e1, e2);
  }

  lemma {:induction false} ToldApart(r1: Reply, r2: Reply)
    requires r1 != r2
    ensures
      var a := Settle(Settle(map[], {r1}, Failed(Cancelled)), {r2}, Failed(Authorization));
      Sent(a, r2) == [Failed(Authorization)] && Sent(a, r1) == [Failed(Cancelled)]
  {
  }

  lemma {:induction false} TwoOwed(n: Net, e1: Envelope, e2: Envelope)
    requires n.toServer == [] && n.toClient == [e1, e2] && IsReply(e1.message) && IsReply(e2.message)
    ensures Owed(n) == 2
  {
    assert n.toClient[1..] == [e2] && [e2][1..] == [];
    assert Replies([e2]) == 1;
  }

  // ----- lost writes

  function Granting(service: Service, reply: Reply, bind: EffectiveBind): seq<Protocol.Step> {
    [Protocol.Activate, Submit(service, reply, {}, Written(0)), ServerReceives(Listening(bind), []),
     ClientReceives({reply}, false)]
  }

  function Stranding(service: Service, reply: Reply, session: SessionId, g: nat): Net {
    Around(Legacy(None, map[], Settle(map[], {reply}, Dropped)), session, g,
           Table(map[service.id := service.name], {service.name}), [], [])
  }

  lemma {:induction false} LosesCleanup(service: Service, reply: Reply, bind: EffectiveBind, session: SessionId, g: nat)
    ensures
      Apply(Around(Legacy(Pending(service, g, reply), map[], map[]), session, g,
                   Table(map[service.id := service.name], {service.name}), [],
                   [Envelope(RegisterAck(service.id, bind), service.id)]), ClientReceives({reply}, false))
      == Stranding(service, reply, session, g)
  {
    hide Settle;
    var s := Legacy(Pending(service, g, reply), map[], map[]);
    assert TakeTransaction(s, service.id) == (s.(pending := None), s.pending);
    assert [Envelope(RegisterAck(service.id, bind), service.id)][1..] == [];
  }

  lemma {:induction false} Strands(service: Service, reply: Reply, bind: EffectiveBind, session: SessionId, g: nat)
    ensures Run(Begun(New([]), LegacySerial, session, g, 1, 1), Granting(service, reply, bind)) ==
      Stranding(service, reply, session, g)
  {
    hide Settle, Apply, Run, Begun;
    var none: map<ServiceId, nat> := map[];
    ActivatesIdle(LegacySerial, session, g);
    Submits(service, reply, session, g, none, map[], []);
    assert [] + [Registration(service)] == [Registration(service)] && none - {service.id} == none;
    var n := Around(Legacy(Pending(service, g, reply), map[], map[]), session, g, Table(map[], {}),
      [Registration(service)], []);
    assert [Registration(service)] == [Registration(service)] + [];
    var e := Envelope(RegisterAck(service.id, bind), service.id);
    assert [] + [e] == [e];
    ServerHears(n, Registration(service), [], Listening(bind));
    LosesCleanup(service, reply, bind, session, g);
    FourSteps(Begun(New([]), LegacySerial, session, g, 1, 1), Protocol.Activate, Submit(service, reply, {}, Written(0)),
              ServerReceives(Listening(bind), []), ClientReceives({reply}, false));
  }

  lemma {:induction false} Heals(service: Service, reply: Reply, session: SessionId, g: nat)
    ensures
      var n := Run(Stranding(service, reply, session, g),
        [Withdraw(service.id, true), ServerReceives(BindRefused, [])]);
      Quiet(n) && n.table.services == map[]
  {
    hide Settle;
    var n := Stranding(service, reply, session, g);
    var s := n.client.store;
    assert s.active - {service.id} == map[] && [] + [UnregisterService(service.id)] == [UnregisterService(service.id)];
    assert Unregister(s, service.id) == s;
    var n1 := n.(toServer := [UnregisterService(service.id)]);
    assert Apply(n, Withdraw(service.id, true)) == n1;
    assert n1.toServer[1..] == [] && map[service.id := service.name] - {service.id} == map[];
    var n2 := Apply(n1, ServerReceives(BindRefused, []));
    hide Run, Apply;
    FourSteps(n, Withdraw(service.id, true), ServerReceives(BindRefused, []), Protocol.Stop, Protocol.Stop);
  }

  /**
   One lost clean-up strands a Service: the caller had gone when the acknowledgement came, the unregistration never
   arrived, and with nothing in flight the server alone has the Service. A later withdrawal that arrives removes it.
   */
  lemma {:induction false} LostCleanupStrandsAService(service: Service, reply: Reply, bind: EffectiveBind,
                                                      session: SessionId, g: nat)
    ensures
      var start := Begun(New([]), LegacySerial, session, g, 1, 1);
      var n := Run(start, Granting(service, reply, bind));
      && Quiet(n) && n.stage.Ready? && service.id in n.table.services && n.client.store.active == map[]
      && Stranded(Notes(BLANK, start, Granting(service, reply, bind)).fates, service.id)
      && var healed := Run(n, [Withdraw(service.id, true), ServerReceives(BindRefused, [])]);
         Quiet(healed) && healed.table.services == map[]
  {
    hide Apply, Run, Begun, Notes, Stranded, Settle;
    Strands(service, reply, bind, session, g);
    Heals(service, reply, session, g);
    QuiescentPartiesAgree(New([]), LegacySerial, session, g, 1, 1, Granting(service, reply, bind));
    hide ById;
  }

  lemma {:induction false} LosesRequest(service: Service, reply: Reply, session: SessionId, g: nat, flights: nat)
    ensures
      var n := Apply(Idle(CorrelatedBounded(flights), session, g), Submit(service, reply, {}, WriteTimedOut(false)));
      && Quiet(n) && n.stage.Ready? && n.table.services == map[] && n.client.store.active == map[]
      && n.client.store.abandoned == map[service.id := g]
  {
    hide Settle;
    var s := Idle(CorrelatedBounded(flights), session, g).client.store;
    assert !Refuses(s, service);
    var none: map<ServiceId, nat> := map[];
    assert none - {service.id} == none && none[service.id := g] == map[service.id := g];
    var t := s.(inFlight := map[service.id := Txn(service, g, Some(reply), None)]);
    assert AnswerBegin(s, service, g, reply) == (t, true);
    assert Abandon(t, service.id).abandoned == map[service.id := g];
  }

  /** A lost request leaves only a tombstone: both sides are without the Service, and nothing is in flight. */
  lemma {:induction false} LostRequestLeavesATombstone(service: Service, reply: Reply, session: SessionId, g: nat,
                                                       flights: nat)
    ensures
      var n := Run(Begun(New([]), CorrelatedBounded(flights), session, g, 1, 1),
                   [Protocol.Activate, Submit(service, reply, {}, WriteTimedOut(false))]);
      && Quiet(n) && n.stage.Ready? && n.table.services == map[] && n.client.store.active == map[]
      && n.client.store.abandoned == map[service.id := g]
  {
    hide Run, Begun, Apply, Settle;
    ActivatesIdle(CorrelatedBounded(flights), session, g);
    LosesRequest(service, reply, session, g, flights);
    FourSteps(Begun(New([]), CorrelatedBounded(flights), session, g, 1, 1), Protocol.Activate,
              Submit(service, reply, {}, WriteTimedOut(false)), Protocol.Stop, Protocol.Stop);
  }
}
