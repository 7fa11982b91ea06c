/** The desired list told by the client's history, and the views kept equal to it while a Session is ready. */
module ClientHistory {
  import opened Wire
  import opened ServiceStore
  import opened ServiceStoreProofs
  import opened ReadyLoop
  import opened ClientLife
  import opened ClientLifeProofs

  /** The Services whose entry into the list was not followed by the departure of their id, in order of entry. */
  function Survivors(log: seq<Event>): seq<Service> {
    if log == [] then []
    else
      match log[0]
      case Entered(service) => (if Left(service.id) in log[1..] then [] else [service]) + Survivors(log[1..])
      case Left(_) => Survivors(log[1..])
  }

  /** Every entry of `binds` is for `session`, and they name the Services of the list one by one. */
  ghost predicate BindsMatch(binds: seq<BindEntry>, session: SessionId, services: seq<Service>) {
    && |binds| == |services|
    && forall i :: 0 <= i < |binds| ==> binds[i].session == session && binds[i].service == services[i].id
  }

  /** The active map, the bind table and the services counter all show the desired list. */
  ghost predicate Tabled(c: Client, session: SessionId) {
    && c.store.active == ById(c.store.desired)
    && BindsMatch(c.binds, session, c.store.desired)
    && c.services == |c.store.desired|
  }

  ghost predicate ViewsMatch(l: Life) {
    match l.phase
    case Disconnected => l.client.binds == [] && l.client.services == 0
    case Registering(session, _, done) =>
      && done <= |l.client.store.desired|
      && BindsMatch(l.client.binds, session, l.client.store.desired[..done])
    case Ready(session, _) => Tabled(l.client, session)
  }

  // ----- the history

  lemma {:induction false} SurvivorsEnter(log: seq<Event>, service: Service)
    ensures Survivors(log + [Entered(service)]) == Survivors(log) + [service]
  {
    if log == [] {
      assert log + [Entered(service)] == [Entered(service)];
    } else {
      assert (log + [Entered(service)])[1..] == log[1..] + [Entered(service)];
      SurvivorsEnter(log[1..], service);
    }
  }

  lemma {:induction false} SurvivorsLeave(log: seq<Event>, id: ServiceId)
    ensures Survivors(log + [Left(id)]) == Without(Survivors(log), id)
  {
    if log == [] {
      assert log + [Left(id)] == [Left(id)];
    } else {
      var rest := log[1..];
      var more := log + [Left(id)];
      assert more[0] == log[0] && more[1..] == rest + [Left(id)];
      SurvivorsLeave(rest, id);
      if log[0].Entered? {
        var x := log[0].service;
        assert Left(x.id) in more[1..] <==> Left(x.id) in rest || x.id == id;
        if Left(x.id) in rest {
          assert Survivors(log) == Survivors(rest) && Survivors(more) == Survivors(more[1..]);
        } else {
          assert Survivors(log)[0] == x && Survivors(log)[1..] == Survivors(rest);
        }
      }
    }
  }

  lemma {:induction false} SurvivorsStart(services: seq<Service>)
    ensures Survivors(Start(services, 0).log) == services
  {
    var log := Start(services, 0).log;
    if services == [] {
    } else {
      SurvivorsStart(services[1..]);
      assert log[1..] == Start(services[1..], 0).log;
    }
  }

  // ----- filtering keeps the views together

  lemma {:induction false} BindsMatchFiltered(binds: seq<BindEntry>, session: SessionId, services: seq<Service>,
                                              id: ServiceId)
    requires BindsMatch(binds, session, services)
    ensures BindsMatch(BindsWithout(binds, id), session, Without(services, id))
  {
    if binds == [] {
    } else {
      BindsMatchFiltered(binds[1..], session, services[1..], id);
    }
  }

  lemma {:induction false} WithoutAppend(a: seq<Service>, x: Service, id: ServiceId)
    ensures Without(a + [x], id) == Without(a, id) + (if x.id == id then [] else [x])
  {
    if a == [] {
      assert a + [x] == [x];
    } else {
      assert (a + [x])[1..] == a[1..] + [x];
      WithoutAppend(a[1..], x, id);
    }
  }

  lemma {:induction false} ByIdGrows(services: seq<Service>, x: Service)
    ensures ById(services + [x]) == ById(services)[x.id := x]
  {
    assert (services + [x])[..|services|] == services;
  }

  lemma {:induction false} ByIdFiltered(services: seq<Service>, id: ServiceId)
    ensures ById(Without(services, id)) == ById(services) - {id}
  {
    if services == [] {
      assert ById(services) - {id} == ById(services);
    } else {
      var n := |services| - 1;
      var front, last := services[..n], services[n];
      assert services == front + [last];
      WithoutAppend(front, last, id);
      ByIdFiltered(front, id);
      ByIdGrows(front, last);
      ByIdGrows(Without(front, id), last);
      UpdateMinus(ById(front), last.id, last, id);
      assert Without(front, id) + [] == Without(front, id);
    }
  }

  lemma {:induction false} UpdateMinus<K, V>(m: map<K, V>, k: K, v: V, x: K)
    ensures m[k := v] - {x} == if k == x then m - {x} else (m - {x})[k := v]
  {
  }

  lemma {:induction false} ByIdSize(services: seq<Service>)
    requires DesiredDistinct(services)
    ensures |ById(services)| == |services|
  {
    if services == [] {
    } else {
      var n := |services| - 1;
      ByIdSize(services[..n]);
      forall k | k in ById(services[..n]) ensures k != services[n].id { ByIdKey(services[..n], k); }
    }
  }

  lemma {:induction false} ByIdKey(services: seq<Service>, k: ServiceId)
    ensures k in ById(services) <==> exists i :: 0 <= i < |services| && services[i].id == k
  {
    if services == [] {
    } else {
      ByIdKey(services[..|services| - 1], k);
    }
  }

  lemma {:induction false} WithoutAbsent(services: seq<Service>, id: ServiceId)
    requires id !in ById(services)
    ensures Without(services, id) == services
  {
    ByIdKey(services, id);
    if services == [] {
    } else {
      ByIdKey(services[1..], id);
      WithoutAbsent(services[1..], id);
    }
  }

  // ----- what each handler does to the list and to the views

  lemma {:induction false} RegisterLeavesViews(c: Client, g: nat, limit: nat, service: Service, reply: Reply,
                                               closed: set<Reply>, write: Write)
    ensures
      var d := OnRegister(c, g, limit, service, reply, closed, write).client;
      d == c.(store := d.store) && d.store.desired == c.store.desired && d.store.active == c.store.active
  {
    BeginLeavesViews(c.store, g, service, reply);
    hide AnswerBegin, ArmDeadline, Settle, Tombstone, Unacknowledged, Registration;
    var s := AnswerBegin(c.store, service, g, reply).0;
    ArmForm(s, service.id, if write.Written? then write.deadline else 0);
  }

  lemma {:induction false} BeginLeavesViews(s: Store, g: nat, service: Service, reply: Reply)
    ensures
      var t := AnswerBegin(s, service, g, reply).0;
      t.desired == s.desired && t.active == s.active
  {
    hide Begin, Settle, Refuses, Ceiling;
    BeginForm(s, service, g, reply);
  }

  lemma {:induction false} AckViews(s: Store, id: ServiceId, g: nat, closed: set<Reply>, bind: EffectiveBind)
    ensures
      var u := AnswerAck(s, id, g, closed, bind).0;
      match TakeAck(s, id, g, closed).1
      case Commit(service, _) => u.desired == s.desired + [service] && u.active == s.active[service.id := service]
      case _ => u.desired == s.desired && u.active == s.active
  {
    hide Settle;
  }

  lemma {:induction false} MessageList(l: Life, m: Message, closed: set<Reply>, written: bool)
    requires l.phase.Ready?
    ensures
      var d := OnMessage(l.client, l.phase.session, l.phase.generation, m, closed, written).client.store.desired;
      match Commits(l, m, closed)
      case Some(service) => d == l.client.store.desired + [service]
      case None => d == l.client.store.desired
  {
    hide AnswerAck, TakeAck, TakeTransaction, Settle, RegistrationErrorCode;
    if m.RegisterAck? {
      AckViews(l.client.store, m.serviceId, l.phase.generation, closed, m.effectiveBind);
    } else if m.RegisterReject? {
      RejectViews(l.client.store, m.serviceId, l.phase.generation, RegistrationErrorCode(m.code));
    }
  }

  lemma {:induction false} RejectViews(s: Store, id: ServiceId, g: nat, e: TunnelError)
    ensures AnswerReject(s, id, g, e).0.desired == s.desired && AnswerReject(s, id, g, e).0.active == s.active
  {
    hide Settle;
  }

  lemma {:induction false} AckDistinct(s: Store, id: ServiceId, g: nat, closed: set<Reply>, bind: EffectiveBind)
    requires Inv(s)
    ensures DesiredDistinct(AnswerAck(s, id, g, closed, bind).0.desired)
  {
    hide AnswerAck, DesiredDistinct, Clash;
    AckKeeps(s, id, g, closed, bind);
  }

  lemma {:induction false} AckTabled(c: Client, session: SessionId, g: nat, id: ServiceId, bind: EffectiveBind,
                                     closed: set<Reply>, written: bool)
    requires Inv(c.store) && Tabled(c, session)
    ensures Tabled(OnAck(c, session, g, id, bind, closed, written).client, session)
  {
    hide Inv, AnswerAck, TakeAck, ById, DesiredDistinct;
    AckDistinct(c.store, id, g, closed, bind);
    AckViews(c.store, id, g, closed, bind);
    AckDisposed(c.store, id, g, closed, bind);
    var (s, d) := AnswerAck(c.store, id, g, closed, bind);
    if d.Commit? {
      ByIdGrows(c.store.desired, d.service);
      ByIdSize(s.desired);
    }
  }

  lemma {:induction false} AckDisposed(s: Store, id: ServiceId, g: nat, closed: set<Reply>, bind: EffectiveBind)
    ensures AnswerAck(s, id, g, closed, bind).1 == TakeAck(s, id, g, closed).1
  {
    hide TakeAck, Settle;
  }

  lemma {:induction false} MessageTabled(c: Client, session: SessionId, g: nat, m: Message, closed: set<Reply>,
                                         written: bool)
    requires Inv(c.store) && Tabled(c, session)
    ensures Tabled(OnMessage(c, session, g, m, closed, written).client, session)
  {
    hide Inv, OnAck, AnswerReject, TakeTransaction, Settle, RegistrationErrorCode, ById;
    match m
    case RegisterAck(id, bind) => AckTabled(c, session, g, id, bind, closed, written);
    case RegisterReject(id, code, _) => RejectViews(c.store, id, g, RegistrationErrorCode(code));
    case _ =>
  }

  lemma {:induction false} UnregisterTabled(c: Client, session: SessionId, id: ServiceId, written: bool)
    requires Inv(c.store) && Tabled(c, session)
    ensures Tabled(OnUnregister(c, id, written).client, session)
  {
    UnregisterKeeps(c.store, id);
    UnregisterForm(c.store, id);
    var s := Unregister(c.store, id);
    assert DesiredDistinct(s.desired);
    hide Inv, Unregister, ById, Without, BindsWithout, DesiredDistinct, BindsMatch, Tombstone;
    ByIdFiltered(c.store.desired, id);
    if id in c.store.active {
      BindsMatchFiltered(c.binds, session, c.store.desired, id);
      ByIdSize(s.desired);
    } else {
      WithoutAbsent(c.store.desired, id);
      assert c.store.active - {id} == c.store.active;
    }
  }

  // ----- every run

  ghost predicate Faithful(l: Life) {
    l.client.store.desired == Survivors(l.log) && ViewsMatch(l)
  }

  lemma {:induction false} ConcludeFaithful(l: Life, h: Handled)
    requires l.phase.Ready? && Tabled(h.client, l.phase.session)
    requires h.client.store.desired == Survivors(l.log)
    ensures Faithful(Conclude(l, h))
  {
    hide Survivors, Settle, Held, ById;
  }

  lemma {:induction false} StepFaithful(l: Life, step: Step)
    requires StoreSound(l) && Faithful(l)
    ensures Faithful(Apply(l, step))
  {
    hide Survivors, Inv, Conserves, Conclude, OnRegister, OnUnregister, OnMessage, Commits, Unregister, Settle, Held,
      ById, Tabled, BindsMatch, ExpireOverdue, Without;
    var c := l.client;
    match step {
      case Submit(service, reply, closed, write) =>
        if l.phase.Ready? {
          var h := OnRegister(c, l.phase.generation, l.limit, service, reply, closed, write);
          RegisterLeavesViews(c, l.phase.generation, l.limit, service, reply, closed, write);
          SameTables(c, h.client, l.phase.session);
          ConcludeFaithful(l.(submitted := l.submitted + {reply}), h);
        }
      case Withdraw(id, written) =>
        SurvivorsLeave(l.log, id);
        UnregisterForm(c.store, id);
        if l.phase.Ready? {
          UnregisterTabled(c, l.phase.session, id, written);
          UnregisterStore(c, id, written);
          ConcludeFaithful(l.(log := l.log + [Left(id)]), OnUnregister(c, id, written));
        }
      case Establish(session, _) => NoBinds(c.binds, session, c.store.desired);
      case InitialAck(bind) =>
        if l.phase.Registering? && l.phase.done < |c.store.desired| {
          MoreBinds(c.binds, l.phase.session, c.store.desired, l.phase.done, bind);
        }
      case Activate => AllBinds(l);
      case Incoming(m, closed, written) =>
        if l.phase.Ready? {
          var committed := Commits(l, m, closed);
          MessageList(l, m, closed, written);
          if committed.Some? { SurvivorsEnter(l.log, committed.value); }
          MessageTabled(c, l.phase.session, l.phase.generation, m, closed, written);
          ConcludeFaithful(l.(log := if committed.Some? then l.log + [Entered(committed.value)] else l.log),
                           OnMessage(c, l.phase.session, l.phase.generation, m, closed, written));
        }
      case Sweep(now) =>
        if l.phase.Ready? {
          ExpiryRemovesTheOverdue(c.store, now);
          SameTables(c, OnDeadline(c, now).client, l.phase.session);
          ConcludeFaithful(l, OnDeadline(c, now));
        }
      case _ =>
    }
  }

  lemma {:induction false} SameTables(c: Client, d: Client, session: SessionId)
    requires Tabled(c, session)
    requires d == c.(store := d.store) && d.store.desired == c.store.desired && d.store.active == c.store.active
    ensures Tabled(d, session)
  {
    hide ById;
  }

  lemma {:induction false} NoBinds(binds: seq<BindEntry>, session: SessionId, services: seq<Service>)
    ensures binds == [] ==> BindsMatch(binds, session, services[..0])
  {
  }

  lemma {:induction false} MoreBinds(binds: seq<BindEntry>, session: SessionId, services: seq<Service>, done: nat,
                                     bind: EffectiveBind)
    requires done < |services| && BindsMatch(binds, session, services[..done])
    ensures BindsMatch(binds + [BindEntry(session, services[done].id, bind)], session, services[..done + 1])
  {
  }

  lemma {:induction false} AllBinds(l: Life)
    requires ViewsMatch(l)
    ensures l.phase.Registering? && l.phase.done == |l.client.store.desired| ==>
      Tabled(OnActivate(l).client, l.phase.session)
  {
    hide ById;
    var desired := l.client.store.desired;
    assert desired[..|desired|] == desired;
  }

  /**
   Through any number of Sessions the desired list is what the history says it is, and
   while a Session is ready the active map, the bind table and the services counter show it.
   */
  lemma {:induction false} EveryRunFaithful(l: Life, steps: seq<Step>)
    requires StoreSound(l) && Faithful(l)
    ensures Faithful(Run(l, steps))
    decreases |steps|
  {
    hide StoreSound, Faithful, Apply;
    if steps == [] {
    } else {
      StepSound(l, steps[0]);
      StepFaithful(l, steps[0]);
      EveryRunFaithful(Apply(l, steps[0]), steps[1..]);
    }
  }

  /** All of it, from a configuration that validation admits. */
  lemma {:induction false} ClientLifeHolds(services: seq<Service>, limit: nat, steps: seq<Step>)
    requires DesiredDistinct(services) && |services| <= limit
    ensures
      var l := Run(Start(services, limit), steps);
      StoreSound(l) && Current(l) && Faithful(l) && Load(l.client.store) <= limit
  {
    var start := Start(services, limit);
    SurvivorsStart(services);
    assert StoreSound(start) && Current(start) && Faithful(start) && Load(start.client.store) <= limit;
    hide *;
    EveryRunSound(start, steps);
    EveryRunCurrent(start, steps);
    EveryRunFaithful(start, steps);
    EveryRunWithinLimit(start, steps);
  }
}
