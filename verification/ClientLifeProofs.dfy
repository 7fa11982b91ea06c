/** What holds of the client after every run, however its Sessions came and went. */
module ClientLifeProofs {
  import opened Wire
  import opened ServiceStore
  import opened Tally
  import opened ServiceStoreProofs
  import opened ReadyLoop
  import opened ClientLife

  // ----- the store keeps its shape and its callers through every handler

  lemma {:induction false} RegisterKeepsStore(c: Client, g: nat, limit: nat, service: Service, reply: Reply,
                                              closed: set<Reply>, write: Write)
    requires Inv(c.store)
    ensures Inv(OnRegister(c, g, limit, service, reply, closed, write).client.store)
  {
    hide Inv, AnswerBegin, Answer, ArmDeadline, FailLegacyWrite, Abandon, Unacknowledged, Registration;
    AnswerKeeps(c.store, reply, Failed(ResourceExhausted));
    AnswerKeeps(c.store, reply, Dropped);
    BeginKeeps(c.store, service, g, reply);
    var s := AnswerBegin(c.store, service, g, reply).0;
    match write
    case Written(deadline) => ArmKeeps(s, service.id, deadline);
    case WriteFailed =>
    case WriteTimedOut(_) =>
      FailLegacyWriteKeeps(s);
      AbandonKeeps(s, service.id);
  }

  lemma {:induction false} AnswerKeeps(s: Store, reply: Reply, o: Outcome)
    requires Inv(s)
    ensures Inv(Answer(s, Some(reply), o))
  {
    hide Inv, Settle;
    SameShape(s, Answer(s, Some(reply), o));
  }

  lemma {:induction false} AnswerConserves(s: Store, submitted: set<Reply>, reply: Reply, o: Outcome)
    requires Conserves(s, submitted) && reply !in submitted
    ensures Conserves(Answer(s, Some(reply), o), submitted + {reply})
  {
    hide Conserves, Settle;
    RefusalConserves(s, submitted, Answer(s, Some(reply), o), reply, o);
  }

  lemma {:induction false} RegisterConservesStore(c: Client, submitted: set<Reply>, g: nat, limit: nat,
                                                  service: Service, reply: Reply, closed: set<Reply>, write: Write)
    requires Inv(c.store) && Conserves(c.store, submitted) && reply !in submitted
    ensures Conserves(OnRegister(c, g, limit, service, reply, closed, write).client.store, submitted + {reply})
  {
    hide Inv, Conserves, AnswerBegin, Answer, ArmDeadline, FailLegacyWrite, Abandon, Unacknowledged, Registration;
    var after := submitted + {reply};
    AnswerConserves(c.store, submitted, reply, Failed(ResourceExhausted));
    AnswerConserves(c.store, submitted, reply, Dropped);
    BeginConserves(c.store, submitted, service, g, reply);
    var s := AnswerBegin(c.store, service, g, reply).0;
    match write
    case Written(deadline) => ArmConserves(s, after, service.id, deadline);
    case WriteFailed =>
    case WriteTimedOut(_) =>
      FailLegacyWriteConserves(s, after);
      AbandonConserves(s, after, service.id);
  }

  lemma {:induction false} MessageKeepsStore(c: Client, session: SessionId, g: nat, m: Message, closed: set<Reply>,
                                             written: bool)
    requires Inv(c.store)
    ensures Inv(OnMessage(c, session, g, m, closed, written).client.store)
  {
    hide Inv, AnswerAck, AnswerError, AnswerReject, RegistrationErrorCode;
    match m
    case RegisterAck(id, bind) => AckKeeps(c.store, id, g, closed, bind);
    case Error(code, _) => ErrorKeeps(c.store, RegistrationErrorCode(code));
    case RegisterReject(id, code, _) => RejectKeeps(c.store, id, g, RegistrationErrorCode(code));
    case _ =>
  }

  lemma {:induction false} MessageConservesStore(c: Client, submitted: set<Reply>, session: SessionId, g: nat,
                                                 m: Message, closed: set<Reply>, written: bool)
    requires Conserves(c.store, submitted)
    ensures Conserves(OnMessage(c, session, g, m, closed, written).client.store, submitted)
  {
    hide Conserves, AnswerAck, AnswerError, AnswerReject, RegistrationErrorCode;
    match m
    case RegisterAck(id, bind) => AckConserves(c.store, submitted, id, g, closed, bind);
    case Error(code, _) => ErrorConserves(c.store, submitted, RegistrationErrorCode(code));
    case RegisterReject(id, code, _) => RejectConserves(c.store, submitted, id, g, RegistrationErrorCode(code));
    case _ =>
  }

  ghost predicate StoreSound(l: Life) {
    Inv(l.client.store) && Conserves(l.client.store, l.submitted)
  }

  lemma {:induction false} FinishSound(s: Store, submitted: set<Reply>, e: TunnelError)
    requires Inv(s) && Conserves(s, submitted)
    ensures Inv(ClearActive(FinishPending(s, e))) && Conserves(ClearActive(FinishPending(s, e)), submitted)
  {
    FinishKeeps(s, e);
    FinishConserves(s, submitted, e);
    hide FinishPending;
    SameShape(FinishPending(s, e), ClearActive(FinishPending(s, e)));
  }

  lemma {:induction false} ConcludeSound(l: Life, h: Handled)
    requires Inv(h.client.store) && Conserves(h.client.store, l.submitted)
    ensures StoreSound(Conclude(l, h))
  {
    hide Inv, Conserves, ClearActive, FinishPending;
    FinishSound(h.client.store, l.submitted, Timeout);
    FinishSound(h.client.store, l.submitted, TunnelError.Disconnected);
  }

  lemma {:induction false} StepSound(l: Life, step: Step)
    requires StoreSound(l)
    ensures StoreSound(Apply(l, step))
  {
    hide Inv, Conserves, Conclude, OnRegister, OnUnregister, OnMessage, OnDeadline, Commits, Answer, Unregister,
      ClearActive, SetMode, FinishPending, ActivateInitial;
    var c := l.client;
    var s := c.store;
    match step {
      case Submit(service, reply, closed, write) =>
        if reply !in l.submitted {
          if l.phase.Disconnected? {
            AnswerKeeps(s, reply, Failed(TunnelError.Disconnected));
            AnswerConserves(s, l.submitted, reply, Failed(TunnelError.Disconnected));
          } else if l.phase.Ready? {
            RegisterKeepsStore(c, l.phase.generation, l.limit, service, reply, closed, write);
            RegisterConservesStore(c, l.submitted, l.phase.generation, l.limit, service, reply, closed, write);
            ConcludeSound(l.(submitted := l.submitted + {reply}),
              OnRegister(c, l.phase.generation, l.limit, service, reply, closed, write));
          }
        }
      case Withdraw(id, written) =>
        UnregisterKeeps(s, id);
        UnregisterConserves(s, l.submitted, id);
        assert OnUnregister(c, id, written).client.store == Unregister(s, id) by { UnregisterStore(c, id, written); }
        ConcludeSound(l.(log := l.log + [Left(id)]), OnUnregister(c, id, written));
      case Establish(session, mode) =>
        SetModeKeeps(s, mode);
        SetModeConserves(s, l.submitted, mode);
        ClearActiveSound(SetMode(s, mode), l.submitted);
      case InitialAck(_) =>
      case Activate => ActivateSound(s, l.submitted);
      case Incoming(m, closed, written) =>
        if l.phase.Ready? {
          MessageKeepsStore(c, l.phase.session, l.phase.generation, m, closed, written);
          MessageConservesStore(c, l.submitted, l.phase.session, l.phase.generation, m, closed, written);
          var h := OnMessage(c, l.phase.session, l.phase.generation, m, closed, written);
          var committed := Commits(l, m, closed);
          ConcludeSound(l.(log := if committed.Some? then l.log + [Entered(committed.value)] else l.log), h);
        }
      case Sweep(now) =>
        ExpireKeeps(s, now);
        ExpireConserves(s, l.submitted, now);
        assert OnDeadline(c, now).client.store == ExpireOverdue(s, now).0 by { DeadlineStore(c, now); }
        ConcludeSound(l, OnDeadline(c, now));
      case EndEarly =>
      case EndClean(cancelled) =>
        FinishSound(s, l.submitted, Cancelled);
        FinishSound(s, l.submitted, TunnelError.Disconnected);
    }
  }

  lemma {:induction false} UnregisterStore(c: Client, id: ServiceId, written: bool)
    ensures OnUnregister(c, id, written).client.store == Unregister(c.store, id)
  {
    hide Unregister;
  }

  lemma {:induction false} DeadlineStore(c: Client, now: nat)
    ensures OnDeadline(c, now).client == c.(store := ExpireOverdue(c.store, now).0)
  {
    hide ExpireOverdue;
  }

  lemma {:induction false} ClearActiveSound(s: Store, submitted: set<Reply>)
    requires Inv(s) && Conserves(s, submitted)
    ensures Inv(ClearActive(s)) && Conserves(ClearActive(s), submitted)
  {
    SameShape(s, ClearActive(s));
    hide Inv;
  }

  lemma {:induction false} ActivateSound(s: Store, submitted: set<Reply>)
    requires Inv(s) && Conserves(s, submitted)
    ensures Inv(ActivateInitial(s)) && Conserves(ActivateInitial(s), submitted)
  {
    SameShape(s, ActivateInitial(s));
    hide Inv, ById;
  }

  /** In every run the store keeps its shape and every registration call is held once or settled once. */
  lemma {:induction false} EveryRunSound(l: Life, steps: seq<Step>)
    requires StoreSound(l)
    ensures StoreSound(Run(l, steps))
    decreases |steps|
  {
    hide StoreSound, Apply;
    if steps == [] {
    } else {
      StepSound(l, steps[0]);
      EveryRunSound(Apply(l, steps[0]), steps[1..]);
    }
  }

  // ----- only the current Session's transactions can be acted on

  /** Inside a Session everything outstanding belongs to it. */
  ghost predicate Current(l: Life) {
    l.phase.Disconnected? || (l.phase.generation == l.lastGeneration && OfGeneration(l.client.store, l.lastGeneration))
  }

  lemma {:induction false} BeginCurrent(s: Store, g: nat, service: Service, reply: Reply)
    requires OfGeneration(s, g)
    ensures OfGeneration(AnswerBegin(s, service, g, reply).0, g)
  {
    hide Begin, Settle, Refuses, Ceiling;
    BeginForm(s, service, g, reply);
  }

  lemma {:induction false} AbandonCurrent(s: Store, g: nat, id: ServiceId)
    requires OfGeneration(s, g)
    ensures OfGeneration(Abandon(s, id), g)
  {
    hide Settle;
  }

  lemma {:induction false} ArmCurrent(s: Store, g: nat, id: ServiceId, deadline: nat)
    requires OfGeneration(s, g)
    ensures OfGeneration(ArmDeadline(s, id, deadline), g)
    ensures OfGeneration(FailLegacyWrite(s), g)
  {
    hide Settle, ArmDeadline;
    ArmForm(s, id, deadline);
  }

  lemma {:induction false} AnswerCurrent(s: Store, g: nat, reply: Reply, o: Outcome)
    requires OfGeneration(s, g)
    ensures OfGeneration(Answer(s, Some(reply), o), g)
  {
    hide Settle;
  }

  lemma {:induction false} RegisterCurrent(c: Client, g: nat, limit: nat, service: Service, reply: Reply,
                                           closed: set<Reply>, write: Write)
    requires OfGeneration(c.store, g)
    ensures OfGeneration(OnRegister(c, g, limit, service, reply, closed, write).client.store, g)
  {
    hide OfGeneration, AnswerBegin, Answer, ArmDeadline, FailLegacyWrite, Abandon, Unacknowledged, Registration;
    AnswerCurrent(c.store, g, reply, Failed(ResourceExhausted));
    AnswerCurrent(c.store, g, reply, Dropped);
    BeginCurrent(c.store, g, service, reply);
    var s := AnswerBegin(c.store, service, g, reply).0;
    AbandonCurrent(s, g, service.id);
    ArmCurrent(s, g, service.id, if write.Written? then write.deadline else 0);
  }

  lemma {:induction false} TakeCurrent(s: Store, g: nat, id: ServiceId)
    requires OfGeneration(s, g)
    ensures OfGeneration(TakeTransaction(s, id).0, g)
    ensures TakeTransaction(s, id).1.Some? ==> TakeTransaction(s, id).1.value.generation == g
  {
  }

  lemma {:induction false} AckCurrent(s: Store, g: nat, id: ServiceId, closed: set<Reply>, bind: EffectiveBind)
    requires OfGeneration(s, g)
    ensures OfGeneration(AnswerAck(s, id, g, closed, bind).0, g)
  {
    hide AnswerAck, TakeTransaction, Settle;
    TakeCurrent(s, g, id);
    AckForm(s, id, g, closed, bind);
  }

  lemma {:induction false} RejectCurrent(s: Store, g: nat, id: ServiceId, e: TunnelError)
    requires OfGeneration(s, g)
    ensures OfGeneration(AnswerReject(s, id, g, e).0, g)
  {
    hide AnswerReject, TakeTransaction, Settle;
    TakeCurrent(s, g, id);
    RejectForm(s, id, g, e);
  }

  lemma {:induction false} ErrorCurrent(s: Store, g: nat, e: TunnelError)
    requires OfGeneration(s, g)
    ensures OfGeneration(AnswerError(s, e).0, g)
  {
    hide Settle;
  }

  lemma {:induction false} MessageCurrent(c: Client, session: SessionId, g: nat, m: Message, closed: set<Reply>,
                                          written: bool)
    requires OfGeneration(c.store, g)
    ensures OfGeneration(OnMessage(c, session, g, m, closed, written).client.store, g)
  {
    hide AnswerAck, AnswerReject, AnswerError, OfGeneration, RegistrationErrorCode;
    match m
    case RegisterAck(id, bind) => AckCurrent(c.store, g, id, closed, bind);
    case RegisterReject(id, code, _) => RejectCurrent(c.store, g, id, RegistrationErrorCode(code));
    case Error(code, _) => ErrorCurrent(c.store, g, RegistrationErrorCode(code));
    case _ =>
  }

  lemma {:induction false} TombstoneCurrent(abandoned: map<ServiceId, nat>, g: nat, id: ServiceId)
    requires forall k :: k in abandoned ==> abandoned[k] == g
    ensures forall k :: k in Tombstone(abandoned, id, g) ==> Tombstone(abandoned, id, g)[k] == g
  {
  }

  lemma {:induction false} UnregisterCurrent(s: Store, g: nat, id: ServiceId)
    requires OfGeneration(s, g)
    ensures OfGeneration(Unregister(s, id), g)
  {
    hide Unregister, Without, Tombstone, PendingFor;
    UnregisterForm(s, id);
    TombstoneCurrent(s.abandoned, g, id);
  }

  lemma {:induction false} ExpireCurrent(s: Store, g: nat, now: nat)
    requires OfGeneration(s, g)
    ensures OfGeneration(ExpireOverdue(s, now).0, g)
  {
    hide ExpireOverdue;
    ExpiryRemovesTheOverdue(s, now);
  }

  lemma {:induction false} SwitchCurrent(s: Store, g: nat, mode: Mode)
    ensures OfGeneration(ClearActive(SetMode(s, mode)), g)
    ensures OfGeneration(s, g) ==> OfGeneration(ActivateInitial(s), g)
  {
    hide Settle, Held, ById;
  }

  lemma {:induction false} ConcludeCurrent(l: Life, h: Handled)
    requires l.phase.Ready? && l.phase.generation == l.lastGeneration && OfGeneration(h.client.store, l.lastGeneration)
    ensures Current(Conclude(l, h))
  {
    hide OfGeneration, FinishPending;
  }

  lemma {:induction false} StepCurrent(l: Life, step: Step)
    requires Current(l)
    ensures Current(Apply(l, step))
  {
    hide OfGeneration, Conclude, OnRegister, OnUnregister, OnMessage, OnDeadline, Commits, Answer, Unregister,
      ClearActive, SetMode, FinishPending, ActivateInitial;
    var c := l.client;
    if l.phase.Disconnected? {
      if step.Establish? { SwitchCurrent(c.store, l.lastGeneration + 1, step.mode); }
    } else {
      var g := l.lastGeneration;
      match step
      case Submit(service, reply, closed, write) =>
        if l.phase.Ready? {
          RegisterCurrent(c, g, l.limit, service, reply, closed, write);
          ConcludeCurrent(l.(submitted := l.submitted + {reply}),
            OnRegister(c, g, l.limit, service, reply, closed, write));
        }
      case Withdraw(id, written) =>
        if l.phase.Ready? {
          UnregisterCurrent(c.store, g, id);
          UnregisterStore(c, id, written);
          ConcludeCurrent(l.(log := l.log + [Left(id)]), OnUnregister(c, id, written));
        }
      case Activate => SwitchCurrent(c.store, g, c.store.mode);
      case Incoming(m, closed, written) =>
        if l.phase.Ready? {
          MessageCurrent(c, l.phase.session, g, m, closed, written);
          var committed := Commits(l, m, closed);
          ConcludeCurrent(l.(log := if committed.Some? then l.log + [Entered(committed.value)] else l.log),
                          OnMessage(c, l.phase.session, g, m, closed, written));
        }
      case Sweep(now) =>
        if l.phase.Ready? {
          ExpireCurrent(c.store, g, now);
          DeadlineStore(c, now);
          ConcludeCurrent(l, OnDeadline(c, now));
        }
      case _ =>
    }
  }

  lemma {:induction false} EveryRunCurrent(l: Life, steps: seq<Step>)
    requires Current(l)
    ensures Current(Run(l, steps))
    decreases |steps|
  {
    hide Current, Apply;
    if steps == [] {
    } else {
      StepCurrent(l, steps[0]);
      EveryRunCurrent(Apply(l, steps[0]), steps[1..]);
    }
  }

  /** A reject is stale exactly for a tombstone, whatever its generation. */
  lemma {:induction false} StaleReject(s: Store, g: nat, id: ServiceId)
    requires Inv(s) && OfGeneration(s, g)
    ensures TakeReject(s, id, g).1.RejectStale? <==> id in s.abandoned
    ensures TakeReject(s, id, g).1.RejectStale? ==> TakeReject(s, id, g).1.reply == None
  {
    hide Clash, Ceiling;
  }

  /**
   Whatever happened before, in the ready loop no acknowledgement is stale, a reject is stale exactly for a tombstone,
   and what commits was begun by this very Session.
   */
  lemma {:induction false} StaleExactlyForTombstones(services: seq<Service>, limit: nat, steps: seq<Step>,
                                                     id: ServiceId, closed: set<Reply>)
    requires DesiredDistinct(services)
    ensures
      var l := Run(Start(services, limit), steps);
      l.phase.Ready? ==>
        var s := l.client.store;
        var ack := TakeAck(s, id, l.phase.generation, closed).1;
        var reject := TakeReject(s, id, l.phase.generation).1;
        && !ack.AckStale?
        && (reject.RejectStale? <==> id in s.abandoned) && (reject.RejectStale? ==> reject.reply == None)
        && (ack.Commit? ==>
              TakeTransaction(s, id).1.Some? && TakeTransaction(s, id).1.value.generation == l.lastGeneration)
  {
    var start := Start(services, limit);
    StartSound(services, limit);
    hide Run, Start, StoreSound, Current;
    EveryRunSound(start, steps);
    EveryRunCurrent(start, steps);
    var l := Run(start, steps);
    if l.phase.Ready? {
      CurrentStore(l);
      hide TakeTransaction, TakeReject, TakeAck, Inv, OfGeneration;
      TakeCurrent(l.client.store, l.lastGeneration, id);
      StaleReject(l.client.store, l.lastGeneration, id);
      StaleAck(l.client.store, l.lastGeneration, id, closed);
    }
  }

  lemma {:induction false} StartSound(services: seq<Service>, limit: nat)
    requires DesiredDistinct(services)
    ensures StoreSound(Start(services, limit)) && Current(Start(services, limit))
  {
    hide Settle, DesiredDistinct;
  }

  lemma {:induction false} CurrentStore(l: Life)
    requires StoreSound(l) && Current(l) && l.phase.Ready?
    ensures Inv(l.client.store) && OfGeneration(l.client.store, l.lastGeneration)
      && l.phase.generation == l.lastGeneration
  {
    hide Inv, OfGeneration, Conserves;
  }

  lemma {:induction false} StaleAck(s: Store, g: nat, id: ServiceId, closed: set<Reply>)
    requires OfGeneration(s, g)
    ensures !TakeAck(s, id, g, closed).1.AckStale?
    ensures TakeAck(s, id, g, closed).1.Commit? ==> TakeTransaction(s, id).1.Some?
  {
    hide TakeTransaction, Settle;
    TakeCurrent(s, g, id);
  }

  /** The correlated Session in which `service` was registered and its write ran out of budget. */
  function TimedOut(service: Service, reply: Reply, session: SessionId, flights: nat): Life {
    Run(Start([], 1), [Establish(session, CorrelatedBounded(flights)), Activate,
                       Submit(service, reply, {}, WriteTimedOut(true))])
  }

  /** A late reject of that very Session is judged stale: the outcome is reachable, and it is benign. */
  lemma {:induction false} LateRejectIsStale(service: Service, reply: Reply, session: SessionId, flights: nat)
    ensures
      var l := TimedOut(service, reply, session, flights);
      && l.phase.Ready? && service.id in l.client.store.abandoned
      && TakeReject(l.client.store, service.id, l.phase.generation).1 == RejectStale(None)
  {
    hide Settle;
    var steps := [Establish(session, CorrelatedBounded(flights)), Activate,
      Submit(service, reply, {}, WriteTimedOut(true))];
    var l0 := Start([], 1);
    var l1 := Apply(l0, steps[0]);
    assert l1.client.store == Store([], map[], None, map[], map[], CorrelatedBounded(flights), l1.client.store.answers);
    var l2 := Apply(l1, steps[1]);
    assert l2.client.store == l1.client.store && l2.phase == Ready(session, 1);
    SubmitTimesOut(l2, service, reply, session, flights);
    var l3 := Apply(l2, steps[2]);
    hide Apply, Start;
    assert steps[1..] == [steps[1], steps[2]] && steps[1..][1..] == [steps[2]] && [steps[2]][1..] == [];
    assert Run(l2, [steps[2]]) == l3;
    assert Run(l1, [steps[1], steps[2]]) == l3;
  }

  lemma {:induction false} SubmitTimesOut(l: Life, service: Service, reply: Reply, session: SessionId, flights: nat)
    requires l.phase == Ready(session, 1) && l.limit == 1 && reply !in l.submitted
    requires l.client.store == Store([], map[], None, map[], map[], CorrelatedBounded(flights), l.client.store.answers)
    ensures
      var m := Apply(l, Submit(service, reply, {}, WriteTimedOut(true)));
      && m.phase == l.phase && m.client.store.abandoned == map[service.id := 1]
      && m.client.store.pending == None && m.client.store.inFlight == map[]
  {
    hide Settle;
    var s := l.client.store;
    assert !Refuses(s, service);
    var none: map<ServiceId, nat> := map[];
    assert none - {service.id} == none && none[service.id := 1] == map[service.id := 1];
    var t := s.(inFlight := map[service.id := Txn(service, 1, Some(reply), None)]);
    assert AnswerBegin(s, service, 1, reply) == (t, true);
    assert t.inFlight - {service.id} == map[];
  }

  // ----- the per-Session Service limit over the client's whole life

  function Load(s: Store): nat {
    |s.desired| + Unacknowledged(s)
  }

  lemma {:induction false} BeginLoad(s: Store, service: Service, g: nat, reply: Reply)
    ensures Load(AnswerBegin(s, service, g, reply).0) <= Load(s) + 1
  {
    hide Begin, Settle, Refuses, Ceiling;
    BeginForm(s, service, g, reply);
  }

  lemma {:induction false} ShrinkingLoad(s: Store, id: ServiceId, deadline: nat)
    ensures Load(Abandon(s, id)) <= Load(s)
    ensures Load(ArmDeadline(s, id, deadline)) == Load(s)
    ensures Load(FailLegacyWrite(s)) == Load(s)
  {
    hide Settle, Tombstone, ArmDeadline;
    ShrinkSize(s.inFlight, id);
    ArmForm(s, id, deadline);
    assert |ArmDeadline(s, id, deadline).inFlight.Keys| == |s.inFlight.Keys|;
  }

  lemma {:induction false} RegisterLoad(c: Client, g: nat, limit: nat, service: Service, reply: Reply,
                                        closed: set<Reply>, write: Write)
    requires Load(c.store) <= limit
    ensures Load(OnRegister(c, g, limit, service, reply, closed, write).client.store) <= limit
  {
    BeginLoad(c.store, service, g, reply);
    hide AnswerBegin, ArmDeadline, FailLegacyWrite, Abandon, Registration, Settle;
    ShrinkingLoad(AnswerBegin(c.store, service, g, reply).0, service.id, if write.Written? then write.deadline else 0);
  }

  lemma {:induction false} TakeLoad(s: Store, id: ServiceId)
    ensures
      var (t, taken) := TakeTransaction(s, id);
      Load(t) == if taken.Some? then Load(s) - 1 else Load(s)
  {
    if s.pending.None? && id in s.inFlight { ShrinkSize(s.inFlight, id); }
  }

  lemma {:induction false} AckLoad(s: Store, id: ServiceId, g: nat, closed: set<Reply>, bind: EffectiveBind)
    ensures Load(AnswerAck(s, id, g, closed, bind).0) <= Load(s)
  {
    hide AnswerAck, TakeTransaction;
    TakeLoad(s, id);
    AckForm(s, id, g, closed, bind);
    var (t, taken) := TakeTransaction(s, id);
    var u := AnswerAck(s, id, g, closed, bind).0;
    if taken.Some? {
      assert u.pending == t.pending && u.inFlight == t.inFlight && |u.desired| <= |t.desired| + 1;
    }
  }

  lemma {:induction false} MessageLoad(c: Client, session: SessionId, g: nat, m: Message, closed: set<Reply>,
                                       written: bool)
    ensures Load(OnMessage(c, session, g, m, closed, written).client.store) <= Load(c.store)
  {
    hide AnswerAck, AnswerReject, TakeTransaction, Settle, RegistrationErrorCode;
    match m
    case RegisterAck(id, bind) => AckLoad(c.store, id, g, closed, bind);
    case RegisterReject(id, code, _) =>
      TakeLoad(c.store, id);
      RejectForm(c.store, id, g, RegistrationErrorCode(code));
    case _ =>
  }

  lemma {:induction false} WithoutShorter(services: seq<Service>, id: ServiceId)
    ensures |Without(services, id)| <= |services|
  {
    if services == [] {
    } else {
      WithoutShorter(services[1..], id);
    }
  }

  lemma {:induction false} UnregisterLoad(s: Store, id: ServiceId)
    ensures Load(Unregister(s, id)) <= Load(s)
  {
    hide Unregister, Without, Tombstone;
    UnregisterForm(s, id);
    WithoutShorter(s.desired, id);
    ShrinkSize(s.inFlight, id);
  }

  lemma {:induction false} ExpireLoad(s: Store, now: nat)
    ensures Load(ExpireOverdue(s, now).0) <= Load(s)
  {
    hide Settle, OverdueTxns;
    assert OverdueTxns(s, now).Keys <= s.inFlight.Keys by { LateKeys(s, now); }
    ShrinkSizes(s.inFlight, OverdueTxns(s, now).Keys);
  }

  lemma {:induction false} LateKeys(s: Store, now: nat)
    ensures OverdueTxns(s, now).Keys <= s.inFlight.Keys
  {
  }

  lemma {:induction false} ClearLoad(s: Store, e: TunnelError, mode: Mode)
    ensures Load(ClearActive(FinishPending(s, e))) <= Load(s)
    ensures Load(ClearActive(SetMode(s, mode))) <= Load(s)
    ensures Load(ActivateInitial(s)) == Load(s)
  {
    hide Settle, Held, ById;
  }

  lemma {:induction false} ConcludeLoad(l: Life, h: Handled)
    ensures Load(Conclude(l, h).client.store) <= Load(h.client.store) && Conclude(l, h).limit == l.limit
  {
    hide FinishPending, Load, ClearActive;
    ClearLoad(h.client.store, Timeout, LegacySerial);
    ClearLoad(h.client.store, TunnelError.Disconnected, LegacySerial);
  }

  lemma {:induction false} StepLoad(l: Life, step: Step)
    requires Load(l.client.store) <= l.limit
    ensures Load(Apply(l, step).client.store) <= Apply(l, step).limit == l.limit
  {
    hide Load, Conclude, OnRegister, OnUnregister, OnMessage, OnDeadline, Commits, Answer, Unregister, ClearActive,
      SetMode, FinishPending, ActivateInitial;
    var c := l.client;
    match step
    case Submit(service, reply, closed, write) =>
      if l.phase.Ready? {
        RegisterLoad(c, l.phase.generation, l.limit, service, reply, closed, write);
        ConcludeLoad(l.(submitted := l.submitted + {reply}),
          OnRegister(c, l.phase.generation, l.limit, service, reply, closed, write));
      } else {
        assert Load(Answer(c.store, Some(reply), Failed(TunnelError.Disconnected))) == Load(c.store) by {
          AnswerLoad(c.store, reply, Failed(TunnelError.Disconnected));
        }
      }
    case Withdraw(id, written) =>
      UnregisterLoad(c.store, id);
      UnregisterStore(c, id, written);
      ConcludeLoad(l.(log := l.log + [Left(id)]), OnUnregister(c, id, written));
    case Establish(_, mode) => ClearLoad(c.store, Cancelled, mode);
    case Activate => ClearLoad(c.store, Cancelled, c.store.mode);
    case Incoming(m, closed, written) =>
      if l.phase.Ready? {
        MessageLoad(c, l.phase.session, l.phase.generation, m, closed, written);
        var committed := Commits(l, m, closed);
        ConcludeLoad(l.(log := if committed.Some? then l.log + [Entered(committed.value)] else l.log),
                     OnMessage(c, l.phase.session, l.phase.generation, m, closed, written));
      }
    case Sweep(now) =>
      ExpireLoad(c.store, now);
      DeadlineStore(c, now);
      ConcludeLoad(l, OnDeadline(c, now));
    case EndClean(_) =>
      ClearLoad(c.store, Cancelled, c.store.mode);
      ClearLoad(c.store, TunnelError.Disconnected, c.store.mode);
    case _ =>
  }

  lemma {:induction false} AnswerLoad(s: Store, reply: Reply, o: Outcome)
    ensures Load(Answer(s, Some(reply), o)) == Load(s)
  {
    hide Settle;
  }

  /** Desired and unacknowledged Services together never exceed the limit, through any number of Sessions. */
  lemma {:induction false} EveryRunWithinLimit(l: Life, steps: seq<Step>)
    requires Load(l.client.store) <= l.limit
    ensures Load(Run(l, steps).client.store) <= l.limit
    decreases |steps|
  {
    hide Load, Apply;
    if steps == [] {
    } else {
      StepLoad(l, steps[0]);
      EveryRunWithinLimit(Apply(l, steps[0]), steps[1..]);
    }
  }
}
