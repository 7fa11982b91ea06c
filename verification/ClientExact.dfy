/** Nothing in the client's life waits for ever, shows what was not acknowledged, or fails to get ready. */
module ClientExact {
  import opened Wire
  import opened ServiceStore
  import opened ServiceStoreProofs
  import opened ReadyLoop
  import opened ClientLife
  import opened ClientLifeProofs
  import opened ClientHistory
  import opened StoreExact

  // ----- every outstanding registration has a deadline

  /** What is outstanding in `t` was outstanding in `s`, just so. */
  ghost predicate Fewer(s: Store, t: Store) {
    forall k :: TxnOf(t, k) == None || TxnOf(t, k) == TxnOf(s, k)
  }

  lemma {:induction false} TakenFewer(s: Store, id: ServiceId)
    requires Inv(s)
    ensures Fewer(s, TakeTransaction(s, id).0)
  {
    hide Clash, Ceiling;
  }

  lemma {:induction false} AnsweredFewer(s: Store, t: Store, u: Store)
    requires Fewer(s, t) && u.pending == t.pending && u.inFlight == t.inFlight
    ensures Fewer(s, u)
  {
  }

  lemma {:induction false} MessageFewer(c: Client, session: SessionId, g: nat, m: Message, closed: set<Reply>,
                                        written: bool)
    requires Inv(c.store)
    ensures Fewer(c.store, OnMessage(c, session, g, m, closed, written).client.store)
  {
    hide AnswerAck, AnswerReject, TakeTransaction, Settle, RegistrationErrorCode, Inv, Fewer;
    var s, t := c.store, OnMessage(c, session, g, m, closed, written).client.store;
    SelfFewer(s);
    match m
    case RegisterAck(id, bind) =>
      TakenFewer(s, id);
      AckForm(s, id, g, closed, bind);
      TakeForm(s, id);
      AnsweredFewer(s, TakeTransaction(s, id).0, t);
    case RegisterReject(id, code, _) =>
      if s.mode.CorrelatedBounded? {
        TakenFewer(s, id);
        RejectForm(s, id, g, RegistrationErrorCode(code));
        TakeForm(s, id);
        AnsweredFewer(s, TakeTransaction(s, id).0, t);
      }
    case Error(code, _) =>
      SlotFewer(s);
      AnsweredFewer(s, s.(pending := None), t);
    case _ =>
  }

  lemma {:induction false} SelfFewer(s: Store)
    ensures Fewer(s, s)
  {
  }

  lemma {:induction false} SlotFewer(s: Store)
    requires Inv(s)
    ensures Fewer(s, s.(pending := None))
  {
    hide Clash, Ceiling;
  }

  lemma {:induction false} UnregisterFewer(s: Store, id: ServiceId)
    requires Inv(s)
    ensures Fewer(s, Unregister(s, id))
  {
    UnregisterForm(s, id);
    assert s.mode.LegacySerial? ==> s.inFlight == map[];
    assert s.mode.CorrelatedBounded? ==> s.pending == None;
    hide Unregister, Inv, Without, Tombstone;
  }

  lemma {:induction false} ExpireFewer(s: Store, now: nat)
    requires Inv(s)
    ensures Fewer(s, ExpireOverdue(s, now).0)
  {
    ExpiryRemovesTheOverdue(s, now);
    assert s.mode.LegacySerial? ==> s.inFlight == map[];
    assert s.mode.CorrelatedBounded? ==> s.pending == None;
    hide ExpireOverdue, Inv;
  }

  lemma {:induction false} FewerArmed(s: Store, t: Store)
    requires Fewer(s, t) && Armed(s)
    ensures Armed(t)
  {
    hide TxnOf;
    forall k | TxnOf(t, k).Some? ensures TxnOf(t, k).value.deadline.Some? {
      assert TxnOf(t, k) == TxnOf(s, k);
    }
  }

  lemma {:induction false} RegisterArmed(c: Client, g: nat, limit: nat, service: Service, reply: Reply,
                                         closed: set<Reply>, write: Write)
    requires Inv(c.store) && Armed(c.store)
    ensures
      var h := OnRegister(c, g, limit, service, reply, closed, write);
      h.verdict.Continue? ==> Armed(h.client.store)
  {
    hide OnRegister, Claimed, HasRoom, Inv, TxnOf;
    var h := OnRegister(c, g, limit, service, reply, closed, write);
    var outstanding := |c.store.inFlight| + if c.store.pending.Some? then 1 else 0;
    if |c.store.desired| + outstanding >= limit || reply in closed {
      RegisterTurnsAway(c, g, limit, service, reply, closed, write);
      SameArmed(c.store, h.client.store);
    } else if Claimed(c.store, service.id, service.name) || !HasRoom(c.store) {
      RefusedFewer(c, g, limit, service, reply, closed, write);
      FewerArmed(c.store, h.client.store);
    } else if h.verdict.Continue? {
      forall k | TxnOf(h.client.store, k).Some? ensures TxnOf(h.client.store, k).value.deadline.Some? {
        RegisterAsks(c, g, limit, service, reply, closed, write, k);
      }
    }
  }

  lemma {:induction false} SameArmed(s: Store, t: Store)
    requires Armed(s) && SameTxns(s, t)
    ensures Armed(t)
  {
    forall k | TxnOf(t, k).Some? ensures TxnOf(t, k).value.deadline.Some? { assert TxnOf(s, k) == TxnOf(t, k); }
  }

  lemma {:induction false} RefusedFewer(c: Client, g: nat, limit: nat, service: Service, reply: Reply,
                                        closed: set<Reply>, write: Write)
    requires Inv(c.store) && reply !in closed && (Claimed(c.store, service.id, service.name) || !HasRoom(c.store))
    requires |c.store.desired| + |c.store.inFlight| + (if c.store.pending.Some? then 1 else 0) < limit
    ensures Fewer(c.store, OnRegister(c, g, limit, service, reply, closed, write).client.store)
  {
    BeginDecides(c.store, service, g, reply);
    var (t, refused) := Begin(c.store, service, g, reply);
    hide Begin, Claimed, HasRoom, Inv, Settle, Fewer;
    forall k ensures TxnOf(t, k) == TxnOf(c.store, k) { BeginOpens(c.store, service, g, reply, k); }
    assert Fewer(c.store, t) by { SameFewer(c.store, t); }
    AnsweredFewer(c.store, t, Answer(t, Some(reply), Failed(refused.value)));
  }

  lemma {:induction false} SameFewer(s: Store, t: Store)
    requires forall k :: TxnOf(t, k) == TxnOf(s, k)
    ensures Fewer(s, t)
  {
  }

  ghost predicate ArmedLife(l: Life) {
    !l.phase.Disconnected? ==> Armed(l.client.store)
  }

  lemma {:induction false} ConcludeArmed(l: Life, h: Handled)
    requires h.verdict.Continue? ==> Armed(h.client.store)
    ensures ArmedLife(Conclude(l, h))
  {
    hide Armed, FinishPending;
  }

  lemma {:induction false} SubmitArmed(l: Life, service: Service, reply: Reply, closed: set<Reply>, write: Write)
    requires Inv(l.client.store) && ArmedLife(l)
    ensures ArmedLife(OnSubmit(l, service, reply, closed, write))
  {
    hide Armed, Inv, Conclude, OnRegister, Answer;
    if l.phase.Ready? {
      var h := OnRegister(l.client, l.phase.generation, l.limit, service, reply, closed, write);
      RegisterArmed(l.client, l.phase.generation, l.limit, service, reply, closed, write);
      ConcludeArmed(l.(submitted := l.submitted + {reply}), h);
    }
  }

  lemma {:induction false} WithdrawArmed(l: Life, id: ServiceId, written: bool)
    requires Inv(l.client.store) && ArmedLife(l)
    ensures ArmedLife(OnWithdraw(l, id, written))
  {
    hide Armed, Inv, Conclude, OnUnregister, Unregister;
    if l.phase.Ready? {
      UnregisterStore(l.client, id, written);
      UnregisterFewer(l.client.store, id);
      FewerArmed(l.client.store, Unregister(l.client.store, id));
      ConcludeArmed(l.(log := l.log + [Left(id)]), OnUnregister(l.client, id, written));
    }
  }

  lemma {:induction false} IncomingArmed(l: Life, m: Message, closed: set<Reply>, written: bool)
    requires Inv(l.client.store) && ArmedLife(l)
    ensures ArmedLife(OnIncoming(l, m, closed, written))
  {
    hide Armed, Inv, Conclude, OnMessage, Commits;
    if l.phase.Ready? {
      var h := OnMessage(l.client, l.phase.session, l.phase.generation, m, closed, written);
      MessageFewer(l.client, l.phase.session, l.phase.generation, m, closed, written);
      FewerArmed(l.client.store, h.client.store);
      var committed := Commits(l, m, closed);
      ConcludeArmed(l.(log := if committed.Some? then l.log + [Entered(committed.value)] else l.log), h);
    }
  }

  lemma {:induction false} SweepArmed(l: Life, now: nat)
    requires Inv(l.client.store) && ArmedLife(l) && l.phase.Ready?
    ensures ArmedLife(Conclude(l, OnDeadline(l.client, now)))
  {
    hide Armed, Inv, Conclude, OnDeadline, ExpireOverdue;
    DeadlineStore(l.client, now);
    ExpireFewer(l.client.store, now);
    FewerArmed(l.client.store, ExpireOverdue(l.client.store, now).0);
    ConcludeArmed(l, OnDeadline(l.client, now));
  }

  lemma {:induction false} EstablishArmed(l: Life, session: SessionId, mode: Mode)
    requires ArmedLife(l)
    ensures ArmedLife(OnEstablish(l, session, mode))
  {
    NoneArmed(ClearActive(SetMode(l.client.store, mode)), l.client.store, mode);
    hide Armed, SetMode, ClearActive;
  }

  lemma {:induction false} ActivateArmed(l: Life)
    requires ArmedLife(l)
    ensures ArmedLife(OnActivate(l))
  {
    SameActive(l.client.store, ActivateInitial(l.client.store));
    hide Armed, ById;
  }

  lemma {:induction false} StepArmed(l: Life, step: Step)
    requires StoreSound(l) && ArmedLife(l)
    ensures ArmedLife(Apply(l, step))
  {
    assert Inv(l.client.store);
    hide StoreSound, Armed, Inv, Conclude, OnSubmit, OnWithdraw, OnIncoming, OnDeadline, OnEstablish, OnActivate,
      FinishPending;
    match step
    case Submit(service, reply, closed, write) => SubmitArmed(l, service, reply, closed, write);
    case Withdraw(id, written) => WithdrawArmed(l, id, written);
    case Establish(session, mode) => EstablishArmed(l, session, mode);
    case Activate => ActivateArmed(l);
    case Incoming(m, closed, written) => IncomingArmed(l, m, closed, written);
    case Sweep(now) => if l.phase.Ready? { SweepArmed(l, now); }
    case _ =>
  }

  lemma {:induction false} NoneArmed(t: Store, s: Store, mode: Mode)
    requires t == ClearActive(SetMode(s, mode))
    ensures Armed(t)
  {
    hide Settle, Held;
    assert t.pending == None && t.inFlight == map[];
  }

  lemma {:induction false} SameActive(s: Store, t: Store)
    requires t.pending == s.pending && t.inFlight == s.inFlight
    ensures Armed(s) ==> Armed(t)
  {
    forall k ensures TxnOf(t, k) == TxnOf(s, k) {}
    hide TxnOf;
  }

  lemma {:induction false} EveryRunArmed(l: Life, steps: seq<Step>)
    requires StoreSound(l) && ArmedLife(l)
    ensures ArmedLife(Run(l, steps)) && StoreSound(Run(l, steps))
    decreases |steps|
  {
    hide StoreSound, ArmedLife, Apply;
    if steps == [] {
    } else {
      StepSound(l, steps[0]);
      StepArmed(l, steps[0]);
      EveryRunArmed(Apply(l, steps[0]), steps[1..]);
    }
  }

  /**
   Nobody waits for ever. In every run, while a Session is ready every caller still waiting has a deadline, and the
   sweep at or after it takes the caller's transaction out and sends that caller one Timeout and nothing else.
   */
  lemma {:induction false} NobodyWaitsForEver(services: seq<Service>, limit: nat, steps: seq<Step>, id: ServiceId,
                                              r: Reply, now: nat)
    requires DesiredDistinct(services)
    ensures
      var l := Run(Start(services, limit), steps);
      var txn := TxnOf(l.client.store, id);
      l.phase.Ready? && txn.Some? && txn.value.reply == Some(r) ==>
        && txn.value.deadline.Some?
        && (txn.value.deadline.value <= now ==>
              var swept := Apply(l, Sweep(now)).client.store;
              TxnOf(swept, id) == None && Sent(swept.answers, r) == [Failed(Timeout)])
  {
    var start := Start(services, limit);
    StartSound(services, limit);
    assert ArmedLife(start);
    hide Start, StoreSound, ArmedLife;
    EveryRunArmed(start, steps);
    ArmedSwept(Run(start, steps), id, r, now);
  }

  lemma {:induction false} ArmedSwept(l: Life, id: ServiceId, r: Reply, now: nat)
    requires StoreSound(l) && ArmedLife(l)
    ensures
      var txn := TxnOf(l.client.store, id);
      l.phase.Ready? && txn.Some? && txn.value.reply == Some(r) ==>
        && txn.value.deadline.Some?
        && (txn.value.deadline.value <= now ==>
              var swept := Apply(l, Sweep(now)).client.store;
              TxnOf(swept, id) == None && Sent(swept.answers, r) == [Failed(Timeout)])
  {
    var s := l.client.store;
    hide Inv, Conserves, ExpireOverdue, TxnOf;
    if l.phase.Ready? && TxnOf(s, id).Some? && TxnOf(s, id).value.reply == Some(r) {
      if TxnOf(s, id).value.deadline.Some? && TxnOf(s, id).value.deadline.value <= now {
        SweptOut(s, l.submitted, id, r, now);
        SweepConcludes(l, id, r, now);
      }
    }
  }

  /** What the sweep took out stays out, and who it answered is answered, even if the Session then ends. */
  lemma {:induction false} SweepConcludes(l: Life, id: ServiceId, r: Reply, now: nat)
    requires l.phase.Ready?
    requires
      var swept := ExpireOverdue(l.client.store, now).0;
      TxnOf(swept, id) == None && !Holds(swept, r)
    ensures
      var swept, t := ExpireOverdue(l.client.store, now).0, Apply(l, Sweep(now)).client.store;
      TxnOf(t, id) == None && Sent(t.answers, r) == Sent(swept.answers, r)
  {
    var swept := ExpireOverdue(l.client.store, now).0;
    FinishTells(swept, Timeout, r);
    FinishTells(swept, TunnelError.Disconnected, r);
    NothingLeft(swept, Timeout, id);
    NothingLeft(swept, TunnelError.Disconnected, id);
    DeadlineStore(l.client, now);
    hide ExpireOverdue, FinishPending, TxnOf, Holds;
    assert TxnOf(ClearActive(FinishPending(swept, Timeout)), id) == None;
  }

  lemma {:induction false} NothingLeft(s: Store, e: TunnelError, id: ServiceId)
    ensures TxnOf(ClearActive(FinishPending(s, e)), id) == None
  {
    hide Settle, ServiceStore.Held;
  }

  lemma {:induction false} SweptOut(s: Store, submitted: set<Reply>, id: ServiceId, r: Reply, now: nat)
    requires Inv(s) && Conserves(s, submitted) && TxnOf(s, id).Some?
    requires TxnOf(s, id).value.reply == Some(r) && Overdue(TxnOf(s, id).value, now)
    ensures TxnOf(ExpireOverdue(s, now).0, id) == None && Sent(ExpireOverdue(s, now).0.answers, r) == [Failed(Timeout)]
    ensures !Holds(ExpireOverdue(s, now).0, r)
  {
    ExpiryRemovesTheOverdue(s, now);
    ExpiryAnswersTheOverdue(s, submitted, now, r);
    HeldIs(s, r);
    hide ExpireOverdue, Clash, Ceiling;
  }

  // ----- the bind table shows what was acknowledged

  /** The step at which the server's acknowledgement with this bind was taken in. */
  predicate AckStep(step: Step, e: BindEntry) {
    || step == InitialAck(e.bind)
    || (step.Incoming? && step.message == RegisterAck(e.service, e.bind))
  }

  lemma {:induction false} RunLast(l: Life, steps: seq<Step>)
    requires steps != []
    ensures Run(l, steps) == Apply(Run(l, steps[..|steps| - 1]), steps[|steps| - 1])
    decreases |steps|
  {
    hide Apply;
    var front := steps[..|steps| - 1];
    if |steps| == 1 {
      assert front == [] && steps[1..] == [];
    } else {
      assert front[1..] == steps[1..][..|steps| - 2];
      RunLast(Apply(l, steps[0]), steps[1..]);
    }
  }

  lemma {:induction false} FilteredBinds(binds: seq<BindEntry>, id: ServiceId, e: BindEntry)
    ensures e in BindsWithout(binds, id) <==> e in binds && e.service != id
  {
    if binds == [] {
    } else {
      FilteredBinds(binds[1..], id, e);
      assert binds == [binds[0]] + binds[1..];
    }
  }

  lemma {:induction false} ConcludeBinds(l: Life, h: Handled, e: BindEntry)
    ensures e in Conclude(l, h).client.binds ==> e in h.client.binds
  {
    hide FinishPending;
  }

  lemma {:induction false} RegisterBinds(c: Client, g: nat, limit: nat, service: Service, reply: Reply,
                                         closed: set<Reply>, write: Write)
    ensures OnRegister(c, g, limit, service, reply, closed, write).client.binds == c.binds
  {
    hide AnswerBegin, ArmDeadline, Abandon, FailLegacyWrite, Answer;
  }

  lemma {:induction false} DeadlineBinds(c: Client, now: nat)
    ensures OnDeadline(c, now).client.binds == c.binds
  {
    hide ExpireOverdue;
  }

  lemma {:induction false} UnregisterBinds(c: Client, id: ServiceId, written: bool, e: BindEntry)
    ensures e in OnUnregister(c, id, written).client.binds ==> e in c.binds
  {
    hide Unregister, BindsWithout;
    FilteredBinds(c.binds, id, e);
  }

  lemma {:induction false} MessageBinds(c: Client, session: SessionId, g: nat, m: Message, closed: set<Reply>,
                                        written: bool, e: BindEntry)
    requires Inv(c.store) && e in OnMessage(c, session, g, m, closed, written).client.binds
    ensures e in c.binds || m == RegisterAck(e.service, e.bind)
  {
    hide AnswerAck, AnswerReject, AnswerError, Inv;
    if m.RegisterAck? { CommitNames(c.store, m.serviceId, g, closed, m.effectiveBind); }
  }

  lemma {:induction false} SubmitBinds(l: Life, service: Service, reply: Reply, closed: set<Reply>, write: Write,
                                       e: BindEntry)
    requires e in OnSubmit(l, service, reply, closed, write).client.binds
    ensures e in l.client.binds
  {
    hide Conclude, OnRegister, Answer;
    if l.phase.Ready? {
      RegisterBinds(l.client, l.phase.generation, l.limit, service, reply, closed, write);
      var h := OnRegister(l.client, l.phase.generation, l.limit, service, reply, closed, write);
      ConcludeBinds(l.(submitted := l.submitted + {reply}), h, e);
    }
  }

  lemma {:induction false} WithdrawBinds(l: Life, id: ServiceId, written: bool, e: BindEntry)
    requires e in OnWithdraw(l, id, written).client.binds
    ensures e in l.client.binds
  {
    hide Conclude, OnUnregister, Unregister;
    if l.phase.Ready? {
      ConcludeBinds(l.(log := l.log + [Left(id)]), OnUnregister(l.client, id, written), e);
      UnregisterBinds(l.client, id, written, e);
    }
  }

  lemma {:induction false} IncomingBinds(l: Life, m: Message, closed: set<Reply>, written: bool, e: BindEntry)
    requires Inv(l.client.store) && e in OnIncoming(l, m, closed, written).client.binds
    ensures e in l.client.binds || m == RegisterAck(e.service, e.bind)
  {
    hide Inv, Conclude, OnMessage, Commits;
    if l.phase.Ready? {
      var committed := Commits(l, m, closed);
      var h := OnMessage(l.client, l.phase.session, l.phase.generation, m, closed, written);
      ConcludeBinds(l.(log := if committed.Some? then l.log + [Entered(committed.value)] else l.log), h, e);
      MessageBinds(l.client, l.phase.session, l.phase.generation, m, closed, written, e);
    }
  }

  lemma {:induction false} StepBinds(l: Life, step: Step, e: BindEntry)
    requires StoreSound(l) && e in Apply(l, step).client.binds
    ensures e in l.client.binds || AckStep(step, e)
  {
    assert Inv(l.client.store);
    hide StoreSound, Inv, Conclude, OnSubmit, OnWithdraw, OnIncoming, OnDeadline, SetMode, FinishPending, ById;
    match step
    case Submit(service, reply, closed, write) =>
      if reply !in l.submitted { SubmitBinds(l, service, reply, closed, write, e); }
    case Withdraw(id, written) => WithdrawBinds(l, id, written, e);
    case Incoming(m, closed, written) => IncomingBinds(l, m, closed, written, e);
    case Sweep(now) =>
      if l.phase.Ready? {
        DeadlineBinds(l.client, now);
        ConcludeBinds(l, OnDeadline(l.client, now), e);
      }
    case _ =>
  }

  lemma {:induction false} CommitNames(s: Store, id: ServiceId, g: nat, closed: set<Reply>, bind: EffectiveBind)
    requires Inv(s)
    ensures AnswerAck(s, id, g, closed, bind).1.Commit? ==> AnswerAck(s, id, g, closed, bind).1.service.id == id
  {
    hide Settle, Clash, Ceiling;
  }

  /** In every run each bind shown was acknowledged, for that Service and with that address, by some earlier step. */
  lemma {:induction false} BindsAreAcknowledged(services: seq<Service>, limit: nat, steps: seq<Step>, e: BindEntry)
    requires DesiredDistinct(services) && e in Run(Start(services, limit), steps).client.binds
    ensures exists i :: 0 <= i < |steps| && AckStep(steps[i], e)
    decreases |steps|
  {
    var start := Start(services, limit);
    if steps == [] {
      assert false;
    } else {
      var front := steps[..|steps| - 1];
      StartSound(services, limit);
      hide Start, Apply, Run, AckStep;
      RunLast(start, steps);
      EveryRunSound(start, front);
      StepBinds(Run(start, front), steps[|steps| - 1], e);
      if !AckStep(steps[|steps| - 1], e) {
        BindsAreAcknowledged(services, limit, front, e);
        var i :| 0 <= i < |front| && AckStep(front[i], e);
        assert AckStep(steps[i], e);
      }
    }
  }

  // ----- a Session gets ready

  function Acks(binds: seq<EffectiveBind>): seq<Step> {
    seq(|binds|, i requires 0 <= i < |binds| => InitialAck(binds[i]))
  }

  lemma {:induction false} AcksAdvance(l: Life, binds: seq<EffectiveBind>)
    requires l.phase.Registering? && l.phase.done + |binds| <= |l.client.store.desired|
    ensures
      var m := Run(l, Acks(binds));
      && m.phase == l.phase.(done := l.phase.done + |binds|) && m.client.store == l.client.store
      && m.lastGeneration == l.lastGeneration && m.log == l.log
    decreases |binds|
  {
    if binds == [] {
    } else {
      assert Acks(binds)[1..] == Acks(binds[1..]);
      AcksAdvance(Apply(l, InitialAck(binds[0])), binds[1..]);
    }
  }

  lemma {:induction false} RunsOn(l: Life, a: seq<Step>, b: seq<Step>)
    ensures Run(l, a + b) == Run(Run(l, a), b)
    decreases |a|
  {
    hide Apply;
    if a == [] {
      assert a + b == b;
    } else {
      assert (a + b)[1..] == a[1..] + b;
      RunsOn(Apply(l, a[0]), a[1..], b);
    }
  }

  /**
   From any disconnected client a Session can be established, as long as generations last: with one acknowledgement
   for each desired Service it becomes ready under the next generation, with all of them active.
   */
  lemma {:induction false} SessionBecomesReady(l: Life, session: SessionId, mode: Mode, binds: seq<EffectiveBind>)
    requires l.phase.Disconnected? && l.lastGeneration < U64_MAX && |binds| == |l.client.store.desired|
    ensures
      var m := Run(l, [Establish(session, mode)] + Acks(binds) + [Activate]);
      && m.phase == Ready(session, l.lastGeneration + 1) && m.lastGeneration == l.lastGeneration + 1
      && m.client.store.desired == l.client.store.desired && m.client.store.mode == mode
      && m.client.store.active == ById(l.client.store.desired) && m.client.services == |l.client.store.desired|
  {
    hide ById, Settle, Held;
    var l1 := Apply(l, Establish(session, mode));
    assert l1.client.store.desired == l.client.store.desired && l1.client.store.mode == mode;
    AcksAdvance(l1, binds);
    var l2 := Run(l1, Acks(binds));
    RunsOn(l, [Establish(session, mode)] + Acks(binds), [Activate]);
    RunsOn(l, [Establish(session, mode)], Acks(binds));
    assert [Establish(session, mode)][1..] == [] && [Activate][1..] == [];
    assert Run(l, [Establish(session, mode)]) == l1;
    assert Run(l2, [Activate]) == Apply(l2, Activate);
  }

  /** Spent generations are never used again: once they run out, no Session begins. */
  lemma {:induction false} GenerationsRunOut(l: Life, session: SessionId, mode: Mode)
    ensures
      var m := Apply(l, Establish(session, mode));
      if l.phase.Disconnected? && l.lastGeneration < 0xffff_ffff_ffff_ffff then
        m.phase == Registering(session, l.lastGeneration + 1, 0)
      else m == l
  {
    hide Settle, Held;
  }
}
