/**
 The legacy mode, where an error does not say what it answers. Every reply the server owes is counted against the
 places in which the client awaits one: a run with a reply too many, or with a tombstone whose acknowledgement can no
 longer come, can only end its Session, and in every other run each Service is in a recognisable situation.
 */
module LegacyReplies {
  import opened Wire
  import opened ServiceStore
  import opened ReadyLoop
  import opened ClientLifeProofs
  import opened ClientHistory
  import opened ServerControl
  import opened Protocol
  import opened Ledger
  import opened ProtocolProofs
  import opened Situations

  predicate Healthy(v: Situation) {
    match v.status
    case Absent => Due(v) == 0
    case Live(name) => v.mentions == [] && v.answers == [] && v.server == Some(name) && !v.stranded
    case Waiting(name) =>
      || (v.answers == [] && RegCount(v.mentions) == 1 && v.mentions != [] && v.mentions[|v.mentions| - 1] == Reg(name))
      || (v.mentions == [] && |v.answers| == 1 && (v.answers[0] ==> v.server == Some(name) && !v.stranded))
    case Buried => Due(v) == 1 && (v.answers == [] || v.answers == [true])
  }

  /** A tombstone whose reply can no longer come as an acknowledgement. */
  predicate Orphan(v: Situation) {
    v.status.Buried? && RegCount(v.mentions) == 0 && true !in v.answers
  }

  /** Some reply has no place left, or some place will never see its reply. */
  ghost predicate Doomed(n: Net, b: Book) {
    Owed(n) > Slots(n) || exists t :: Orphan(SituationOf(n, b, t))
  }

  ghost predicate AllHealthy(n: Net, b: Book) {
    forall i :: Healthy(SituationOf(n, b, i))
  }

  /** Every place has a reply coming, and the Session is doomed or every Service is where it should be. */
  ghost predicate Accounted(n: Net, b: Book) {
    Owed(n) >= Slots(n) && (Doomed(n, b) || AllHealthy(n, b))
  }

  // ----- one Service

  function Place(s: Status): nat {
    if s.Waiting? || s.Buried? then 1 else 0
  }

  /** Places and replies change together. */
  predicate Even(v: Situation, w: Situation) {
    Place(w.status) - Place(v.status) == Due(w) - Due(v)
  }

  lemma {:induction false} SpokenHealthy(v: Situation, w: Situation)
    requires (Silent(v, w) || Asks(v, w) || Withdraws(v, w)) && Even(v, w) && Healthy(v)
    ensures Healthy(w) || Orphan(w)
  {
    if Withdraws(v, w) {
      RegCountAppend(v.mentions, Unreg);
    } else if Asks(v, w) {
      RegCountAppend(v.mentions, w.mentions[|w.mentions| - 1]);
    }
  }

  lemma {:induction false} ServedHealthy(v: Situation, w: Situation)
    requires (Rules(v, w) || Forgets(v, w)) && Healthy(v)
    ensures Healthy(w) || Orphan(w)
  {
    if Rules(v, w) && v.status.Waiting? && |v.mentions| > 1 { LastCounts(v.mentions[1..]); }
  }

  lemma {:induction false} AnsweredHealthy(v: Situation, w: Situation)
    requires Commits(v, w) || CleansUp(v, w) || Declines(v, w, false) || Mistakes(v, w)
    requires Even(v, w) && Healthy(v)
    ensures Healthy(w) || Orphan(w)
  {
    RegCountAppend(v.mentions, Unreg);
  }

  lemma {:induction false} HealthyNext(v: Situation, w: Situation)
    requires Next(v, w, false) && Even(v, w) && Healthy(v)
    ensures Healthy(w) || Orphan(w)
  {
    hide Healthy, Orphan, Even, Silent, Asks, Withdraws, Rules, Forgets, Commits, CleansUp, Declines, Mistakes;
    if Silent(v, w) || Asks(v, w) || Withdraws(v, w) {
      SpokenHealthy(v, w);
    } else if Rules(v, w) || Forgets(v, w) {
      ServedHealthy(v, w);
    } else {
      AnsweredHealthy(v, w);
    }
  }

  lemma {:induction false} OrphanNext(v: Situation, w: Situation)
    requires Next(v, w, false) && Even(v, w) && Orphan(v)
    ensures Orphan(w)
  {
    if Withdraws(v, w) {
      RegCountAppend(v.mentions, Unreg);
    } else if Asks(v, w) {
      RegCountAppend(v.mentions, w.mentions[|w.mentions| - 1]);
    }
  }

  lemma {:induction false} EvenKept(n: Net, n': Net, b: Book, b': Book)
    requires Accounted(n, b) && Owed(n') - Slots(n') >= Owed(n) - Slots(n)
    requires forall i :: Next(SituationOf(n, b, i), SituationOf(n', b', i), false)
    requires forall i :: Even(SituationOf(n, b, i), SituationOf(n', b', i))
    ensures Accounted(n', b')
  {
    hide Owed, Slots, SituationOf, Next, Even, Healthy, Orphan;
    if Owed(n) > Slots(n) {
    } else if t :| Orphan(SituationOf(n, b, t)) {
      OrphanNext(SituationOf(n, b, t), SituationOf(n', b', t));
    } else {
      forall i ensures Healthy(SituationOf(n', b', i)) || Orphan(SituationOf(n', b', i)) {
        HealthyNext(SituationOf(n, b, i), SituationOf(n', b', i));
      }
    }
  }

  lemma {:induction false} LostPlace(n: Net, n': Net, b: Book, b': Book)
    requires Owed(n') > Slots(n')
    ensures Accounted(n', b')
  {
  }

  lemma {:induction false} AtLeast(n: Net, b: Book)
    requires Accounted(n, b)
    ensures Owed(n) >= Slots(n)
  {
  }

  lemma {:induction false} SameSlots(n: Net, n': Net)
    requires n'.stage == n.stage && n'.client == n.client
    ensures Slots(n') == Slots(n)
  {
    hide StoreSlots;
  }

  // ----- steps that leave the client's store alone

  /** The client is as it was, and what is said about each Service adds up to the same. */
  lemma {:induction false} SameClient(n: Net, n': Net, b: Book, b': Book)
    requires Accounted(n, b) && n'.stage == n.stage && n'.client == n.client && Owed(n') == Owed(n)
    requires forall i :: Next(SituationOf(n, b, i), SituationOf(n', b', i), false)
    requires forall i :: Due(SituationOf(n', b', i)) == Due(SituationOf(n, b, i))
    ensures Accounted(n', b')
  {
    hide Accounted, Owed, Slots, Next, Due, Stranded, StatusOf;
    SameSlots(n, n');
    forall i ensures Even(SituationOf(n, b, i), SituationOf(n', b', i)) { SameStatus(n, n', i); }
    EvenKept(n, n', b, b');
  }

  lemma {:induction false} ServerDue(n: Net, b: Book, b': Book, listener: Listener, diagnostic: Text, i: ServiceId)
    requires n.toServer != [] && OnServerReceives(n, listener, diagnostic).up
    ensures
      var n' := OnServerReceives(n, listener, diagnostic);
      Owed(n') == Owed(n) && Due(SituationOf(n', b', i)) == Due(SituationOf(n, b, i))
  {
    hide StatusOf, Stranded, Register, Removed;
    var m := n.toServer[0];
    var rest := Mentions(n.toServer[1..], i);
    assert Mentions(n.toServer, i) == MentionOf(m, i) + rest;
    assert MentionOf(m, i) == [] ==> MentionOf(m, i) + rest == rest;
    assert MentionOf(m, i) != [] ==> (MentionOf(m, i) + rest)[1..] == rest;
    if m.RegisterService? {
      var answer := Register(n.table, n.maxServices, Correlated(n), m.serviceId, m.name, listener, diagnostic).1;
      AlwaysAnswered(n.table, n.maxServices, Correlated(n), m.serviceId, m.name, listener, diagnostic);
      AnswersAppend(n.toClient, Envelope(answer, m.serviceId), i);
      RepliesAppend(n.toClient, Envelope(answer, m.serviceId));
    } else if m.Ping? {
      AnswersAppend(n.toClient, Envelope(Pong(m.nonce), 0), i);
      RepliesAppend(n.toClient, Envelope(Pong(m.nonce), 0));
    }
  }

  lemma {:induction false} AlwaysAnswered(t: Table, maxServices: nat, correlated: bool, id: ServiceId, name: Text,
                                          listener: Listener, diagnostic: Text)
    ensures IsReply(Register(t, maxServices, correlated, id, name, listener, diagnostic).1)
  {
  }

  lemma {:induction false} ServerAccounted(n: Net, b: Book, listener: Listener, diagnostic: Text)
    requires Accounted(n, b) && Shaped(n) && !Correlated(n) && OnServerReceives(n, listener, diagnostic).up
    ensures Accounted(OnServerReceives(n, listener, diagnostic), NoteRuling(b, n, listener))
  {
    var n', b' := OnServerReceives(n, listener, diagnostic), NoteRuling(b, n, listener);
    if n.toServer != [] {
      assert n'.stage == n.stage && n'.client == n.client by { hide Register, Removed; }
      hide Accounted, Shaped, OnServerReceives, NoteRuling, SituationOf, Due, Next, Owed;
      forall i
        ensures Next(SituationOf(n, b, i), SituationOf(n', b', i), false)
        ensures Owed(n') == Owed(n) && Due(SituationOf(n', b', i)) == Due(SituationOf(n, b, i))
      {
        ServerNext(n, b, listener, diagnostic, i);
        ServerDue(n, b, b', listener, diagnostic, i);
      }
      assert Owed(n') == Owed(n) by { ServerDue(n, b, b', listener, diagnostic, 0); }
      SameClient(n, n', b, b');
    }
  }

  lemma {:induction false} TrafficAccounted(n: Net, b: Book, m: Message)
    requires Accounted(n, b) && !Correlated(n)
    ensures !m.RegisterService? && !m.UnregisterService? ==> Accounted(n.(toServer := n.toServer + [m]), b)
    ensures !IsReply(m) ==> Accounted(n.(toClient := n.toClient + [Envelope(m, 0)]), b)
  {
    hide Accounted, Next, SituationOf, Due;
    RegsAppend(n.toServer, m);
    RepliesAppend(n.toClient, Envelope(m, 0));
    forall i
      ensures Next(SituationOf(n, b, i), SituationOf(n, b, i), false)
      ensures !m.RegisterService? && !m.UnregisterService? ==>
        SituationOf(n.(toServer := n.toServer + [m]), b, i) == SituationOf(n, b, i)
      ensures !IsReply(m) ==> SituationOf(n.(toClient := n.toClient + [Envelope(m, 0)]), b, i) == SituationOf(n, b, i)
    {
      TrafficNext(n, b, m, i);
    }
    if !m.RegisterService? && !m.UnregisterService? { SameClient(n, n.(toServer := n.toServer + [m]), b, b); }
    if !IsReply(m) { SameClient(n, n.(toClient := n.toClient + [Envelope(m, 0)]), b, b); }
  }

  // ----- the initial registrations

  lemma {:induction false} InitialSendAccounted(n: Net, b: Book)
    requires Accounted(n, b) && Shaped(n) && !Correlated(n)
    ensures Accounted(OnSendInitial(n), NoteInitial(b, n))
  {
    var n', b' := OnSendInitial(n), NoteInitial(b, n);
    if n' != n {
      var done, desired := n.stage.done, n.client.store.desired;
      var m := Registration(desired[done]);
      NotYetRegistered(desired, done);
      RegsAppend(n.toServer, m);
      assert Owed(n') - Slots(n') == Owed(n) - Slots(n);
      hide Accounted, Shaped, Next, ById, Stranded, Owed, Slots;
      forall i
        ensures Next(SituationOf(n, b, i), SituationOf(n', b', i), false)
        ensures Even(SituationOf(n, b, i), SituationOf(n', b', i))
      {
        InitialSendNext(n, b, i);
        MentionsAppend(n.toServer, m, i);
        if i == desired[done].id {
          RegCountAppend(Mentions(n.toServer, i), Reg(desired[done].name));
        } else {
          assert Mentions(n.toServer, i) + [] == Mentions(n.toServer, i);
        }
      }
      EvenKept(n, n', b, b');
    }
  }

  lemma {:induction false} InitialAnswerAccounted(n: Net, b: Book)
    requires Accounted(n, b) && Shaped(n) && !Correlated(n)
    requires n.up && n.toClient != [] && n.stage.Registering? && n.stage.awaiting && InitialReceived(n).up
    ensures Accounted(InitialReceived(n), b)
  {
    var n' := InitialReceived(n);
    var service := n.client.store.desired[n.stage.done];
    assert n.toClient[0].about == service.id && n.toClient[0].message.RegisterAck?;
    assert Owed(n') - Slots(n') == Owed(n) - Slots(n);
    NotYetRegistered(n.client.store.desired, n.stage.done);
    assert n.client.store.desired[..n.stage.done + 1] == n.client.store.desired[..n.stage.done] + [service];
    ByIdGrows(n.client.store.desired[..n.stage.done], service);
    hide Accounted, Shaped, Next, ById, Stranded, Owed, Slots;
    forall i
      ensures Next(SituationOf(n, b, i), SituationOf(n', b, i), false)
      ensures Even(SituationOf(n, b, i), SituationOf(n', b, i))
    {
      InitialAnswerNext(n, b, i);
    }
    EvenKept(n, n', b, b);
  }

  lemma {:induction false} ActivateAccounted(n: Net, b: Book)
    requires Accounted(n, b) && Shaped(n) && !Correlated(n)
    ensures Accounted(OnActivate(n), b)
  {
    var n' := OnActivate(n);
    if n' != n {
      assert n.client.store.desired[..n.stage.done] == n.client.store.desired;
      assert Owed(n') == Owed(n) && Slots(n') == Slots(n) by { hide Inv, ById, BindsMatch; }
      hide Accounted, Healthy, Orphan, ById, Inv, BindsMatch, Mentions, AnswersAbout, Regs, Replies, Stranded, Next,
        Labelled, Consistent;
      forall i
        ensures Next(SituationOf(n, b, i), SituationOf(n', b, i), false)
        ensures Even(SituationOf(n, b, i), SituationOf(n', b, i))
      {
        ActivateNext(n, b, i);
        assert SituationOf(n', b, i) == SituationOf(n, b, i);
      }
      EvenKept(n, n', b, b);
    }
  }

  // ----- the ready loop

  /** Statuses and queues as they were. */
  lemma {:induction false} UnmovedEven(n: Net, n': Net, b: Book, b': Book, i: ServiceId)
    requires n.stage.Ready? && n' == n.(client := n'.client) && Unmoved(n.client.store, n'.client.store)
    ensures Even(SituationOf(n, b, i), SituationOf(n', b', i))
  {
    hide StoreStatus, StoreSlots, Stranded;
  }

  lemma {:induction false} UnmovedSlots(n: Net, n': Net)
    requires n.stage.Ready? && n' == n.(client := n'.client) && Unmoved(n.client.store, n'.client.store)
    ensures Owed(n') == Owed(n) && Slots(n') == Slots(n)
  {
    hide StoreStatus, StoreSlots;
  }

  /** A registration put on the wire opened one place. */
  lemma {:induction false} OpenedEven(n: Net, n': Net, b: Book, b': Book, service: Service, i: ServiceId)
    requires n.stage.Ready? && n' == n.(client := n'.client, toServer := n.toServer + [Registration(service)])
    requires || Moved(n.client.store, n'.client.store, service.id, Absent, Waiting(service.name))
             || Moved(n.client.store, n'.client.store, service.id, Absent, Buried)
    ensures Even(SituationOf(n, b, i), SituationOf(n', b', i))
  {
    hide StoreStatus, Stranded;
    MentionsAppend(n.toServer, Registration(service), i);
    if i == service.id {
      RegCountAppend(Mentions(n.toServer, i), Reg(service.name));
    } else {
      assert Mentions(n.toServer, i) + [] == Mentions(n.toServer, i);
    }
  }

  lemma {:induction false} SubmitAccounted(n: Net, b: Book, service: Service, reply: Reply, closed: set<Reply>,
                                           write: Write)
    requires Accounted(n, b) && Shaped(n) && !Correlated(n) && n.stage.Ready?
    requires OnRegister(n.client, n.generation, n.limit, service, reply, closed, write).verdict.Continue?
    ensures
      var h := OnRegister(n.client, n.generation, n.limit, service, reply, closed, write);
      Accounted(Settled(n, h), NoteSubmit(b, n, service, reply, closed, write))
  {
    hide OnRegister, Shaped, Inv, Apart, OfGeneration, StoreSlots, StoreStatus, Accounted, Unmoved, Moved, Next, Even,
      SituationOf, NoteSubmit, Regs, Replies;
    ReadyApart(n);
    RegisterEffect(n.client, n.generation, n.limit, service, reply, closed, write);
    var h := OnRegister(n.client, n.generation, n.limit, service, reply, closed, write);
    var n', b' := Settled(n, h), NoteSubmit(b, n, service, reply, closed, write);
    AtLeast(n, b);
    forall i ensures Next(SituationOf(n, b, i), SituationOf(n', b', i), false) {
      SubmitNext(n, b, service, reply, closed, write, i);
    }
    if h.sent == [] {
      assert n.toServer + [] == n.toServer;
      if StoreSlots(h.client.store) < StoreSlots(n.client.store) {
        LostPlace(n, n', b, b');
      } else {
        UnmovedSlots(n, n');
        forall i ensures Even(SituationOf(n, b, i), SituationOf(n', b', i)) { UnmovedEven(n, n', b, b', i); }
        EvenKept(n, n', b, b');
      }
    } else {
      RegsAppend(n.toServer, Registration(service));
      if StoreSlots(h.client.store) <= StoreSlots(n.client.store) {
        LostPlace(n, n', b, b');
      } else {
        forall i ensures Even(SituationOf(n, b, i), SituationOf(n', b', i)) { OpenedEven(n, n', b, b', service, i); }
        EvenKept(n, n', b, b');
      }
    }
  }

  /** Only a withdrawal that loses no place is even; whether its message was sent does not matter. */
  lemma {:induction false} WithdrawnEven(n: Net, n': Net, b: Book, id: ServiceId, sent: bool, i: ServiceId)
    requires n.stage.Ready? && Inv(n.client.store) && Apart(n.client.store)
    requires n' == n.(client := n'.client, toServer := n.toServer + if sent then [UnregisterService(id)] else [])
    requires n'.client.store == Unregister(n.client.store, id)
      && StoreSlots(n'.client.store) == StoreSlots(n.client.store)
    ensures Even(SituationOf(n, b, i), SituationOf(n', b, i))
  {
    hide StoreStatus, StoreSlots, Stranded, Unregister, Inv, Apart;
    UnregisterEffect(n.client.store, id);
    if sent {
      MentionsAppend(n.toServer, UnregisterService(id), i);
      RegCountAppend(Mentions(n.toServer, i), Unreg);
      assert Mentions(n.toServer, i) + [] == Mentions(n.toServer, i);
    } else {
      assert n.toServer + [] == n.toServer;
    }
    assert i == id ==> Place(StoreStatus(n'.client.store, i)) == Place(StoreStatus(n.client.store, i));
  }

  lemma {:induction false} WithdrawAccounted(n: Net, b: Book, id: ServiceId, sent: bool)
    requires Accounted(n, b) && Shaped(n) && !Correlated(n) && n.stage.Ready?
    requires OnUnregister(n.client, id, sent).verdict.Continue?
    ensures Accounted(Settled(n, OnUnregister(n.client, id, sent)), b)
  {
    hide OnUnregister, Unregister, Shaped, Inv, Apart, OfGeneration, StoreSlots, StoreStatus, Accounted, Next, Even,
      SituationOf, Regs, Replies;
    ReadyApart(n);
    var s := n.client.store;
    UnregisterEffect(s, id);
    UnregisterStore(n.client, id, sent);
    UnregisterSends(n.client, id, sent);
    var n' := Settled(n, OnUnregister(n.client, id, sent));
    RegsAppend(n.toServer, UnregisterService(id));
    assert n.toServer + [] == n.toServer;
    AtLeast(n, b);
    forall i ensures Next(SituationOf(n, b, i), SituationOf(n', b, i), false) { WithdrawNext(n, b, id, sent, i); }
    if StoreSlots(Unregister(s, id)) < StoreSlots(s) {
      LostPlace(n, n', b, b);
    } else {
      forall i ensures Even(SituationOf(n, b, i), SituationOf(n', b, i)) { WithdrawnEven(n, n', b, id, sent, i); }
      EvenKept(n, n', b, b);
    }
  }

  lemma {:induction false} SweepAccounted(n: Net, b: Book, now: nat)
    requires Accounted(n, b) && Shaped(n) && !Correlated(n) && n.stage.Ready?
      && OnDeadline(n.client, now).verdict.Continue?
    ensures Accounted(Settled(n, OnDeadline(n.client, now)), b)
  {
    hide OnDeadline, Shaped, Inv, Apart, OfGeneration, StoreSlots, StoreStatus, Accounted, Unmoved, Next, Even,
      SituationOf, Regs, Replies;
    ReadyApart(n);
    ExpireEffect(n.client, now);
    var h := OnDeadline(n.client, now);
    var n' := Settled(n, h);
    assert n.toServer + [] == n.toServer;
    AtLeast(n, b);
    forall i ensures Next(SituationOf(n, b, i), SituationOf(n', b, i), false) { SweepNext(n, b, now, i); }
    if StoreSlots(h.client.store) < StoreSlots(n.client.store) {
      LostPlace(n, n', b, b);
    } else {
      UnmovedSlots(n, n');
      forall i ensures Even(SituationOf(n, b, i), SituationOf(n', b, i)) { UnmovedEven(n, n', b, b, i); }
      EvenKept(n, n', b, b);
    }
  }

  // ----- replies

  /** An acknowledgement is absorbed by the place of the Service it names. */
  lemma {:induction false} AbsorbedEven(n: Net, n': Net, b: Book, b': Book, id: ServiceId, to: Status, i: ServiceId)
    requires Absorbs(n, n', id, to) && (to.Absent? || to.Live?)
    requires n'.toServer == n.toServer || n'.toServer == n.toServer + [UnregisterService(id)]
    ensures Even(SituationOf(n, b, i), SituationOf(n', b', i))
    ensures Owed(n') - Slots(n') == Owed(n) - Slots(n)
  {
    AbsorbsAnswer(n, n', b, b', id, to, i);
    hide StoreStatus, StoreSlots, Stranded, AnswersAbout;
    RegsAppend(n.toServer, UnregisterService(id));
    MentionsAppend(n.toServer, UnregisterService(id), i);
    RegCountAppend(Mentions(n.toServer, i), Unreg);
    assert Mentions(n.toServer, i) + [] == Mentions(n.toServer, i);
  }

  lemma {:induction false} AckAccounted(n: Net, b: Book, closed: set<Reply>, cleanupSent: bool)
    requires Accounted(n, b) && !Correlated(n) && Booked(n, b)
    requires Receiving(n, closed, cleanupSent) && n.toClient[0].message.RegisterAck?
    ensures Accounted(Received(n, closed, cleanupSent), NoteReply(b, n, closed, cleanupSent))
  {
    AckTaken(n, closed, cleanupSent);
    var id, to := n.toClient[0].message.serviceId, Became(n, closed);
    var n', b' := Received(n, closed, cleanupSent), NoteReply(b, n, closed, cleanupSent);
    assert n.toServer + [] == n.toServer;
    hide Next, Even, TakeAck, Shaped, Booked, StoreStatus, SituationOf, Accounted, NoteReply, Owed, Slots, Absorbs,
      Received, OnMessage;
    forall i
      ensures Next(SituationOf(n, b, i), SituationOf(n', b', i), false)
      ensures Even(SituationOf(n, b, i), SituationOf(n', b', i)) && Owed(n') - Slots(n') == Owed(n) - Slots(n)
    {
      AckNext(n, b, closed, cleanupSent, i);
      AbsorbedEven(n, n', b, b', id, to, i);
    }
    assert Owed(n') - Slots(n') == Owed(n) - Slots(n) by { AbsorbedEven(n, n', b, b', id, to, id); }
    EvenKept(n, n', b, b');
  }

  lemma {:induction false} OnlyOnePending(s: Store, j: ServiceId)
    requires Inv(s) && s.mode.LegacySerial? && StoreStatus(s, j).Waiting?
    ensures s.pending.Some? && j == s.pending.value.service.id
  {
  }

  /** While every Service is healthy, the pending registration is the one an error answers. */
  lemma {:induction false} ErrorFindsItsOwn(n: Net, n': Net, b: Book, id: ServiceId, i: ServiceId)
    requires TakesError(n, n', id) && Healthy(SituationOf(n, b, n.toClient[0].about))
    requires forall j :: StoreStatus(n.client.store, j).Waiting? ==> j == id
    ensures n.toClient[0].about == id && Even(SituationOf(n, b, i), SituationOf(n', b, i))
  {
    hide StoreStatus, StoreSlots, Stranded, Mentions;
    assert SituationOf(n, b, n.toClient[0].about).answers[0] == false;
  }

  lemma {:induction false} ErrorKeepsOrphans(n: Net, n': Net, b: Book, id: ServiceId, t: ServiceId)
    requires TakesError(n, n', id) && Orphan(SituationOf(n, b, t))
    ensures Orphan(SituationOf(n', b, t))
  {
    hide StoreStatus, StoreSlots, Stranded, Mentions;
    assert AnswersAbout(n.toClient, t) == AnswerOf(n.toClient[0], t) + AnswersAbout(n'.toClient, t);
  }

  lemma {:induction false} ErrorBalance(n: Net, n': Net, id: ServiceId)
    requires TakesError(n, n', id)
    ensures Owed(n') - Slots(n') == Owed(n) - Slots(n)
  {
    hide StoreStatus, StoreSlots;
  }

  lemma {:induction false} TakesErrorAccounted(n: Net, n': Net, b: Book, id: ServiceId)
    requires Accounted(n, b) && TakesError(n, n', id)
    requires forall j :: StoreStatus(n.client.store, j).Waiting? ==> j == id
    ensures Accounted(n', b)
  {
    var about := n.toClient[0].about;
    hide Next, Even, StoreStatus, TakesError, SituationOf, Healthy, Orphan, Owed, Slots;
    ErrorBalance(n, n', id);
    if AllHealthy(n, b) {
      forall i
        ensures Next(SituationOf(n, b, i), SituationOf(n', b, i), false)
        ensures Even(SituationOf(n, b, i), SituationOf(n', b, i))
      {
        TakesErrorNext(n, n', b, id, i);
        assert Healthy(SituationOf(n, b, about));
        ErrorFindsItsOwn(n, n', b, id, i);
      }
      EvenKept(n, n', b, b);
    } else if Owed(n) <= Slots(n) {
      var t :| Orphan(SituationOf(n, b, t));
      ErrorKeepsOrphans(n, n', b, id, t);
    }
  }

  lemma {:induction false} ErrorAccounted(n: Net, b: Book, closed: set<Reply>, cleanupSent: bool)
    requires Accounted(n, b) && !Correlated(n)
    requires Receiving(n, closed, cleanupSent) && n.toClient[0].message.Error?
    ensures Accounted(Received(n, closed, cleanupSent), b)
  {
    ErrorTaken(n, closed, cleanupSent);
    var s := n.client.store;
    assert Inv(s);
    hide Shaped, OnMessage, Received, Inv, Accounted, StoreStatus, Consumed;
    forall j | StoreStatus(s, j).Waiting? ensures j == s.pending.value.service.id { OnlyOnePending(s, j); }
    TakesErrorAccounted(n, Received(n, closed, cleanupSent), b, s.pending.value.service.id);
  }

  lemma {:induction false} IgnoredAccounted(n: Net, b: Book, closed: set<Reply>, cleanupSent: bool)
    requires Accounted(n, b) && !Correlated(n) && Receiving(n, closed, cleanupSent) && !IsReply(n.toClient[0].message)
    ensures Accounted(Received(n, closed, cleanupSent), b)
  {
    var n' := Received(n, closed, cleanupSent);
    assert n' == n.(toClient := n.toClient[1..]) by {
      hide Shaped, OnAck, OnReject, OnError;
      assert n.toServer + [] == n.toServer;
    }
    assert Owed(n') == Owed(n);
    hide Accounted, Receiving, Received, Next, Stranded, StatusOf, Owed;
    forall i
      ensures Next(SituationOf(n, b, i), SituationOf(n', b, i), false)
      ensures Due(SituationOf(n', b, i)) == Due(SituationOf(n, b, i))
    {
      OtherNext(n, b, closed, cleanupSent, i);
    }
    SameClient(n, n', b, b);
  }

  lemma {:induction false} ReceiveAccounted(n: Net, b: Book, closed: set<Reply>, cleanupSent: bool)
    requires Accounted(n, b) && !Correlated(n) && Booked(n, b) && Receiving(n, closed, cleanupSent)
    ensures Accounted(Received(n, closed, cleanupSent), NoteReply(b, n, closed, cleanupSent))
  {
    hide Accounted, Booked, Shaped, Received, OnAck, OnError, AnswerReject, TakeAck;
    var m := n.toClient[0].message;
    if m.RegisterAck? {
      AckAccounted(n, b, closed, cleanupSent);
    } else if m.Error? {
      ErrorAccounted(n, b, closed, cleanupSent);
    } else {
      IgnoredAccounted(n, b, closed, cleanupSent);
    }
  }

  /** Every handler of either party keeps the accounting, whatever is lost. */
  lemma {:induction false} StepAccounted(n: Net, b: Book, step: Protocol.Step)
    requires n.up && Shaped(n) && Booked(n, b) && !Correlated(n) && Accounted(n, b) && Apply(n, step).up
    ensures Accounted(Apply(n, step), Noted(b, n, step))
  {
    hide Shaped, Booked, Accounted, OnServerReceives, OnSendInitial, OnActivate, OnInitialAnswer, OnRegister,
      OnUnregister, OnMessage, OnDeadline, NoteInitial, NoteSubmit, NoteRuling, TakeAck;
    match step
    case SendInitial => InitialSendAccounted(n, b);
    case Activate => ActivateAccounted(n, b);
    case ClientReceives(closed, cleanupSent) =>
      if n.toClient != [] {
        if n.stage.Ready? {
          ReceiveAccounted(n, b, closed, cleanupSent);
        } else if n.stage.awaiting {
          InitialAnswerAccounted(n, b);
        }
      }
    case Submit(service, reply, closed, write) =>
      if n.stage.Ready? { SubmitAccounted(n, b, service, reply, closed, write); }
    case Withdraw(id, sent) =>
      if n.stage.Ready? { WithdrawAccounted(n, b, id, sent); }
    case Sweep(now) =>
      if n.stage.Ready? { SweepAccounted(n, b, now); }
    case ClientSends(m) => TrafficAccounted(n, b, m);
    case ServerReceives(listener, diagnostic) => ServerAccounted(n, b, listener, diagnostic);
    case ServerSends(m) => TrafficAccounted(n, b, m);
    case Stop =>
  }
}
