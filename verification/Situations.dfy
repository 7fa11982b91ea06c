/**
 One Service as seen from everywhere at once: its status at the client, what the queues say about it, and what the
 server and the ledger have of it. Every step moves it along one of a few edges, whatever is lost on the way.
 */
module Situations {
  import opened Wire
  import opened ServiceStore
  import opened ServiceStoreProofs
  import opened ReadyLoop
  import opened ClientLifeProofs
  import opened ClientHistory
  import opened ServerControl
  import opened Protocol
  import opened Ledger
  import opened ProtocolProofs

  // ----- the shape of the joined state

  /** A correlated message is labelled with the Service it names. */
  ghost predicate Labelled(q: seq<Envelope>) {
    forall k :: 0 <= k < |q| && (q[k].message.RegisterAck? || q[k].message.RegisterReject?) ==>
      q[k].about == q[k].message.serviceId
  }

  ghost predicate Cleared(s: Store) {
    s.pending == None && s.inFlight == map[] && s.abandoned == map[]
  }

  ghost predicate Staged(n: Net) {
    match n.stage
    case Ready => OfGeneration(n.client.store, n.generation) && Tabled(n.client, n.session)
    case Registering(done, awaiting) =>
      && done <= |n.client.store.desired| && (awaiting ==> done < |n.client.store.desired|)
      && Cleared(n.client.store)
      && BindsMatch(n.client.binds, n.session, n.client.store.desired[..done])
  }

  ghost predicate Shaped(n: Net) {
    Inv(n.client.store) && Labelled(n.toClient) && Consistent(n.table) && Staged(n)
  }

  lemma {:induction false} ReadyApart(n: Net)
    requires Shaped(n) && n.stage.Ready?
    ensures Inv(n.client.store) && Apart(n.client.store) && OfGeneration(n.client.store, n.generation)
  {
    hide Inv, OfGeneration, Tabled, Labelled, Consistent, Apart;
    TabledApart(n.client, n.session);
  }

  lemma {:induction false} LabelledPop(q: seq<Envelope>)
    requires Labelled(q) && q != []
    ensures Labelled(q[1..])
  {
  }

  lemma {:induction false} LabelledPush(q: seq<Envelope>, e: Envelope)
    requires Labelled(q) && (e.message.RegisterAck? || e.message.RegisterReject? ==> e.about == e.message.serviceId)
    ensures Labelled(q + [e])
  {
  }

  /** A message that tells of a ruling: the bind, or a code the client reads as the right reason. */
  predicate Carries(m: Message, r: Ruling) {
    match r
    case Granted(bind) => m.RegisterAck? && m.effectiveBind == bind
    case _ => (m.RegisterReject? || m.Error?) && Failed(RegistrationErrorCode(m.code)) == Told(r)
  }

  /** The server's answer to a registration carries its ruling, and the table grows by the Services granted. */
  lemma {:induction false} RulingAnswered(t: Table, maxServices: nat, correlated: bool, id: ServiceId, name: Text,
                                          listener: Listener, diagnostic: Text)
    requires Consistent(t)
    ensures
      var (u, answer) := Register(t, maxServices, correlated, id, name, listener, diagnostic);
      var r := Rule(t, maxServices, id, name, listener);
      && IsReply(answer) && (answer.RegisterAck? || answer.RegisterReject? ==> answer.serviceId == id)
      && (answer.RegisterAck? <==> r.Granted?) && Carries(answer, r)
      && Consistent(u) && u.services == (if r.Granted? then t.services[id := name] else t.services)
  {
    assert name in t.names <==> exists k :: k in t.services && t.services[k] == name;
    if Admit(t, maxServices, id, name, listener).Admitted? {
      InsertedConsistent(t, id, name);
    }
    hide Consistent;
  }

  lemma {:induction false} ServerShaped(n: Net, listener: Listener, diagnostic: Text)
    requires Shaped(n)
    ensures Shaped(OnServerReceives(n, listener, diagnostic))
  {
    hide Inv, Labelled, Register, Removed, Consistent, Rule, Carries;
    if n.toServer != [] {
      var m := n.toServer[0];
      if m.RegisterService? {
        RulingAnswered(n.table, n.maxServices, Correlated(n), m.serviceId, m.name, listener, diagnostic);
        var answer := Register(n.table, n.maxServices, Correlated(n), m.serviceId, m.name, listener, diagnostic).1;
        LabelledPush(n.toClient, Envelope(answer, m.serviceId));
      } else if m.UnregisterService? {
        RemovedConsistent(n.table, m.serviceId);
      } else if m.Ping? {
        LabelledPush(n.toClient, Envelope(Pong(m.nonce), 0));
      }
    }
  }

  lemma {:induction false} InitialShaped(n: Net)
    requires Shaped(n)
    ensures Shaped(OnSendInitial(n))
    ensures Shaped(OnActivate(n))
  {
    hide Labelled, Consistent;
    var desired := n.client.store.desired;
    SameShape(n.client.store, ActivateInitial(n.client.store));
    assert desired[..|desired|] == desired;
    hide Inv, ById;
  }

  lemma {:induction false} InitialAnswerShaped(n: Net, m: Message)
    requires Shaped(n)
    ensures OnInitialAnswer(n, m).up ==> Shaped(OnInitialAnswer(n, m))
  {
    hide Labelled, Consistent, Inv, ById;
    if n.stage.Registering? && n.stage.done < |n.client.store.desired| && m.RegisterAck? {
      MoreBinds(n.client.binds, n.session, n.client.store.desired, n.stage.done, m.effectiveBind);
    }
  }

  lemma {:induction false} ReadyShaped(n: Net, h: Handled)
    requires Labelled(n.toClient) && Consistent(n.table) && n.stage.Ready?
    requires Inv(h.client.store) && OfGeneration(h.client.store, n.generation) && Tabled(h.client, n.session)
    ensures Shaped(Settled(n, h)) || !Settled(n, h).up
  {
    hide Labelled, Consistent, Inv, OfGeneration, Tabled;
  }

  lemma {:induction false} StepShaped(n: Net, step: Protocol.Step)
    requires Shaped(n) && Apply(n, step).up
    ensures Shaped(Apply(n, step))
  {
    hide Inv, Labelled, Consistent, OfGeneration, Tabled, OnServerReceives, OnSendInitial, OnActivate,
      OnInitialAnswer, OnRegister, OnUnregister, OnMessage, OnDeadline, Settled, Unregister, ExpireOverdue;
    var c := n.client;
    var g := n.generation;
    match step {
      case SendInitial => InitialShaped(n);
      case Activate => InitialShaped(n);
      case ClientReceives(closed, sent) =>
        if n.toClient != [] {
          LabelledPop(n.toClient);
          var n1 := n.(toClient := n.toClient[1..]);
          var m := n.toClient[0].message;
          if n.stage.Registering? {
            InitialAnswerShaped(n1, m);
          } else {
            MessageKeepsStore(c, n.session, g, m, closed, sent);
            MessageCurrent(c, n.session, g, m, closed, sent);
            MessageTabled(c, n.session, g, m, closed, sent);
            ReadyShaped(n1, OnMessage(c, n.session, g, m, closed, sent));
          }
        }
      case Submit(service, reply, closed, write) =>
        if n.stage.Ready? {
          var h := OnRegister(c, g, n.limit, service, reply, closed, write);
          RegisterKeepsStore(c, g, n.limit, service, reply, closed, write);
          RegisterCurrent(c, g, n.limit, service, reply, closed, write);
          RegisterLeavesViews(c, g, n.limit, service, reply, closed, write);
          SameTables(c, h.client, n.session);
          ReadyShaped(n, h);
        }
      case Withdraw(id, sent) =>
        if n.stage.Ready? {
          UnregisterKeeps(c.store, id);
          UnregisterCurrent(c.store, g, id);
          UnregisterStore(c, id, sent);
          UnregisterTabled(c, n.session, id, sent);
          ReadyShaped(n, OnUnregister(c, id, sent));
        }
      case Sweep(now) =>
        if n.stage.Ready? {
          ExpireKeeps(c.store, now);
          ExpireCurrent(c.store, g, now);
          ExpiryRemovesTheOverdue(c.store, now);
          DeadlineStore(c, now);
          SameTables(c, OnDeadline(c, now).client, n.session);
          ReadyShaped(n, OnDeadline(c, now));
        }
      case ServerReceives(listener, diagnostic) => ServerShaped(n, listener, diagnostic);
      case ServerSends(m) =>
        if m.Open? || m.Drain? { LabelledPush(n.toClient, Envelope(m, 0)); }
      case _ =>
    }
  }

  // ----- the situation of one Service

  /** `stranded` and `lost` come from the ledger; the rest is the state of the parties and the queues. */
  datatype Situation = Situation(
    status: Status,
    mentions: seq<Mention>,
    answers: seq<bool>,
    server: Option<Text>,
    stranded: bool,
    lost: bool)

  function SituationOf(n: Net, b: Book, i: ServiceId): Situation {
    Situation(StatusOf(n, i), Mentions(n.toServer, i), AnswersAbout(n.toClient, i), ServerName(n.table, i),
              Stranded(b.fates, i), RequestLost(i) in b.fates)
  }

  /** Replies about the Service that are on their way or still to be written. */
  function Due(v: Situation): nat {
    RegCount(v.mentions) + |v.answers|
  }

  /** The client forgets or buries, and nobody hears of it. */
  predicate Silent(v: Situation, w: Situation) {
    w == v.(status := w.status, lost := w.lost) && (v.lost ==> w.lost) && Fades(v.status, w.status, w.lost)
  }

  predicate Asks(v: Situation, w: Situation) {
    && w.mentions != []
    && var m := w.mentions[|w.mentions| - 1];
       && m.Reg? && w == v.(status := w.status, mentions := v.mentions + [m])
       && (v.status.Absent? || v.status.Buried?) && (w.status == Waiting(m.name) || w.status.Buried?)
  }

  predicate Withdraws(v: Situation, w: Situation) {
    && w == v.(status := w.status, mentions := v.mentions + [Unreg])
    && (w.status.Absent? || (w.status.Buried? && (v.status.Waiting? || v.status.Buried?)))
  }

  predicate Rules(v: Situation, w: Situation) {
    && v.mentions != [] && v.mentions[0].Reg?
    && (|| w == v.(mentions := v.mentions[1..], answers := v.answers + [false])
        || w == v.(mentions := v.mentions[1..], answers := v.answers + [true],
                   server := Some(v.mentions[0].name), stranded := false))
  }

  predicate Forgets(v: Situation, w: Situation) {
    && v.mentions != [] && v.mentions[0].Unreg?
    && w == v.(mentions := v.mentions[1..], server := None, stranded := false)
  }

  predicate Commits(v: Situation, w: Situation) {
    && v.answers != [] && v.answers[0] && v.status.Waiting?
    && w == v.(status := Live(v.status.name), answers := v.answers[1..])
  }

  /**
   An acknowledgement nobody wants: the clean-up is sent, or it is lost and the server may be left with the Service.
   */
  predicate CleansUp(v: Situation, w: Situation) {
    && v.answers != [] && v.answers[0] && (v.status.Waiting? || v.status.Buried?)
    && (|| w == v.(status := Absent, answers := v.answers[1..], mentions := v.mentions + [Unreg])
        || w == v.(status := Absent, answers := v.answers[1..], stranded := v.server.Some?))
  }

  /** Only a correlated rejection finds a tombstone. */
  predicate Declines(v: Situation, w: Situation, correlated: bool) {
    && v.answers != [] && !v.answers[0] && (v.status.Waiting? || (correlated && v.status.Buried?))
    && w == v.(status := Absent, answers := v.answers[1..])
  }

  /** A generic error is taken by whatever is pending, this Service or another. */
  predicate Mistakes(v: Situation, w: Situation) {
    && v.answers != [] && !v.answers[0]
    && w == v.(status := w.status, answers := v.answers[1..])
    && (w.status == v.status || (v.status.Waiting? && w.status.Absent?))
  }

  predicate Next(v: Situation, w: Situation, correlated: bool) {
    || Silent(v, w) || Asks(v, w) || Withdraws(v, w) || Rules(v, w) || Forgets(v, w)
    || Commits(v, w) || CleansUp(v, w) || Declines(v, w, correlated) || (!correlated && Mistakes(v, w))
  }

  // ----- what every edge keeps

  /**
   Whatever the server has of a Service that is neither stranded nor about to be unregistered is live at the client,
   or its acknowledgement is on the way.
   */
  predicate Pinned(v: Situation) {
    v.server.Some? && !v.stranded && Unreg !in v.mentions ==> true in v.answers || v.status.Live?
  }

  /**
   A waiting registration is the last the server hears of its Service. A live Service without a reply still due is on
   the server under its own name. A tombstone without a reply due was left by a lost request.
   */
  predicate Settling(v: Situation) {
    match v.status
    case Absent => true
    case Live(name) => Due(v) > 0 || (v.mentions == [] && v.server == Some(name) && !v.stranded)
    case Waiting(name) =>
      || (v.mentions != [] && v.mentions[|v.mentions| - 1] == Reg(name))
      || (v.mentions == [] && v.answers != []
          && (v.answers[|v.answers| - 1] ==> v.server == Some(name) && !v.stranded))
    case Buried => Due(v) > 0 || v.lost
  }

  lemma {:induction false} NextPinned(v: Situation, w: Situation, correlated: bool)
    requires Next(v, w, correlated) && Pinned(v)
    ensures Pinned(w)
  {
    if Rules(v, w) || Forgets(v, w) {
      assert v.mentions == [v.mentions[0]] + v.mentions[1..];
    }
    if v.answers != [] {
      assert v.answers == [v.answers[0]] + v.answers[1..];
    }
  }

  lemma {:induction false} WaitingIsDue(v: Situation)
    requires Settling(v) && v.status.Waiting?
    ensures Due(v) > 0
  {
    if v.mentions != [] { LastCounts(v.mentions); }
  }

  lemma {:induction false} SpokenSettling(v: Situation, w: Situation)
    requires (Silent(v, w) || Asks(v, w) || Withdraws(v, w)) && Settling(v)
    ensures Settling(w)
  {
    if v.status.Waiting? { WaitingIsDue(v); }
    if Withdraws(v, w) {
      RegCountAppend(v.mentions, Unreg);
    } else if Asks(v, w) {
      RegCountAppend(v.mentions, w.mentions[|w.mentions| - 1]);
    }
  }

  lemma {:induction false} ServedSettling(v: Situation, w: Situation)
    requires (Rules(v, w) || Forgets(v, w)) && Settling(v)
    ensures Settling(w)
  {
    if v.status.Waiting? { WaitingIsDue(v); }
  }

  lemma {:induction false} AnsweredSettling(v: Situation, w: Situation)
    requires (Commits(v, w) || CleansUp(v, w) || Declines(v, w, true)) && Settling(v)
    ensures Settling(w)
  {
    if Commits(v, w) && v.mentions != [] { LastCounts(v.mentions); }
  }

  lemma {:induction false} NextSettling(v: Situation, w: Situation)
    requires Next(v, w, true) && Settling(v)
    ensures Settling(w)
  {
    hide Settling, Silent, Asks, Withdraws, Rules, Forgets, Commits, CleansUp, Declines, Mistakes;
    if Silent(v, w) || Asks(v, w) || Withdraws(v, w) {
      SpokenSettling(v, w);
    } else if Rules(v, w) || Forgets(v, w) {
      ServedSettling(v, w);
    } else {
      AnsweredSettling(v, w);
    }
  }

  // ----- every step takes every Service along an edge

  /** The ledger's acceptances are the server's table, and nothing is stranded before the Session is ready. */
  ghost predicate Booked(n: Net, b: Book) {
    && (forall i :: i in n.table.services <==> Kept(b.fates, i))
    && (n.stage.Registering? ==> forall i :: !Stranded(b.fates, i) && RequestLost(i) !in b.fates)
  }

  lemma {:induction false} StrandedIsKept(fates: seq<Fate>, i: ServiceId)
    ensures Stranded(fates, i) ==> Kept(fates, i)
  {
    if fates == [] {
    } else {
      StrandedIsKept(fates[..|fates| - 1], i);
    }
  }

  /** What one more fate does to each Service. */
  lemma {:induction false} OneMoreFate(fates: seq<Fate>, f: Fate, i: ServiceId)
    ensures Kept(fates + [f], i) ==
      if f.Accepted? && f.id == i then true else if f.Unregistered? && f.id == i then false else Kept(fates, i)
    ensures Stranded(fates + [f], i) ==
      if f.id != i || f.RequestLost? then Stranded(fates, i) else f.CleanupLost? && Kept(fates, i)
    ensures RequestLost(i) in fates + [f] <==> RequestLost(i) in fates || f == RequestLost(i)
  {
    assert (fates + [f])[..|fates|] == fates;
    StrandedIsKept(fates, i);
  }

  lemma {:induction false} SameStatus(n: Net, n': Net, j: ServiceId)
    requires n'.stage == n.stage && n'.client == n.client
    ensures StatusOf(n', j) == StatusOf(n, j)
  {
    hide StoreStatus, InitialStatus;
  }

  lemma {:induction false} Stays(v: Situation, correlated: bool)
    ensures Next(v, v, correlated)
  {
  }

  lemma {:induction false} ServerNext(n: Net, b: Book, listener: Listener, diagnostic: Text, i: ServiceId)
    requires Shaped(n) && OnServerReceives(n, listener, diagnostic).up
    ensures
      var v := SituationOf(n, b, i);
      var w := SituationOf(OnServerReceives(n, listener, diagnostic), NoteRuling(b, n, listener), i);
      Next(v, w, Correlated(n))
  {
    hide Shaped, Next, SituationOf, Register;
    if n.toServer == [] {
      Stays(SituationOf(n, b, i), Correlated(n));
    } else if n.toServer[0].RegisterService? {
      RegistrationRuled(n, b, listener, diagnostic, i);
    } else if n.toServer[0].UnregisterService? {
      UnregistrationHeard(n, b, listener, diagnostic, i);
    } else {
      HeartbeatHeard(n, b, listener, diagnostic, i);
    }
  }

  lemma {:induction false} RegistrationRuled(n: Net, b: Book, listener: Listener, diagnostic: Text, i: ServiceId)
    requires Shaped(n) && n.toServer != [] && n.toServer[0].RegisterService?
    ensures
      var v := SituationOf(n, b, i);
      var w := SituationOf(OnServerReceives(n, listener, diagnostic), NoteRuling(b, n, listener), i);
      Next(v, w, Correlated(n))
  {
    var m := n.toServer[0];
    assert Consistent(n.table);
    RulingAnswered(n.table, n.maxServices, Correlated(n), m.serviceId, m.name, listener, diagnostic);
    hide Register, Rule, Carries, StatusOf, Consistent, Inv, Stranded, Kept, Next, Shaped;
    var r := Rule(n.table, n.maxServices, m.serviceId, m.name, listener);
    var answer := Register(n.table, n.maxServices, Correlated(n), m.serviceId, m.name, listener, diagnostic).1;
    var n', b' := OnServerReceives(n, listener, diagnostic), NoteRuling(b, n, listener);
    SameStatus(n, n', i);
    AnswersAppend(n.toClient, Envelope(answer, m.serviceId), i);
    if r.Granted? {
      OneMoreFate(b.fates, Accepted(m.serviceId), i);
    } else {
      assert b.fates + [] == b.fates;
    }
    assert Mentions(n.toServer, i) == MentionOf(m, i) + Mentions(n'.toServer, i);
    hide Mentions, AnswersAbout;
    var v, w := SituationOf(n, b, i), SituationOf(n', b', i);
    if i == m.serviceId {
      assert v.mentions[0] == Reg(m.name) && v.mentions[1..] == w.mentions;
      RulesNext(v, w, Correlated(n));
    } else {
      assert w == v;
      Stays(v, Correlated(n));
    }
  }

  lemma {:induction false} RulesNext(v: Situation, w: Situation, correlated: bool)
    requires Rules(v, w)
    ensures Next(v, w, correlated)
  {
  }

  lemma {:induction false} UnregistrationHeard(n: Net, b: Book, listener: Listener, diagnostic: Text, i: ServiceId)
    requires n.toServer != [] && n.toServer[0].UnregisterService?
    ensures
      var v := SituationOf(n, b, i);
      var w := SituationOf(OnServerReceives(n, listener, diagnostic), NoteRuling(b, n, listener), i);
      Next(v, w, Correlated(n))
  {
    hide StatusOf, Stranded, Kept, Next;
    var n', b' := OnServerReceives(n, listener, diagnostic), NoteRuling(b, n, listener);
    SameStatus(n, n', i);
    OneMoreFate(b.fates, Unregistered(n.toServer[0].serviceId), i);
    var v, w := SituationOf(n, b, i), SituationOf(n', b', i);
    if i == n.toServer[0].serviceId {
      assert v.mentions[0] == Unreg && v.mentions[1..] == w.mentions;
      ForgetsNext(v, w, Correlated(n));
    } else {
      assert w == v;
      Stays(v, Correlated(n));
    }
  }

  lemma {:induction false} ForgetsNext(v: Situation, w: Situation, correlated: bool)
    requires Forgets(v, w)
    ensures Next(v, w, correlated)
  {
  }

  lemma {:induction false} HeartbeatHeard(n: Net, b: Book, listener: Listener, diagnostic: Text, i: ServiceId)
    requires n.toServer != [] && !n.toServer[0].RegisterService? && !n.toServer[0].UnregisterService?
    requires OnServerReceives(n, listener, diagnostic).up
    ensures SituationOf(OnServerReceives(n, listener, diagnostic), NoteRuling(b, n, listener), i) ==
      SituationOf(n, b, i)
    ensures Next(SituationOf(n, b, i), SituationOf(n, b, i), Correlated(n))
  {
    hide StatusOf, Stranded, Next, Register, Removed, Rule;
    var m := n.toServer[0];
    SameStatus(n, OnServerReceives(n, listener, diagnostic), i);
    if m.Ping? { AnswersAppend(n.toClient, Envelope(Pong(m.nonce), 0), i); }
    Stays(SituationOf(n, b, i), Correlated(n));
  }

  // ----- the initial registrations

  lemma {:induction false} NotYetRegistered(desired: seq<Service>, done: nat)
    requires DesiredDistinct(desired) && done < |desired|
    ensures desired[done].id !in ById(desired[..done])
  {
    ByIdKey(desired[..done], desired[done].id);
  }

  lemma {:induction false} AsksNext(v: Situation, w: Situation, correlated: bool)
    requires Asks(v, w)
    ensures Next(v, w, correlated)
  {
  }

  lemma {:induction false} InitialSendNext(n: Net, b: Book, i: ServiceId)
    requires Shaped(n)
    ensures Next(SituationOf(n, b, i), SituationOf(OnSendInitial(n), NoteInitial(b, n), i), Correlated(n))
  {
    hide Next, Stranded;
    var n' := OnSendInitial(n);
    var v, w := SituationOf(n, b, i), SituationOf(n', NoteInitial(b, n), i);
    if n' == n {
      Stays(v, Correlated(n));
    } else {
      var done, desired := n.stage.done, n.client.store.desired;
      var service := desired[done];
      NotYetRegistered(desired, done);
      hide Shaped, ById;
      MentionsAppend(n.toServer, Registration(service), i);
      if i == service.id {
        assert w.mentions == v.mentions + [Reg(service.name)];
        AsksNext(v, w, Correlated(n));
      } else {
        assert w == v;
        Stays(v, Correlated(n));
      }
    }
  }

  lemma {:induction false} CommitsNext(v: Situation, w: Situation, correlated: bool)
    requires Commits(v, w)
    ensures Next(v, w, correlated)
  {
  }

  /** The step that takes the head of the client's queue in the course of the initial registrations. */
  function InitialReceived(n: Net): Net
    requires n.toClient != []
  {
    OnInitialAnswer(n.(toClient := n.toClient[1..]), n.toClient[0].message)
  }

  lemma {:induction false} InitialAnswerNext(n: Net, b: Book, i: ServiceId)
    requires Shaped(n) && n.up && n.toClient != [] && n.stage.Registering? && n.stage.awaiting && InitialReceived(n).up
    ensures Next(SituationOf(n, b, i), SituationOf(InitialReceived(n), b, i), Correlated(n))
  {
    hide Next, Stranded;
    var e := n.toClient[0];
    var n' := InitialReceived(n);
    var done, desired := n.stage.done, n.client.store.desired;
    var service := desired[done];
    assert e.about == service.id && e.message.RegisterAck?;
    NotYetRegistered(desired, done);
    assert desired[..done + 1] == desired[..done] + [service];
    ByIdGrows(desired[..done], service);
    hide Shaped, ById;
    var v, w := SituationOf(n, b, i), SituationOf(n', b, i);
    if i == service.id {
      assert v.answers == [true] + w.answers && v.answers[1..] == w.answers;
      CommitsNext(v, w, Correlated(n));
    } else {
      assert w == v;
      Stays(v, Correlated(n));
    }
  }

  lemma {:induction false} ActivateNext(n: Net, b: Book, i: ServiceId)
    requires Shaped(n)
    ensures Next(SituationOf(n, b, i), SituationOf(OnActivate(n), b, i), Correlated(n))
  {
    hide Next, Stranded, Mentions, AnswersAbout;
    if OnActivate(n) != n {
      assert n.client.store.desired[..n.stage.done] == n.client.store.desired;
    }
    hide Inv, BindsMatch, ById, Labelled, Consistent;
    assert SituationOf(OnActivate(n), b, i) == SituationOf(n, b, i);
    Stays(SituationOf(n, b, i), Correlated(n));
  }

  // ----- the ready loop

  lemma {:induction false} SilentNext(v: Situation, w: Situation, correlated: bool)
    requires Silent(v, w)
    ensures Next(v, w, correlated)
  {
  }

  lemma {:induction false} WithdrawsNext(v: Situation, w: Situation, correlated: bool)
    requires Withdraws(v, w)
    ensures Next(v, w, correlated)
  {
  }

  lemma {:induction false} SubmitNext(n: Net, b: Book, service: Service, reply: Reply, closed: set<Reply>,
                                      write: Write, i: ServiceId)
    requires Shaped(n) && n.stage.Ready?
    requires OnRegister(n.client, n.generation, n.limit, service, reply, closed, write).verdict.Continue?
    ensures
      var h := OnRegister(n.client, n.generation, n.limit, service, reply, closed, write);
      var v := SituationOf(n, b, i);
      var w := SituationOf(Settled(n, h), NoteSubmit(b, n, service, reply, closed, write), i);
      Next(v, w, Correlated(n))
  {
    hide Next, Shaped, Inv, Apart, OfGeneration, OnRegister, StoreStatus, Stranded, AnswerBegin, Unacknowledged;
    ReadyApart(n);
    RegisterFades(n.client, n.generation, n.limit, service, reply, closed, write, i);
    var h := OnRegister(n.client, n.generation, n.limit, service, reply, closed, write);
    var n', b' := Settled(n, h), NoteSubmit(b, n, service, reply, closed, write);
    var v, w := SituationOf(n, b, i), SituationOf(n', b', i);
    if h.sent == [] {
      assert n.toServer + [] == n.toServer;
      OneMoreFate(b.fates, RequestLost(service.id), i);
      SilentNext(v, w, Correlated(n));
    } else {
      MentionsAppend(n.toServer, Registration(service), i);
      if i == service.id {
        assert w.mentions == v.mentions + [Reg(service.name)];
        AsksNext(v, w, Correlated(n));
      } else {
        SilentNext(v, w, Correlated(n));
      }
    }
  }

  lemma {:induction false} WithdrawNext(n: Net, b: Book, id: ServiceId, sent: bool, i: ServiceId)
    requires Shaped(n) && n.stage.Ready? && OnUnregister(n.client, id, sent).verdict.Continue?
    ensures Next(SituationOf(n, b, i), SituationOf(Settled(n, OnUnregister(n.client, id, sent)), b, i), Correlated(n))
  {
    hide Next, Shaped, Inv, Apart, OfGeneration, OnUnregister, Unregister, Stranded;
    ReadyApart(n);
    var s := n.client.store;
    UnregisterStore(n.client, id, sent);
    UnregisterSends(n.client, id, sent);
    UnregisterFades(s, id, i);
    var n' := Settled(n, OnUnregister(n.client, id, sent));
    var v, w := SituationOf(n, b, i), SituationOf(n', b, i);
    if sent {
      MentionsAppend(n.toServer, UnregisterService(id), i);
      if i == id { WithdrawsNext(v, w, Correlated(n)); } else { SilentNext(v, w, Correlated(n)); }
    } else {
      assert n.toServer + [] == n.toServer;
      SilentNext(v, w, Correlated(n));
    }
  }

  /** A withdrawal whose write is lost ends the Session if the Service was active. */
  lemma {:induction false} UnregisterSends(c: Client, id: ServiceId, sent: bool)
    ensures
      var h := OnUnregister(c, id, sent);
      h.sent == (if sent then [UnregisterService(id)] else [])
        && (h.verdict.Continue? <==> sent || id !in c.store.active)
  {
    hide Unregister;
  }

  lemma {:induction false} SweepNext(n: Net, b: Book, now: nat, i: ServiceId)
    requires Shaped(n) && n.stage.Ready? && OnDeadline(n.client, now).verdict.Continue?
    ensures Next(SituationOf(n, b, i), SituationOf(Settled(n, OnDeadline(n.client, now)), b, i), Correlated(n))
  {
    hide Next, Shaped, Inv, Apart, OfGeneration, OnDeadline, ExpireOverdue, StoreStatus, StoreSlots, Stranded;
    ReadyApart(n);
    ExpireEffect(n.client, now);
    ExpireFades(n.client.store, now, i);
    DeadlineStore(n.client, now);
    var n' := Settled(n, OnDeadline(n.client, now));
    assert n.toServer + [] == n.toServer;
    SilentNext(SituationOf(n, b, i), SituationOf(n', b, i), Correlated(n));
  }

  /** The step that takes the head of the client's queue in a ready Session. */
  function Received(n: Net, closed: set<Reply>, cleanupSent: bool): Net
    requires n.toClient != []
  {
    Settled(n.(toClient := n.toClient[1..]),
            OnMessage(n.client, n.session, n.generation, n.toClient[0].message, closed, cleanupSent))
  }

  ghost predicate Receiving(n: Net, closed: set<Reply>, cleanupSent: bool) {
    && Shaped(n) && n.up && n.stage.Ready? && n.toClient != []
    && OnMessage(n.client, n.session, n.generation, n.toClient[0].message, closed, cleanupSent).verdict.Continue?
  }

  lemma {:induction false} CleansUpNext(v: Situation, w: Situation, correlated: bool)
    requires CleansUp(v, w)
    ensures Next(v, w, correlated)
  {
  }

  lemma {:induction false} DeclinesNext(v: Situation, w: Situation, correlated: bool)
    requires Declines(v, w, correlated) || (!correlated && Mistakes(v, w))
    ensures Next(v, w, correlated)
  {
  }

  /** The head of the client's queue was an acknowledgement about `id`, and the store took it. */
  ghost predicate Absorbs(n: Net, n': Net, id: ServiceId, to: Status) {
    && n.stage.Ready? && n.toClient != [] && n.toClient[0].about == id && n.toClient[0].message.RegisterAck?
    && n' == n.(client := n'.client, toClient := n.toClient[1..], toServer := n'.toServer)
    && Consumed(n.client.store, n'.client.store, id, to)
  }

  lemma {:induction false} AbsorbsAnswer(n: Net, n': Net, b: Book, b': Book, id: ServiceId, to: Status, i: ServiceId)
    requires Absorbs(n, n', id, to)
    ensures
      var v, w := SituationOf(n, b, i), SituationOf(n', b', i);
      && w.server == v.server
      && (i != id ==> w.status == v.status && w.answers == v.answers)
      && (i == id ==>
            && (v.status.Waiting? || v.status.Buried?) && w.status == to
            && v.answers != [] && v.answers[0] && w.answers == v.answers[1..])
  {
    hide StoreStatus, StoreSlots, Stranded, Mentions;
  }

  lemma {:induction false} CommitNext(n: Net, n': Net, b: Book, id: ServiceId, i: ServiceId)
    requires StoreStatus(n.client.store, id).Waiting? && n'.toServer == n.toServer
    requires Absorbs(n, n', id, Live(StoreStatus(n.client.store, id).name))
    ensures Next(SituationOf(n, b, i), SituationOf(n', b, i), Correlated(n))
  {
    AbsorbsAnswer(n, n', b, b, id, Live(StoreStatus(n.client.store, id).name), i);
    hide Next, StoreStatus, Stranded, Mentions, AnswersAbout, Consumed;
    var v, w := SituationOf(n, b, i), SituationOf(n', b, i);
    if i == id {
      CommitsNext(v, w, Correlated(n));
    } else {
      assert w == v;
      Stays(v, Correlated(n));
    }
  }

  lemma {:induction false} CleanupNext(n: Net, n': Net, b: Book, b': Book, id: ServiceId, sent: bool, i: ServiceId)
    requires Absorbs(n, n', id, Absent) && (i in n.table.services <==> Kept(b.fates, i))
    requires n'.toServer == n.toServer + if sent then [UnregisterService(id)] else []
    requires b'.fates == b.fates + if sent then [] else [CleanupLost(id)]
    ensures Next(SituationOf(n, b, i), SituationOf(n', b', i), Correlated(n))
  {
    AbsorbsAnswer(n, n', b, b', id, Absent, i);
    hide Next, StatusOf, Stranded, Kept, AnswersAbout, Consumed;
    if sent {
      assert b.fates + [] == b.fates;
      MentionsAppend(n.toServer, UnregisterService(id), i);
    } else {
      assert n.toServer + [] == n.toServer;
      OneMoreFate(b.fates, CleanupLost(id), i);
    }
    var v, w := SituationOf(n, b, i), SituationOf(n', b', i);
    if i == id {
      CleansUpNext(v, w, Correlated(n));
    } else {
      assert w == v;
      Stays(v, Correlated(n));
    }
  }

  /** What becomes of a Service whose acknowledgement is taken off the queue. */
  function Became(n: Net, closed: set<Reply>): Status
    requires n.toClient != [] && n.toClient[0].message.RegisterAck?
    requires StoreStatus(n.client.store, n.toClient[0].message.serviceId).Waiting?
             || TakeAck(n.client.store, n.toClient[0].message.serviceId, n.generation, closed).1.AckAbandoned?
  {
    var id := n.toClient[0].message.serviceId;
    if TakeAck(n.client.store, id, n.generation, closed).1.AckAbandoned? then Absent
    else Live(StoreStatus(n.client.store, id).name)
  }

  lemma {:induction false} AckTaken(n: Net, closed: set<Reply>, cleanupSent: bool)
    requires Receiving(n, closed, cleanupSent) && n.toClient[0].message.RegisterAck?
    ensures
      var n', id := Received(n, closed, cleanupSent), n.toClient[0].message.serviceId;
      var abandoned := TakeAck(n.client.store, id, n.generation, closed).1.AckAbandoned?;
      && (StoreStatus(n.client.store, id).Waiting? || abandoned) && Absorbs(n, n', id, Became(n, closed))
      && n'.toServer == n.toServer + (if abandoned && cleanupSent then [UnregisterService(id)] else [])
  {
    ReadyApart(n);
    var e := n.toClient[0];
    assert e.about == e.message.serviceId;
    hide OnAck, TakeAck, Shaped, Inv, Apart, OfGeneration, StoreStatus, Consumed;
    AckEffect(n.client, n.session, n.generation, e.message.serviceId, e.message.effectiveBind, closed, cleanupSent);
  }

  lemma {:induction false} AckNext(n: Net, b: Book, closed: set<Reply>, cleanupSent: bool, i: ServiceId)
    requires Receiving(n, closed, cleanupSent) && n.toClient[0].message.RegisterAck? && Booked(n, b)
    ensures
      var w := SituationOf(Received(n, closed, cleanupSent), NoteReply(b, n, closed, cleanupSent), i);
      Next(SituationOf(n, b, i), w, Correlated(n))
  {
    AckTaken(n, closed, cleanupSent);
    var id := n.toClient[0].message.serviceId;
    assert i in n.table.services <==> Kept(b.fates, i);
    hide Next, OnMessage, TakeAck, Shaped, Booked, StoreStatus, Absorbs, Kept, SituationOf, Received;
    var n', b' := Received(n, closed, cleanupSent), NoteReply(b, n, closed, cleanupSent);
    assert b.fates + [] == b.fates && n.toServer + [] == n.toServer;
    if TakeAck(n.client.store, id, n.generation, closed).1.AckAbandoned? {
      CleanupNext(n, n', b, b', id, cleanupSent, i);
    } else {
      CommitNext(n, n', b, id, i);
    }
  }

  lemma {:induction false} RejectNext(n: Net, b: Book, closed: set<Reply>, cleanupSent: bool, i: ServiceId)
    requires Receiving(n, closed, cleanupSent) && n.toClient[0].message.RegisterReject?
    ensures Next(SituationOf(n, b, i), SituationOf(Received(n, closed, cleanupSent), b, i), Correlated(n))
  {
    ReadyApart(n);
    var e := n.toClient[0];
    var id := e.message.serviceId;
    assert e.about == id;
    hide Next, OnReject, Shaped, Inv, Apart, OfGeneration, StoreStatus, StoreSlots, Stranded;
    RejectEffect(n.client, n.generation, id, e.message.code);
    var n' := Received(n, closed, cleanupSent);
    assert n.toServer + [] == n.toServer;
    var v, w := SituationOf(n, b, i), SituationOf(n', b, i);
    if i != id {
      assert w == v;
      Stays(v, Correlated(n));
    } else {
      assert v.answers == [false] + w.answers && v.answers[1..] == w.answers;
      DeclinesNext(v, w, Correlated(n));
    }
  }

  /** The state after an error was taken by the pending registration of `id`. */
  ghost predicate TakesError(n: Net, n': Net, id: ServiceId) {
    && n.stage.Ready? && n.toClient != [] && n.toClient[0].message.Error? && !Correlated(n)
    && n' == n.(client := n'.client, toClient := n.toClient[1..])
    && StoreStatus(n.client.store, id).Waiting? && Consumed(n.client.store, n'.client.store, id, Absent)
  }

  lemma {:induction false} ErrorTaken(n: Net, closed: set<Reply>, cleanupSent: bool)
    requires Receiving(n, closed, cleanupSent) && n.toClient[0].message.Error?
    ensures n.client.store.pending.Some?
    ensures TakesError(n, Received(n, closed, cleanupSent), n.client.store.pending.value.service.id)
  {
    ReadyApart(n);
    hide OnError, Shaped, Inv, Apart, OfGeneration, StoreStatus, Consumed;
    ErrorEffect(n.client, n.toClient[0].message.code);
    assert n.toServer + [] == n.toServer;
  }

  lemma {:induction false} TakesErrorNext(n: Net, n': Net, b: Book, id: ServiceId, i: ServiceId)
    requires TakesError(n, n', id)
    ensures Next(SituationOf(n, b, i), SituationOf(n', b, i), false)
  {
    hide Next, StoreStatus, StoreSlots, Stranded, Mentions;
    var v, w := SituationOf(n, b, i), SituationOf(n', b, i);
    assert w.status == v.status || (v.status.Waiting? && w.status.Absent?);
    assert v.answers == AnswerOf(n.toClient[0], i) + w.answers;
    hide Consumed, StatusOf, AnswersAbout;
    if i == n.toClient[0].about {
      assert v.answers[1..] == w.answers;
      DeclinesNext(v, w, false);
    } else {
      SilentNext(v, w, false);
    }
  }

  lemma {:induction false} ErrorNext(n: Net, b: Book, closed: set<Reply>, cleanupSent: bool, i: ServiceId)
    requires Receiving(n, closed, cleanupSent) && n.toClient[0].message.Error?
    ensures Next(SituationOf(n, b, i), SituationOf(Received(n, closed, cleanupSent), b, i), Correlated(n))
  {
    ErrorTaken(n, closed, cleanupSent);
    hide Receiving, Received, SituationOf, Next, StoreStatus, Consumed;
    TakesErrorNext(n, Received(n, closed, cleanupSent), b, n.client.store.pending.value.service.id, i);
  }

  lemma {:induction false} OtherNext(n: Net, b: Book, closed: set<Reply>, cleanupSent: bool, i: ServiceId)
    requires Receiving(n, closed, cleanupSent) && !IsReply(n.toClient[0].message)
    ensures Next(SituationOf(n, b, i), SituationOf(Received(n, closed, cleanupSent), b, i), Correlated(n))
  {
    hide Next, Shaped, StatusOf, Stranded, OnAck, OnReject, OnError;
    var n' := Received(n, closed, cleanupSent);
    assert n.toServer + [] == n.toServer;
    SameStatus(n, n', i);
    assert SituationOf(n', b, i) == SituationOf(n, b, i);
    Stays(SituationOf(n, b, i), Correlated(n));
  }

  lemma {:induction false} ReceiveNext(n: Net, b: Book, closed: set<Reply>, cleanupSent: bool, i: ServiceId)
    requires Receiving(n, closed, cleanupSent) && Booked(n, b)
    ensures
      var w := SituationOf(Received(n, closed, cleanupSent), NoteReply(b, n, closed, cleanupSent), i);
      Next(SituationOf(n, b, i), w, Correlated(n))
  {
    hide Next, Shaped, OnMessage, Received, Booked, SituationOf, TakeAck;
    var m := n.toClient[0].message;
    if m.RegisterAck? {
      AckNext(n, b, closed, cleanupSent, i);
    } else if m.RegisterReject? {
      RejectNext(n, b, closed, cleanupSent, i);
    } else if m.Error? {
      ErrorNext(n, b, closed, cleanupSent, i);
    } else {
      OtherNext(n, b, closed, cleanupSent, i);
    }
  }

  lemma {:induction false} TrafficNext(n: Net, b: Book, m: Message, i: ServiceId)
    ensures !m.RegisterService? && !m.UnregisterService? ==>
      SituationOf(n.(toServer := n.toServer + [m]), b, i) == SituationOf(n, b, i)
    ensures !IsReply(m) ==> SituationOf(n.(toClient := n.toClient + [Envelope(m, 0)]), b, i) == SituationOf(n, b, i)
    ensures Next(SituationOf(n, b, i), SituationOf(n, b, i), Correlated(n))
  {
    hide Next, StatusOf, Stranded;
    MentionsAppend(n.toServer, m, i);
    AnswersAppend(n.toClient, Envelope(m, 0), i);
    SameStatus(n, n.(toServer := n.toServer + [m]), i);
    SameStatus(n, n.(toClient := n.toClient + [Envelope(m, 0)]), i);
    Stays(SituationOf(n, b, i), Correlated(n));
  }

  /** Whatever the step, whatever is lost: every Service moves along an edge. */
  lemma {:induction false} StepNext(n: Net, b: Book, step: Protocol.Step, i: ServiceId)
    requires n.up && Shaped(n) && Booked(n, b) && Apply(n, step).up
    ensures Next(SituationOf(n, b, i), SituationOf(Apply(n, step), Noted(b, n, step), i), Correlated(n))
  {
    hide Next, Shaped, Booked, SituationOf, OnServerReceives, OnSendInitial, OnActivate, OnInitialAnswer, OnRegister,
      OnUnregister, OnMessage, OnDeadline, NoteInitial, NoteSubmit, NoteRuling, TakeAck;
    Stays(SituationOf(n, b, i), Correlated(n));
    match step
    case SendInitial => InitialSendNext(n, b, i);
    case Activate => ActivateNext(n, b, i);
    case ClientReceives(closed, cleanupSent) =>
      if n.toClient != [] {
        if n.stage.Ready? {
          ReceiveNext(n, b, closed, cleanupSent, i);
        } else if n.stage.awaiting {
          InitialAnswerNext(n, b, i);
        }
      }
    case Submit(service, reply, closed, write) =>
      if n.stage.Ready? { SubmitNext(n, b, service, reply, closed, write, i); }
    case Withdraw(id, sent) =>
      if n.stage.Ready? { WithdrawNext(n, b, id, sent, i); }
    case Sweep(now) =>
      if n.stage.Ready? { SweepNext(n, b, now, i); }
    case ClientSends(m) => TrafficNext(n, b, m, i);
    case ServerReceives(listener, diagnostic) => ServerNext(n, b, listener, diagnostic, i);
    case ServerSends(m) => TrafficNext(n, b, m, i);
    case Stop =>
  }

  /** The ledger goes on saying what the server has, and strands or loses nothing. */
  ghost predicate StillBooked(n: Net, n': Net, b: Book, b': Book, i: ServiceId) {
    && (i in n'.table.services <==> Kept(b'.fates, i))
    && (Stranded(b'.fates, i) ==> Stranded(b.fates, i))
    && (RequestLost(i) in b'.fates ==> RequestLost(i) in b.fates)
  }

  lemma {:induction false} ServerBooked(n: Net, b: Book, listener: Listener, diagnostic: Text, i: ServiceId)
    requires Shaped(n) && (i in n.table.services <==> Kept(b.fates, i))
    ensures StillBooked(n, OnServerReceives(n, listener, diagnostic), b, NoteRuling(b, n, listener), i)
  {
    hide Register, Rule, Stranded, Kept, Shaped;
    if n.toServer != [] {
      if n.toServer[0].RegisterService? {
        RulingBooked(n, b, listener, diagnostic, i);
      } else if n.toServer[0].UnregisterService? {
        OneMoreFate(b.fates, Unregistered(n.toServer[0].serviceId), i);
      }
    }
  }

  lemma {:induction false} RulingBooked(n: Net, b: Book, listener: Listener, diagnostic: Text, i: ServiceId)
    requires Shaped(n) && (i in n.table.services <==> Kept(b.fates, i))
    requires n.toServer != [] && n.toServer[0].RegisterService?
    ensures StillBooked(n, OnServerReceives(n, listener, diagnostic), b, NoteRuling(b, n, listener), i)
  {
    var m := n.toServer[0];
    assert Consistent(n.table);
    hide Register, Rule, Carries, Consistent, Inv, Stranded, Kept, Shaped;
    RulingAnswered(n.table, n.maxServices, Correlated(n), m.serviceId, m.name, listener, diagnostic);
    if Rule(n.table, n.maxServices, m.serviceId, m.name, listener).Granted? {
      OneMoreFate(b.fates, Accepted(m.serviceId), i);
    } else {
      assert b.fates + [] == b.fates;
    }
  }

  lemma {:induction false} StepBooked(n: Net, b: Book, step: Protocol.Step)
    requires n.up && Shaped(n) && Booked(n, b) && Apply(n, step).up
    ensures Booked(Apply(n, step), Noted(b, n, step))
  {
    hide Shaped, OnRegister, OnUnregister, OnMessage, OnDeadline, TakeAck, AnswerBegin, Register, Rule, Removed,
      Stranded, Kept, OnServerReceives, NoteRuling;
    var n', b' := Apply(n, step), Noted(b, n, step);
    if step.ServerReceives? {
      forall i
        ensures i in n'.table.services <==> Kept(b'.fates, i)
        ensures Stranded(b'.fates, i) ==> Stranded(b.fates, i)
        ensures RequestLost(i) in b'.fates ==> RequestLost(i) in b.fates
      {
        ServerBooked(n, b, step.listener, step.diagnostic, i);
      }
      assert n'.stage == n.stage by { ServerStage(n, step.listener, step.diagnostic); }
    } else if b'.fates != b.fates {
      var f := b'.fates[|b.fates|];
      assert b'.fates == b.fates + [f] && (f.CleanupLost? || f.RequestLost?);
      forall i ensures Kept(b'.fates, i) == Kept(b.fates, i) { OneMoreFate(b.fates, f, i); }
    }
  }

  lemma {:induction false} ServerStage(n: Net, listener: Listener, diagnostic: Text)
    ensures OnServerReceives(n, listener, diagnostic).stage == n.stage
  {
    hide Register, Removed;
  }

  /** Shape, ledger and the two facts about each Service, which only the correlated mode keeps both of. */
  ghost predicate Sound(n: Net, b: Book) {
    && Shaped(n) && Booked(n, b)
    && (forall i :: Pinned(SituationOf(n, b, i)))
    && (Correlated(n) ==> forall i :: Settling(SituationOf(n, b, i)))
  }

  lemma {:induction false} StepMode(n: Net, step: Protocol.Step)
    requires Shaped(n) && Apply(n, step).up
    ensures Correlated(Apply(n, step)) == Correlated(n)
  {
    hide Inv, Labelled, Consistent, Tabled, OfGeneration, Apart, OnRegister, OnMessage, OnUnregister, OnDeadline,
      ExpireOverdue, Unregister, StoreSlots, Unmoved, Moved, Register, Removed, ById;
    if n.stage.Ready? { ReadyApart(n); }
    match step
    case Submit(service, reply, closed, write) =>
      if n.stage.Ready? { RegisterEffect(n.client, n.generation, n.limit, service, reply, closed, write); }
    case Withdraw(id, sent) =>
      UnregisterStore(n.client, id, sent);
      UnregisterForm(n.client.store, id);
    case Sweep(now) => ExpireEffect(n.client, now);
    case ClientReceives(closed, sent) =>
      if n.toClient != []
        && n.stage.Ready? { MessageMode(n.client, n.session, n.generation, n.toClient[0].message, closed, sent); }
    case _ =>
  }

  lemma {:induction false} MessageMode(c: Client, session: SessionId, g: nat, m: Message, closed: set<Reply>,
                                       sent: bool)
    ensures OnMessage(c, session, g, m, closed, sent).client.store.mode == c.store.mode
  {
    hide Settle, TakeTransaction, RegistrationErrorCode;
    if m.RegisterAck? { TakeMode(c.store, m.serviceId); } else if m.RegisterReject? { TakeMode(c.store, m.serviceId); }
  }

  lemma {:induction false} StepSound(n: Net, b: Book, step: Protocol.Step)
    requires n.up && Sound(n, b) && Apply(n, step).up
    ensures Sound(Apply(n, step), Noted(b, n, step))
  {
    hide Shaped, Booked, Apply, Noted, SituationOf, Next, Pinned, Settling, Correlated;
    var n', b' := Apply(n, step), Noted(b, n, step);
    StepShaped(n, step);
    StepBooked(n, b, step);
    StepMode(n, step);
    forall i
      ensures Pinned(SituationOf(n', b', i))
      ensures Correlated(n) ==> Settling(SituationOf(n', b', i))
    {
      StepNext(n, b, step, i);
      NextPinned(SituationOf(n, b, i), SituationOf(n', b', i), Correlated(n));
      if Correlated(n) { NextSettling(SituationOf(n, b, i), SituationOf(n', b', i)); }
    }
  }
}
