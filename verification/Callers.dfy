/** Whose answer a caller gets: every reply is traced back to the registration it rules on. */
module Callers {
  import opened Wire
  import opened ServiceStore
  import opened ServiceStoreProofs
  import opened ReadyLoop
  import opened ClientLifeProofs
  import opened ClientHistory
  import opened ServerControl
  import opened Protocol
  import opened Ledger
  import opened ProtocolProofs
  import opened Situations
  import opened LegacyReplies
  import opened Agreement

  // ----- requests and replies in order

  function RegIdOf(m: Message): seq<ServiceId> {
    if m.RegisterService? then [m.serviceId] else []
  }

  function RegIds(q: seq<Message>): seq<ServiceId> {
    if q == [] then [] else RegIdOf(q[0]) + RegIds(q[1..])
  }

  function ReplyOf(e: Envelope): seq<Envelope> {
    if IsReply(e.message) then [e] else []
  }

  function ReplyList(q: seq<Envelope>): seq<Envelope> {
    if q == [] then [] else ReplyOf(q[0]) + ReplyList(q[1..])
  }

  /** The request that the next reply rules on. */
  function Front(n: Net, b: Book): int {
    |b.ruled| - |ReplyList(n.toClient)|
  }

  predicate Answers(e: Envelope, q: Request, r: Ruling) {
    e.about == q.id && Carries(e.message, r)
  }

  /** Requests wait for their ruling, and rulings for their reader, in the order in which they were asked. */
  ghost predicate InOrder(n: Net, b: Book) {
    && |b.ruled| + |RegIds(n.toServer)| == |b.asked|
    && (forall p :: 0 <= p < |RegIds(n.toServer)| ==> RegIds(n.toServer)[p] == b.asked[|b.ruled| + p].id)
    && 0 <= Front(n, b)
    && (forall p :: 0 <= p < |ReplyList(n.toClient)| ==>
          Answers(ReplyList(n.toClient)[p], b.asked[Front(n, b) + p], b.ruled[Front(n, b) + p]))
  }

  lemma {:induction false} RegIdsAppend(q: seq<Message>, m: Message)
    ensures RegIds(q + [m]) == RegIds(q) + RegIdOf(m)
  {
    hide RegIdOf;
    if q == [] {
      assert q + [m] == [m];
      assert RegIds([m]) == RegIdOf(m) + [];
    } else {
      assert (q + [m])[1..] == q[1..] + [m];
      RegIdsAppend(q[1..], m);
    }
  }

  lemma {:induction false} ReplyListAppend(q: seq<Envelope>, e: Envelope)
    ensures ReplyList(q + [e]) == ReplyList(q) + ReplyOf(e)
  {
    hide ReplyOf;
    if q == [] {
      assert q + [e] == [e];
      assert ReplyList([e]) == ReplyOf(e) + [];
    } else {
      assert (q + [e])[1..] == q[1..] + [e];
      ReplyListAppend(q[1..], e);
    }
  }

  lemma {:induction false} AskInOrder(n: Net, b: Book, m: Message, reply: Option<Reply>)
    requires InOrder(n, b)
    ensures
      var b' := if m.RegisterService? then b.(asked := b.asked + [Request(m.serviceId, reply)]) else b;
      InOrder(n.(toServer := n.toServer + [m]), b')
  {
    hide Answers, ReplyList, RegIds;
    RegIdsAppend(n.toServer, m);
    var n' := n.(toServer := n.toServer + [m]);
    if m.RegisterService? {
      var b' := b.(asked := b.asked + [Request(m.serviceId, reply)]);
      assert forall j :: 0 <= j < |b.asked| ==> b'.asked[j] == b.asked[j];
      assert Front(n', b') == Front(n, b);
    } else {
      assert RegIds(n'.toServer) == RegIds(n.toServer);
      assert Front(n', b) == Front(n, b);
    }
  }

  lemma {:induction false} SameQueues(n: Net, n': Net, b: Book, b': Book)
    requires InOrder(n, b) && n'.toServer == n.toServer && n'.toClient == n.toClient
    requires b'.asked == b.asked && b'.ruled == b.ruled
    ensures InOrder(n', b')
  {
    hide Carries;
  }

  lemma {:induction false} PopInOrder(n: Net, b: Book)
    requires InOrder(n, b) && n.toClient != []
    ensures InOrder(n.(toClient := n.toClient[1..]), b)
  {
    hide Carries;
    var n' := n.(toClient := n.toClient[1..]);
    var before, rest := ReplyList(n.toClient), ReplyList(n'.toClient);
    assert IsReply(n.toClient[0].message) ==> before[1..] == rest;
    forall p | 0 <= p < |rest| ensures Answers(rest[p], b.asked[Front(n', b) + p], b.ruled[Front(n', b) + p]) {
      if IsReply(n.toClient[0].message) { assert rest[p] == before[p + 1]; } else { assert rest[p] == before[p]; }
    }
  }

  lemma {:induction false} PushInOrder(n: Net, b: Book, e: Envelope)
    requires InOrder(n, b) && !IsReply(e.message)
    ensures InOrder(n.(toClient := n.toClient + [e]), b)
  {
    hide Carries;
    ReplyListAppend(n.toClient, e);
  }

  lemma {:induction false} RulingInOrder(n: Net, n': Net, b: Book, b': Book, answer: Message, r: Ruling)
    requires InOrder(n, b) && n.toServer != [] && n.toServer[0].RegisterService?
    requires IsReply(answer) && Carries(answer, r)
    requires n'.toServer == n.toServer[1..]
    requires n'.toClient == n.toClient + [Envelope(answer, n.toServer[0].serviceId)]
    requires b'.asked == b.asked && b'.ruled == b.ruled + [r]
    ensures InOrder(n', b')
  {
    hide Carries;
    var e := Envelope(answer, n.toServer[0].serviceId);
    ReplyListAppend(n.toClient, e);
    var before, rest := RegIds(n.toServer), RegIds(n'.toServer);
    assert before == [n.toServer[0].serviceId] + rest;
    hide RegIds, ReplyList;
    assert b.asked[|b.ruled| + 0].id == before[0];
    forall p | 0 <= p < |rest| ensures rest[p] == b'.asked[|b'.ruled| + p].id {
      assert rest[p] == before[p + 1] && before[p + 1] == b.asked[|b.ruled| + (p + 1)].id;
    }
    assert Answers(e, b.asked[|b.ruled|], r);
    var replies := ReplyList(n'.toClient);
    assert Front(n', b') == Front(n, b);
    forall p | 0 <= p < |replies| ensures Answers(replies[p], b'.asked[Front(n, b) + p], b'.ruled[Front(n, b) + p]) {
      if p < |replies| - 1 { assert replies[p] == ReplyList(n.toClient)[p]; }
    }
  }

  lemma {:induction false} ServerInOrder(n: Net, b: Book, listener: Listener, diagnostic: Text)
    requires InOrder(n, b) && Shaped(n) && OnServerReceives(n, listener, diagnostic).up
    ensures InOrder(OnServerReceives(n, listener, diagnostic), NoteRuling(b, n, listener))
  {
    if n.toServer == [] {
    } else if n.toServer[0].RegisterService? {
      var m := n.toServer[0];
      assert Consistent(n.table);
      hide InOrder, Shaped, Register, Rule, Carries, Consistent, Removed;
      RulingAnswered(n.table, n.maxServices, Correlated(n), m.serviceId, m.name, listener, diagnostic);
      var (table, answer) := Register(n.table, n.maxServices, Correlated(n), m.serviceId, m.name, listener, diagnostic);
      RulingInOrder(n, OnServerReceives(n, listener, diagnostic), b, NoteRuling(b, n, listener), answer,
                    Rule(n.table, n.maxServices, m.serviceId, m.name, listener));
    } else {
      QuietServerInOrder(n, b, listener, diagnostic);
    }
  }

  lemma {:induction false} QuietServerInOrder(n: Net, b: Book, listener: Listener, diagnostic: Text)
    requires InOrder(n, b) && n.toServer != [] && !n.toServer[0].RegisterService?
    requires OnServerReceives(n, listener, diagnostic).up
    ensures InOrder(OnServerReceives(n, listener, diagnostic), NoteRuling(b, n, listener))
  {
    hide InOrder, Removed;
    var m := n.toServer[0];
    var n1 := n.(toServer := n.toServer[1..]);
    DropInOrder(n, b);
    if m.Ping? {
      PushInOrder(n1, b, Envelope(Pong(m.nonce), 0));
    } else {
      SameQueues(n1, OnServerReceives(n, listener, diagnostic), b, NoteRuling(b, n, listener));
    }
  }

  lemma {:induction false} DropInOrder(n: Net, b: Book)
    requires InOrder(n, b) && n.toServer != [] && !n.toServer[0].RegisterService?
    ensures InOrder(n.(toServer := n.toServer[1..]), b)
  {
    hide Carries;
    assert RegIds(n.toServer) == RegIds(n.toServer[1..]);
  }

  /** A handler that sends nothing, or one message of which the ledger knows. */
  lemma {:induction false} SettledInOrder(n: Net, b: Book, h: Handled, reply: Option<Reply>)
    requires InOrder(n, b) && h.verdict.Continue? && |h.sent| <= 1
    ensures
      var asks := h.sent != [] && h.sent[0].RegisterService?;
      var b' := if asks then b.(asked := b.asked + [Request(h.sent[0].serviceId, reply)]) else b;
      forall fates :: InOrder(Settled(n, h), b'.(fates := fates))
  {
    var n1 := n.(toServer := n.toServer + h.sent);
    var asks := h.sent != [] && h.sent[0].RegisterService?;
    var b' := if asks then b.(asked := b.asked + [Request(h.sent[0].serviceId, reply)]) else b;
    assert InOrder(n1, b') by {
      if h.sent == [] { assert n1 == n; } else { AskInOrder(n, b, h.sent[0], reply); assert h.sent == [h.sent[0]]; }
    }
    hide InOrder;
    forall fates ensures InOrder(Settled(n, h), b'.(fates := fates)) {
      SameQueues(n1, Settled(n, h), b', b'.(fates := fates));
    }
  }

  lemma {:induction false} MessageSends(c: Client, session: SessionId, g: nat, m: Message, closed: set<Reply>,
                                        sent: bool)
    ensures
      var h := OnMessage(c, session, g, m, closed, sent);
      |h.sent| <= 1 && (h.sent != [] ==> h.sent[0].UnregisterService?)
  {
    hide AnswerAck, AnswerReject, AnswerError, RegistrationErrorCode;
  }

  lemma {:induction false} RegisterSends(c: Client, g: nat, limit: nat, service: Service, reply: Reply,
                                         closed: set<Reply>, write: Write)
    ensures
      var h := OnRegister(c, g, limit, service, reply, closed, write);
      h.sent == [] || h.sent == [Registration(service)]
  {
    hide AnswerBegin, ArmDeadline, Abandon, FailLegacyWrite, Answer;
  }

  lemma {:induction false} StepInOrder(n: Net, b: Book, step: Protocol.Step)
    requires n.up && Shaped(n) && InOrder(n, b) && Apply(n, step).up
    ensures InOrder(Apply(n, step), Noted(b, n, step))
  {
    hide Shaped, InOrder, OnServerReceives, OnActivate, OnInitialAnswer, OnRegister, OnUnregister, OnMessage,
      OnDeadline, NoteRuling, TakeAck, AnswerBegin, Settled;
    match step
    case SendInitial => InitialInOrder(n, b);
    case Activate => assert InOrder(OnActivate(n), b) by { ActivateInOrder(n, b); }
    case ClientReceives(closed, cleanupSent) =>
      if n.toClient != [] {
        PopInOrder(n, b);
        var n1 := n.(toClient := n.toClient[1..]);
        if n.stage.Ready? {
          var m := n.toClient[0].message;
          MessageSends(n.client, n.session, n.generation, m, closed, cleanupSent);
          ContinuesOrEnds(n1, OnMessage(n.client, n.session, n.generation, m, closed, cleanupSent));
          SettledInOrder(n1, b, OnMessage(n.client, n.session, n.generation, m, closed, cleanupSent), None);
        } else {
          AnswerInOrder(n1, b, n.toClient[0].message);
        }
      }
    case Submit(service, reply, closed, write) =>
      if n.stage.Ready? {
        RegisterSends(n.client, n.generation, n.limit, service, reply, closed, write);
        ContinuesOrEnds(n, OnRegister(n.client, n.generation, n.limit, service, reply, closed, write));
        SettledInOrder(n, b, OnRegister(n.client, n.generation, n.limit, service, reply, closed, write), Some(reply));
      }
    case Withdraw(id, sent) =>
      if n.stage.Ready? {
        UnregisterSends(n.client, id, sent);
        ContinuesOrEnds(n, OnUnregister(n.client, id, sent));
        SettledInOrder(n, b, OnUnregister(n.client, id, sent), None);
      }
    case Sweep(now) =>
      if n.stage.Ready? {
        ContinuesOrEnds(n, OnDeadline(n.client, now));
        assert OnDeadline(n.client, now).sent == [] by { DeadlineSends(n.client, now); }
        SettledInOrder(n, b, OnDeadline(n.client, now), None);
      }
    case ClientSends(m) => if !m.RegisterService? { AskInOrder(n, b, m, None); }
    case ServerReceives(listener, diagnostic) => ServerInOrder(n, b, listener, diagnostic);
    case ServerSends(m) => if !IsReply(m) { PushInOrder(n, b, Envelope(m, 0)); }
    case Stop =>
  }

  lemma {:induction false} ContinuesOrEnds(n: Net, h: Handled)
    ensures Settled(n, h).up ==> h.verdict.Continue?
  {
  }

  lemma {:induction false} DeadlineSends(c: Client, now: nat)
    ensures OnDeadline(c, now).sent == []
  {
    hide ExpireOverdue;
  }

  lemma {:induction false} InitialInOrder(n: Net, b: Book)
    requires InOrder(n, b)
    ensures InOrder(OnSendInitial(n), NoteInitial(b, n))
  {
    hide InOrder;
    if OnSendInitial(n) != n {
      var m := Registration(n.client.store.desired[n.stage.done]);
      AskInOrder(n, b, m, None);
      SameQueues(n.(toServer := n.toServer + [m]), OnSendInitial(n), NoteInitial(b, n), NoteInitial(b, n));
    }
  }

  lemma {:induction false} ActivateInOrder(n: Net, b: Book)
    requires InOrder(n, b)
    ensures InOrder(OnActivate(n), b)
  {
    hide InOrder;
    SameQueues(n, OnActivate(n), b, b);
  }

  lemma {:induction false} AnswerInOrder(n: Net, b: Book, m: Message)
    requires InOrder(n, b)
    ensures InOrder(OnInitialAnswer(n, m), b)
  {
    hide InOrder;
    SameQueues(n, OnInitialAnswer(n, m), b, b);
  }

  // ----- whose transaction

  /** The index of the last request for `i`, or -1. */
  function Latest(asked: seq<Request>, i: ServiceId): (k: int)
    ensures -1 <= k < |asked|
  {
    if asked == [] then -1
    else if asked[|asked| - 1].id == i then |asked| - 1
    else Latest(asked[..|asked| - 1], i)
  }

  lemma {:induction false} LatestMeaning(asked: seq<Request>, i: ServiceId, k: nat)
    requires k < |asked| && asked[k].id == i
    ensures k <= Latest(asked, i) && asked[Latest(asked, i)].id == i
    ensures k == Latest(asked, i) <==> forall j :: k < j < |asked| ==> asked[j].id != i
  {
    if asked[|asked| - 1].id == i {
    } else {
      LatestMeaning(asked[..|asked| - 1], i, k);
      assert forall j :: 0 <= j < |asked| - 1 ==> asked[..|asked| - 1][j] == asked[j];
    }
  }

  lemma {:induction false} LatestAppend(asked: seq<Request>, q: Request, i: ServiceId)
    ensures Latest(asked + [q], i) == if q.id == i then |asked| else Latest(asked, i)
  {
    assert (asked + [q])[..|asked|] == asked;
  }

  /** Every transaction belongs to the latest request for its Service; in legacy mode, to the latest request of all. */
  ghost predicate Owned(s: Store, asked: seq<Request>) {
    && (s.pending.Some? ==>
          asked != [] && asked[|asked| - 1] == Request(s.pending.value.service.id, s.pending.value.reply))
    && (forall k :: k in s.inFlight ==>
          Latest(asked, k) >= 0 && asked[Latest(asked, k)] == Request(k, s.inFlight[k].reply))
  }

  /** No transaction is new. */
  ghost predicate NoneNew(s: Store, t: Store) {
    && (t.pending.Some? ==> s.pending.Some? && t.pending.value.service == s.pending.value.service
                            && t.pending.value.reply == s.pending.value.reply)
    && (forall k :: k in t.inFlight ==> k in s.inFlight && t.inFlight[k].reply == s.inFlight[k].reply)
  }

  lemma {:induction false} NoneNewOwned(s: Store, t: Store, asked: seq<Request>)
    requires Owned(s, asked) && NoneNew(s, t)
    ensures Owned(t, asked)
  {
  }

  lemma {:induction false} MessageNoneNew(c: Client, session: SessionId, g: nat, m: Message, closed: set<Reply>,
                                          sent: bool)
    ensures NoneNew(c.store, OnMessage(c, session, g, m, closed, sent).client.store)
  {
    hide AnswerAck, AnswerReject, RegistrationErrorCode, Settle;
    match m
    case RegisterAck(id, bind) => AckNoneNew(c.store, id, g, closed, bind);
    case RegisterReject(id, code, _) => RejectNoneNew(c.store, id, g, RegistrationErrorCode(code));
    case _ =>
  }

  lemma {:induction false} AckNoneNew(s: Store, id: ServiceId, g: nat, closed: set<Reply>, bind: EffectiveBind)
    ensures NoneNew(s, AnswerAck(s, id, g, closed, bind).0)
  {
    hide AnswerAck, TakeTransaction;
    AckForm(s, id, g, closed, bind);
    TakenNoneNew(s, id);
  }

  lemma {:induction false} RejectNoneNew(s: Store, id: ServiceId, g: nat, e: TunnelError)
    ensures NoneNew(s, AnswerReject(s, id, g, e).0)
  {
    hide AnswerReject, TakeTransaction;
    RejectForm(s, id, g, e);
    TakenNoneNew(s, id);
  }

  lemma {:induction false} TakenNoneNew(s: Store, id: ServiceId)
    ensures NoneNew(s, TakeTransaction(s, id).0)
  {
  }

  lemma {:induction false} WithdrawNoneNew(s: Store, id: ServiceId, now: nat)
    ensures NoneNew(s, Unregister(s, id)) && NoneNew(s, ExpireOverdue(s, now).0)
  {
    hide Unregister, ExpireOverdue, Without, Tombstone;
    UnregisterForm(s, id);
    ExpiryRemovesTheOverdue(s, now);
  }

  /** A registration command adds at most its own transaction, and only if it asks. */
  ghost predicate OneNew(s: Store, t: Store, service: Service, reply: Reply) {
    && (t.pending.Some? ==>
          t.pending.value.service.id == service.id && t.pending.value.reply == Some(reply))
    && (forall k :: k in t.inFlight ==>
          if k == service.id then t.inFlight[k].reply == Some(reply)
          else k in s.inFlight && t.inFlight[k].reply == s.inFlight[k].reply)
  }

  lemma {:induction false} SameNoneNew(s: Store, t: Store)
    requires t.pending == s.pending && t.inFlight == s.inFlight
    ensures NoneNew(s, t)
  {
  }

  lemma {:induction false} SlotOneNew(s: Store, t: Store, service: Service, reply: Reply, txn: Txn)
    requires txn.service == service && txn.reply == Some(reply)
    requires || (t.pending == Some(txn) && t.inFlight == map[])
             || (t.pending == None && t.inFlight == s.inFlight[service.id := txn])
    ensures OneNew(s, t, service, reply)
  {
  }

  lemma {:induction false} BeginOneNew(s: Store, service: Service, g: nat, reply: Reply)
    requires Inv(s)
    ensures
      var (t, accepted) := AnswerBegin(s, service, g, reply);
      if accepted then OneNew(s, t, service, reply) else NoneNew(s, t)
  {
    assert s.mode.LegacySerial? ==> s.inFlight == map[];
    assert s.mode.CorrelatedBounded? ==> s.pending == None;
    hide Begin, Inv, Ceiling, Settle, Refuses, OneNew, NoneNew;
    BeginForm(s, service, g, reply);
    var t := AnswerBegin(s, service, g, reply).0;
    match Begin(s, service, g, reply).1
    case Some(_) => SameNoneNew(s, t);
    case None => SlotOneNew(s, t, service, reply, Txn(service, g, Some(reply), None));
  }

  lemma {:induction false} RegisterOneNew(c: Client, g: nat, limit: nat, service: Service, reply: Reply,
                                          closed: set<Reply>, write: Write)
    requires Inv(c.store)
    ensures
      var h := OnRegister(c, g, limit, service, reply, closed, write);
      h.verdict.Continue? ==>
        if h.sent != [] then OneNew(c.store, h.client.store, service, reply) else NoneNew(c.store, h.client.store)
  {
    hide Inv, AnswerBegin, ArmDeadline, Abandon, FailLegacyWrite, Registration, Unacknowledged, Settle;
    BeginOneNew(c.store, service, g, reply);
    var (t, accepted) := AnswerBegin(c.store, service, g, reply);
    if accepted {
      match write
      case Written(deadline) => ArmForm(t, service.id, deadline);
      case WriteFailed =>
      case WriteTimedOut(_) =>
        if t.mode.CorrelatedBounded? {
          BeginKeeps(c.store, service, g, reply);
          AbandonLess(t, service.id);
        }
    }
  }

  lemma {:induction false} AbandonLess(s: Store, id: ServiceId)
    requires Inv(s) && s.mode.CorrelatedBounded?
    ensures Abandon(s, id).pending == None && Abandon(s, id).inFlight == s.inFlight - {id}
  {
    hide Settle, Tombstone, Clash, Ceiling;
    if id !in s.inFlight { assert s.inFlight - {id} == s.inFlight; }
  }

  lemma {:induction false} OneNewOwned(s: Store, t: Store, service: Service, reply: Reply, asked: seq<Request>)
    requires Owned(s, asked) && OneNew(s, t, service, reply)
    ensures Owned(t, asked + [Request(service.id, Some(reply))])
  {
    var q := Request(service.id, Some(reply));
    forall k | k in t.inFlight
      ensures Latest(asked + [q], k) >= 0 && (asked + [q])[Latest(asked + [q], k)] == Request(k, t.inFlight[k].reply)
    {
      LatestAppend(asked, q, k);
    }
  }

  lemma {:induction false} StepOwned(n: Net, b: Book, step: Protocol.Step)
    requires n.up && Shaped(n) && Owned(n.client.store, b.asked) && Apply(n, step).up
    ensures Owned(Apply(n, step).client.store, Noted(b, n, step).asked)
  {
    hide Inv, Labelled, Consistent, Tabled, OfGeneration, Owned, OnRegister, OnMessage, OnUnregister, OnDeadline,
      ExpireOverdue, Unregister, Register, Rule, Removed, ById, TakeAck, AnswerBegin, BindsMatch;
    var s, t := n.client.store, Apply(n, step).client.store;
    match step
    case SendInitial => NothingOwned(t, Noted(b, n, step).asked);
    case Activate => if n.stage.Registering? { NothingOwned(t, b.asked); }
    case ClientReceives(closed, sent) =>
      if n.toClient != [] && n.stage.Ready? {
        MessageNoneNew(n.client, n.session, n.generation, n.toClient[0].message, closed, sent);
        NoneNewOwned(s, t, b.asked);
      }
    case Submit(service, reply, closed, write) =>
      if n.stage.Ready? {
        RegisterSends(n.client, n.generation, n.limit, service, reply, closed, write);
        RegisterOneNew(n.client, n.generation, n.limit, service, reply, closed, write);
        if OnRegister(n.client, n.generation, n.limit, service, reply, closed, write).sent == [] {
          NoneNewOwned(s, t, b.asked);
        } else {
          OneNewOwned(s, t, service, reply, b.asked);
        }
      }
    case Withdraw(id, sent) =>
      if n.stage.Ready? {
        UnregisterStore(n.client, id, sent);
        WithdrawNoneNew(s, id, 0);
        NoneNewOwned(s, t, b.asked);
      }
    case Sweep(now) =>
      if n.stage.Ready? {
        DeadlineStore(n.client, now);
        WithdrawNoneNew(s, 0, now);
        NoneNewOwned(s, t, b.asked);
      }
    case _ =>
  }

  lemma {:induction false} NothingOwned(s: Store, asked: seq<Request>)
    ensures s.pending == None && s.inFlight == map[] ==> Owned(s, asked)
  {
  }

  // ----- what the caller is told

  /** The transaction that a reply settles. */
  function SettledBy(s: Store, m: Message): Option<Txn> {
    match m
    case RegisterAck(id, _) => TakeTransaction(s, id).1
    case RegisterReject(id, _, _) => TakeTransaction(s, id).1
    case Error(_, _) => s.pending
    case _ => None
  }

  /** The one settled by the head of the client's queue. */
  function Settles(n: Net): Option<Txn>
    requires n.toClient != []
  {
    SettledBy(n.client.store, n.toClient[0].message)
  }

  /** One reply is still due: in legacy mode of all, in correlated mode of those about the Service. */
  predicate OnlyOneDue(n: Net, b: Book, id: ServiceId) {
    (if Correlated(n) then Due(SituationOf(n, b, id)) else Owed(n)) == 1
  }

  /** A caller that has gone by the time its Service is granted hears nothing. */
  function Heard(r: Ruling, reply: Option<Reply>, closed: set<Reply>): Outcome {
    if r.Granted? && (reply.None? || reply.value in closed) then Dropped else Told(r)
  }

  ghost predicate Traced(n: Net, b: Book) {
    Shaped(n) && InOrder(n, b) && Owned(n.client.store, b.asked)
  }

  lemma {:induction false} QueueSizes(q: seq<Message>, r: seq<Envelope>)
    ensures |RegIds(q)| == Regs(q) && |ReplyList(r)| == Replies(r)
    decreases |q| + |r|
  {
    if q == [] && r == [] {
    } else if q == [] {
      QueueSizes(q, r[1..]);
    } else {
      QueueSizes(q[1..], r);
    }
  }

  lemma {:induction false} NoneMentioned(q: seq<Message>, i: ServiceId)
    ensures RegCount(Mentions(q, i)) == 0 <==> i !in RegIds(q)
  {
    if q == [] {
    } else {
      NoneMentioned(q[1..], i);
      var first, rest := MentionOf(q[0], i), Mentions(q[1..], i);
      assert Mentions(q, i) == first + rest;
      if first == [] {
        assert first + rest == rest;
      } else {
        assert first + rest == [first[0]] + rest && ([first[0]] + rest)[1..] == rest;
      }
    }
  }

  lemma {:induction false} NoneAnswered(q: seq<Envelope>, i: ServiceId)
    ensures AnswersAbout(q, i) == [] <==> forall e :: e in ReplyList(q) ==> e.about != i
  {
    if q == [] {
    } else {
      NoneAnswered(q[1..], i);
      assert ReplyList(q) == ReplyOf(q[0]) + ReplyList(q[1..]);
      if IsReply(q[0].message) { assert q[0] in ReplyList(q); }
      assert forall e :: e in ReplyList(q[1..]) ==> e in ReplyList(q);
    }
  }

  /** Requests after the one now answered are the ones whose replies are queued behind it or still to be written. */
  lemma {:induction false} Behind(n: Net, b: Book, i: ServiceId)
    requires InOrder(n, b) && n.toClient != [] && IsReply(n.toClient[0].message)
    ensures 0 <= Front(n, b) < |b.ruled| <= |b.asked| && b.asked[Front(n, b)].id == n.toClient[0].about
    ensures (exists j :: Front(n, b) < j < |b.asked| && b.asked[j].id == i) <==>
      i in RegIds(n.toServer) || exists e :: e in ReplyList(n.toClient[1..]) && e.about == i
  {
    hide Carries;
    var k := Front(n, b);
    var replies, rest := ReplyList(n.toClient), ReplyList(n.toClient[1..]);
    assert replies == [n.toClient[0]] + rest;
    assert Answers(replies[0], b.asked[k + 0], b.ruled[k + 0]);
    if j :| k < j < |b.asked| && b.asked[j].id == i {
      if j < |b.ruled| {
        assert Answers(replies[j - k], b.asked[k + (j - k)], b.ruled[k + (j - k)]) && replies[j - k] == rest[j - k - 1];
        assert rest[j - k - 1] in rest;
      } else {
        assert RegIds(n.toServer)[j - |b.ruled|] == b.asked[|b.ruled| + (j - |b.ruled|)].id;
      }
    }
    if i in RegIds(n.toServer) {
      var p :| 0 <= p < |RegIds(n.toServer)| && RegIds(n.toServer)[p] == i;
      assert b.asked[|b.ruled| + p].id == i;
    }
    if e :| e in rest && e.about == i {
      var p :| 0 <= p < |rest| && rest[p] == e;
      assert replies[p + 1] == e && Answers(replies[p + 1], b.asked[k + (p + 1)], b.ruled[k + (p + 1)]);
      assert b.asked[k + p + 1].id == i;
    }
  }

  /** Nothing more is due about a Service exactly if no request for it comes after the one now answered. */
  lemma {:induction false} LastOfItsService(n: Net, b: Book, i: ServiceId)
    requires InOrder(n, b) && n.toClient != [] && IsReply(n.toClient[0].message) && n.toClient[0].about == i
    ensures 0 <= Front(n, b) < |b.ruled| <= |b.asked| && b.asked[Front(n, b)].id == i
    ensures Due(SituationOf(n, b, i)) == 1 <==> forall j :: Front(n, b) < j < |b.asked| ==> b.asked[j].id != i
  {
    Behind(n, b, i);
    NoneMentioned(n.toServer, i);
    NoneAnswered(n.toClient[1..], i);
    hide InOrder, StatusOf, Stranded, Mentions;
    assert AnswersAbout(n.toClient, i) == AnswerOf(n.toClient[0], i) + AnswersAbout(n.toClient[1..], i);
    hide AnswersAbout;
  }

  lemma {:induction false} OwnIsLatest(n: Net, b: Book, txn: Txn)
    requires Traced(n, b) && n.stage.Ready? && n.toClient != [] && IsReply(n.toClient[0].message)
    requires Settles(n) == Some(txn)
    ensures
      var k, own := Front(n, b), Latest(b.asked, txn.service.id);
      0 <= k <= own < |b.asked| && k < |b.ruled| && b.asked[own].reply == txn.reply
      && (Correlated(n) || n.toClient[0].message.Error? || n.toClient[0].about == txn.service.id)
      && (k == own <==> OnlyOneDue(n, b, txn.service.id))
  {
    hide Shaped;
    var s, e := n.client.store, n.toClient[0];
    var k, own := Front(n, b), Latest(b.asked, txn.service.id);
    LastOfItsService(n, b, e.about);
    QueueSizes(n.toServer, n.toClient);
    assert Replies(n.toClient) > 0;
    assert if Correlated(n) then s.pending == None
      && (txn.service.id in s.inFlight && s.inFlight[txn.service.id] == txn)
           else s.inFlight == map[] && s.pending == Some(txn) by { Whose(n, txn); }
    assert !e.message.Error? ==> e.about == txn.service.id by { Whose(n, txn); }
    hide InOrder, Answers, SituationOf, Due;
    if Correlated(n) {
      LatestMeaning(b.asked, txn.service.id, k);
    } else {
      LatestMeaning(b.asked, txn.service.id, |b.asked| - 1);
      assert own == |b.asked| - 1;
    }
  }

  lemma {:induction false} Whose(n: Net, txn: Txn)
    requires Shaped(n) && n.stage.Ready? && n.toClient != [] && Settles(n) == Some(txn)
    ensures if Correlated(n) then
              && n.client.store.pending == None && !n.toClient[0].message.Error?
              && txn.service.id in n.client.store.inFlight && n.client.store.inFlight[txn.service.id] == txn
            else n.client.store.inFlight == map[] && n.client.store.pending == Some(txn)
    ensures !n.toClient[0].message.Error? ==> n.toClient[0].about == txn.service.id
  {
    hide Clash, Ceiling, Tabled, OfGeneration, Consistent;
  }

  lemma {:induction false} AckHeard(c: Client, session: SessionId, g: nat, id: ServiceId, bind: EffectiveBind,
                                    closed: set<Reply>, written: bool, txn: Txn)
    requires OfGeneration(c.store, g) && TakeTransaction(c.store, id).1 == Some(txn)
    ensures OnAck(c, session, g, id, bind, closed, written).client.store.answers ==
      Settle(c.store.answers, Channel(txn.reply), Heard(Granted(bind), txn.reply, closed))
  {
    hide Settle, TakeTransaction, OfGeneration, AnswerAck;
    AckAnswers(c.store, id, g, closed, bind);
    TakeCurrent(c.store, g, id);
  }

  lemma {:induction false} RefusalHeard(c: Client, g: nat, id: ServiceId, code: u16, txn: Txn, o: Outcome)
    requires OfGeneration(c.store, g) && o == Failed(RegistrationErrorCode(code))
    ensures TakeTransaction(c.store, id).1 == Some(txn) && OnReject(c, g, id, code).verdict.Continue? ==>
      OnReject(c, g, id, code).client.store.answers == Settle(c.store.answers, Channel(txn.reply), o)
    ensures c.store.pending == Some(txn) ==>
      OnError(c, code).client.store.answers == Settle(c.store.answers, Channel(txn.reply), o)
  {
    hide Settle, TakeTransaction, OfGeneration, AnswerReject, RegistrationErrorCode;
    RejectAnswers(c.store, id, g, RegistrationErrorCode(code));
    TakeCurrent(c.store, g, id);
  }

  lemma {:induction false} MessageHeard(c: Client, session: SessionId, g: nat, m: Message, closed: set<Reply>,
                                        written: bool, txn: Txn, r: Ruling)
    requires OfGeneration(c.store, g) && IsReply(m) && Carries(m, r) && SettledBy(c.store, m) == Some(txn)
    requires OnMessage(c, session, g, m, closed, written).verdict.Continue?
    ensures OnMessage(c, session, g, m, closed, written).client.store.answers ==
      Settle(c.store.answers, Channel(txn.reply), Heard(r, txn.reply, closed))
  {
    hide TakeTransaction, Settle, OnAck, OnReject, OnError, OfGeneration, RegistrationErrorCode;
    match m
    case RegisterAck(id, bind) => AckHeard(c, session, g, id, bind, closed, written, txn);
    case RegisterReject(id, code, _) => RefusalHeard(c, g, id, code, txn, Told(r));
    case Error(code, _) => RefusalHeard(c, g, 0, code, txn, Told(r));
  }

  lemma {:induction false} HeadCarries(n: Net, b: Book)
    requires InOrder(n, b) && n.toClient != [] && IsReply(n.toClient[0].message)
    ensures 0 <= Front(n, b) < |b.ruled| && Carries(n.toClient[0].message, b.ruled[Front(n, b)])
  {
    Behind(n, b, 0);
    hide Carries;
    assert ReplyList(n.toClient)[0] == n.toClient[0];
    assert Answers(ReplyList(n.toClient)[0], b.asked[Front(n, b) + 0], b.ruled[Front(n, b) + 0]);
  }

  lemma {:induction false} SettledWith(n: Net, b: Book, txn: Txn, closed: set<Reply>, cleanupSent: bool)
    requires Receiving(n, closed, cleanupSent) && InOrder(n, b) && IsReply(n.toClient[0].message)
    requires Settles(n) == Some(txn)
    ensures 0 <= Front(n, b) < |b.ruled|
    ensures Received(n, closed, cleanupSent).client.store.answers ==
      Settle(n.client.store.answers, Channel(txn.reply), Heard(b.ruled[Front(n, b)], txn.reply, closed))
  {
    ReadyApart(n);
    hide Shaped, InOrder, Inv, Apart, OfGeneration, OnMessage, Carries, SettledBy, Settle, Heard;
    HeadCarries(n, b);
    MessageHeard(n.client, n.session, n.generation, n.toClient[0].message, closed, cleanupSent, txn,
                 b.ruled[Front(n, b)]);
  }

  lemma {:induction false} StepTraced(n: Net, b: Book, step: Protocol.Step)
    requires n.up && Traced(n, b) && Apply(n, step).up
    ensures Traced(Apply(n, step), Noted(b, n, step))
  {
    hide Shaped, InOrder, Owned, Apply, Noted;
    StepShaped(n, step);
    StepInOrder(n, b, step);
    StepOwned(n, b, step);
  }

  lemma {:induction false} EveryRunTraced(n: Net, b: Book, steps: seq<Protocol.Step>)
    requires n.up && Traced(n, b)
    ensures Run(n, steps).up ==> Traced(Run(n, steps), Notes(b, n, steps))
    decreases |steps|
  {
    hide Traced, Apply, Noted;
    if steps == [] {
    } else {
      var n1 := Apply(n, steps[0]);
      if n1.up {
        StepTraced(n, b, steps[0]);
        EveryRunTraced(n1, Noted(b, n, steps[0]), steps[1..]);
      } else {
        DownStaysDown(n1, steps[1..]);
      }
    }
  }

  lemma {:induction false} BegunTraced(s: Store, mode: Mode, session: SessionId, generation: nat, limit: nat, max: nat)
    requires DesiredDistinct(s.desired)
    ensures Traced(Begun(s, mode, session, generation, limit, max), BLANK)
  {
    hide Settle, Held;
    BegunHolds(s, mode, session, generation, limit, max);
    hide Inv;
  }

  /** The client takes a reply off its queue that settles a transaction, and goes on. */
  ghost predicate Hearing(n: Net, closed: set<Reply>, cleanupSent: bool) {
    && n.up && n.stage.Ready? && n.toClient != [] && IsReply(n.toClient[0].message) && Settles(n).Some?
    && Apply(n, ClientReceives(closed, cleanupSent)).up
  }

  /**
   The caller of the transaction is told, once, the ruling on the request that the reply belongs to; that is the
   caller's own request if and only if one reply is still due.
   */
  ghost predicate HearsARuling(n: Net, b: Book, closed: set<Reply>, cleanupSent: bool)
    requires Hearing(n, closed, cleanupSent)
  {
    var txn := Settles(n).value;
    var k, own := Front(n, b), Latest(b.asked, txn.service.id);
    && 0 <= k <= own < |b.asked| && k < |b.ruled| && b.asked[own].reply == txn.reply
    && Apply(n, ClientReceives(closed, cleanupSent)).client.store.answers ==
         Settle(n.client.store.answers, Channel(txn.reply), Heard(b.ruled[k], txn.reply, closed))
    && (k == own <==> OnlyOneDue(n, b, txn.service.id))
  }

  lemma {:induction false} TracedHears(n: Net, b: Book, closed: set<Reply>, cleanupSent: bool)
    requires Traced(n, b) && Hearing(n, closed, cleanupSent)
    ensures HearsARuling(n, b, closed, cleanupSent)
  {
    hide Shaped, InOrder, Owned, OnMessage, SituationOf, Settle, Settles, Heard, OnlyOneDue;
    OwnIsLatest(n, b, Settles(n).value);
    SettledWith(n, b, Settles(n).value, closed, cleanupSent);
  }

  /**
   In every run, whatever is lost, and whenever a reply settles a transaction: its caller hears a ruling of the server,
   as the bind or as the right reason, and it is the ruling on its own request if and only if one reply is still due,
   of all in legacy mode and about the Service in correlated mode. Otherwise it is the ruling on an earlier request.
   */
  lemma {:induction false} CallersHearRulings(s: Store, mode: Mode, session: SessionId, generation: nat, limit: nat,
                                              max: nat, steps: seq<Protocol.Step>, closed: set<Reply>,
                                                cleanupSent: bool)
    requires DesiredDistinct(s.desired)
    ensures
      var start := Begun(s, mode, session, generation, limit, max);
      var n := Run(start, steps);
      Hearing(n, closed, cleanupSent) ==> HearsARuling(n, Notes(BLANK, start, steps), closed, cleanupSent)
  {
    var start := Begun(s, mode, session, generation, limit, max);
    BegunTraced(s, mode, session, generation, limit, max);
    assert start.up;
    hide Begun;
    EveryRunTraced(start, BLANK, steps);
    var n := Run(start, steps);
    if Hearing(n, closed, cleanupSent) {
      hide Run, Notes, Traced, HearsARuling;
      TracedHears(n, Notes(BLANK, start, steps), closed, cleanupSent);
    }
  }

  lemma {:induction false} UndoomedIsOwn(n: Net, b: Book, txn: Txn)
    requires Traced(n, b) && Accounted(n, b) && !Correlated(n) && !Doomed(n, b)
    requires n.stage.Ready? && n.toClient != [] && IsReply(n.toClient[0].message) && Settles(n) == Some(txn)
    ensures Front(n, b) == Latest(b.asked, txn.service.id) && n.toClient[0].about == txn.service.id
  {
    var e := n.toClient[0];
    OwnIsLatest(n, b, txn);
    Whose(n, txn);
    LastOfItsService(n, b, e.about);
    var v := SituationOf(n, b, e.about);
    assert Healthy(v) && v.answers != [] && v.answers[0] == e.message.RegisterAck?;
    ReadyApart(n);
    if !e.message.RegisterAck? { assert v.status.Waiting?; OnlyOnePending(n.client.store, e.about); }
    PlaceStatus(n.client.store, txn.service.id);
    hide Shaped, InOrder, Inv, Apart, StoreStatus, Accounted, Doomed, Stranded;
    assert v.status.Waiting? && e.about == txn.service.id;
    assert Due(v) == 1;
    LatestMeaning(b.asked, e.about, Front(n, b));
  }

  /** In legacy mode no caller hears another's ruling while the Session is not doomed. */
  lemma {:induction false} UndoomedCallersHearTheirOwn(s: Store, session: SessionId, generation: nat, limit: nat,
                                                       max: nat, steps: seq<Protocol.Step>, closed: set<Reply>,
                                                       cleanupSent: bool)
    requires DesiredDistinct(s.desired)
    ensures
      var start := Begun(s, LegacySerial, session, generation, limit, max);
      var n, b := Run(start, steps), Notes(BLANK, start, steps);
      Hearing(n, closed, cleanupSent) && !Doomed(n, b) ==>
        Front(n, b) == Latest(b.asked, Settles(n).value.service.id)
          && n.toClient[0].about == Settles(n).value.service.id
  {
    var start := Begun(s, LegacySerial, session, generation, limit, max);
    BegunTraced(s, LegacySerial, session, generation, limit, max);
    BegunHolds(s, LegacySerial, session, generation, limit, max);
    assert start.up && !Correlated(start);
    hide Begun;
    EveryRunTraced(start, BLANK, steps);
    EveryRunHolds(start, BLANK, steps);
    var n, b := Run(start, steps), Notes(BLANK, start, steps);
    if Hearing(n, closed, cleanupSent) && !Doomed(n, b) {
      hide Run, Notes, Traced, Sound, Accounted, Doomed, Settles, Apply;
      UndoomedIsOwn(n, b, Settles(n).value);
    }
  }
}
