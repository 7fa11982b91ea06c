/** Every operation of the registration store keeps its shape and conserves its callers. */
module ServiceStoreProofs {
  import opened Wire
  import opened ServiceStore
  import opened Tally

  // ----- lists and maps

  lemma {:induction false} WithoutMembers(services: seq<Service>, id: ServiceId, x: Service)
    ensures x in Without(services, id) <==> x in services && x.id != id
  {
    if services == [] {
    } else {
      WithoutMembers(services[1..], id, x);
      assert services == [services[0]] + services[1..];
    }
  }

  lemma {:induction false} WithoutDistinct(services: seq<Service>, id: ServiceId)
    requires DesiredDistinct(services)
    ensures DesiredDistinct(Without(services, id))
  {
    if services == [] {
    } else {
      var rest := services[1..];
      assert DesiredDistinct(rest);
      WithoutDistinct(rest, id);
      var kept := Without(rest, id);
      forall i | 0 <= i < |kept| ensures !Clash(services[0], kept[i]) {
        WithoutMembers(rest, id, kept[i]);
        var j :| 0 <= j < |rest| && rest[j] == kept[i];
        assert services[j + 1] == kept[i];
      }
    }
  }

  lemma {:induction false} ByIdMeaning(services: seq<Service>, x: Service)
    ensures x in services ==> x.id in ById(services)
    ensures x.id in ById(services) ==> ById(services)[x.id] in services && ById(services)[x.id].id == x.id
    ensures DesiredDistinct(services) && x in services ==> ById(services)[x.id] == x
  {
    if services == [] {
    } else {
      var n := |services| - 1;
      ByIdMeaning(services[..n], x);
      assert services == services[..n] + [services[n]];
    }
  }

  // ----- the shape of the store: ids and names claimed once, tombstones apart, bounds

  /** Answers and the active map are no part of the shape. */
  lemma {:induction false} SameShape(s: Store, t: Store)
    requires Inv(s) && t == s.(answers := t.answers, active := t.active)
    ensures Inv(t)
  {
  }

  lemma {:induction false} FewerFlights(s: Store, ks: set<ServiceId>)
    requires Inv(s) && ks <= s.inFlight.Keys
    ensures Inv(s.(inFlight := s.inFlight - ks))
  {
    hide Clash;
    ShrinkSizes(s.inFlight, ks);
  }

  lemma {:induction false} EmptySlot(s: Store)
    requires Inv(s)
    ensures Inv(s.(pending := None))
  {
  }

  lemma {:induction false} FewerTombstones(s: Store, id: ServiceId)
    requires Inv(s)
    ensures Inv(s.(abandoned := s.abandoned - {id}))
  {
    hide Clash;
    ShrinkSize(s.abandoned, id);
  }

  /** Nothing in the store claims `id`. */
  ghost predicate Unclaimed(s: Store, id: ServiceId) {
    !Outstanding(s, id) && forall i :: 0 <= i < |s.desired| ==> s.desired[i].id != id
  }

  lemma {:induction false} NewTombstone(s: Store, id: ServiceId, generation: nat)
    requires Inv(s) && Unclaimed(s, id)
    ensures Inv(s.(abandoned := Tombstone(s.abandoned, id, generation)))
  {
    hide Clash;
  }

  lemma {:induction false} FewerDesired(s: Store, id: ServiceId)
    requires Inv(s)
    ensures Inv(s.(desired := Without(s.desired, id)))
    ensures !Outstanding(s, id) ==> Unclaimed(s.(desired := Without(s.desired, id)), id)
  {
    hide Without;
    var kept := Without(s.desired, id);
    WithoutDistinct(s.desired, id);
    forall i | 0 <= i < |kept| ensures kept[i] in s.desired && kept[i].id != id {
      WithoutMembers(s.desired, id, kept[i]);
    }
  }

  /** `service` claims an id and a name that nothing in the store claims. */
  ghost predicate Committable(s: Store, service: Service) {
    && s.pending == None && service.id !in s.abandoned
    && (forall i :: 0 <= i < |s.desired| ==> !Clash(s.desired[i], service))
    && (forall k :: k in s.inFlight ==> !Clash(service, s.inFlight[k].service))
  }

  lemma {:induction false} MoreDesired(s: Store, service: Service)
    requires Inv(s) && Committable(s, service)
    ensures Inv(s.(desired := s.desired + [service]))
  {
  }

  lemma {:induction false} NewFlight(s: Store, service: Service, txn: Txn)
    requires Inv(s) && !Refuses(s, service) && txn.service == service && service.id !in s.abandoned
    requires s.mode.CorrelatedBounded? && |s.inFlight| < Ceiling(s.mode)
    ensures Inv(s.(inFlight := s.inFlight[service.id := txn]))
  {
  }

  lemma {:induction false} NewSlot(s: Store, service: Service, txn: Txn)
    requires Inv(s) && !Refuses(s, service) && txn.service == service && service.id !in s.abandoned
    requires s.mode.LegacySerial?
    ensures Inv(s.(pending := Some(txn)))
  {
  }

  lemma {:induction false} BeginKeeps(s: Store, service: Service, generation: nat, reply: Reply)
    requires Inv(s)
    ensures Inv(AnswerBegin(s, service, generation, reply).0)
  {
    hide Inv, Settle, Ceiling;
    FewerTombstones(s, service.id);
    var t := s.(abandoned := s.abandoned - {service.id});
    var txn := Txn(service, generation, Some(reply), None);
    var u := AnswerBegin(s, service, generation, reply).0;
    if Refuses(s, service) {
      SameShape(s, u);
    } else if u.pending != s.pending {
      NewSlot(t, service, txn);
    } else if u.inFlight != s.inFlight {
      NewFlight(t, service, txn);
    } else {
      SameShape(t, u);
    }
  }

  lemma {:induction false} TakenCommittable(s: Store, id: ServiceId)
    requires Inv(s)
    ensures
      var (t, taken) := TakeTransaction(s, id);
      taken.Some? ==> Committable(t, taken.value.service) && taken.value.service.id == id
  {
    hide Ceiling;
  }

  lemma {:induction false} TakeKeeps(s: Store, id: ServiceId)
    requires Inv(s)
    ensures
      var (t, taken) := TakeTransaction(s, id);
      && Inv(t)
      && (taken.None? ==> t == s)
      && (taken.Some? ==> Committable(t, taken.value.service) && taken.value.service.id == id)
  {
    TakenCommittable(s, id);
    hide Inv, Committable;
    EmptySlot(s);
    if id in s.inFlight {
      FewerFlights(s, {id});
    }
  }

  /** An acknowledgement takes one transaction or tombstone, and adds to the desired list only what it took. */
  lemma {:induction false} AckForm(s: Store, id: ServiceId, generation: nat, closed: set<Reply>, bind: EffectiveBind)
    ensures
      var (t, taken) := TakeTransaction(s, id);
      var u := AnswerAck(s, id, generation, closed, bind).0;
      match taken
      case None => u == s || u == s.(abandoned := s.abandoned - {id}, answers := u.answers)
      case Some(txn) =>
        || u == t.(answers := u.answers)
        || u == t.(desired := t.desired + [txn.service], active := u.active, answers := u.answers)
  {
    hide Settle, TakeTransaction;
  }

  lemma {:induction false} AckKeeps(s: Store, id: ServiceId, generation: nat, closed: set<Reply>, bind: EffectiveBind)
    requires Inv(s)
    ensures Inv(AnswerAck(s, id, generation, closed, bind).0)
  {
    hide *;
    TakeKeeps(s, id);
    FewerTombstones(s, id);
    AckForm(s, id, generation, closed, bind);
    var (t, taken) := TakeTransaction(s, id);
    var u := AnswerAck(s, id, generation, closed, bind).0;
    if taken.None? {
      if u != s { SameShape(s.(abandoned := s.abandoned - {id}), u); }
    } else if u == t.(answers := u.answers) {
      SameShape(t, u);
    } else {
      MoreDesired(t, taken.value.service);
      SameShape(t.(desired := t.desired + [taken.value.service]), u);
    }
  }

  lemma {:induction false} RejectForm(s: Store, id: ServiceId, generation: nat, e: TunnelError)
    ensures
      var (t, taken) := TakeTransaction(s, id);
      var u := AnswerReject(s, id, generation, e).0;
      match taken
      case None => u == s || u == s.(abandoned := s.abandoned - {id}, answers := u.answers)
      case Some(txn) => u == t.(answers := u.answers)
  {
    hide Settle, TakeTransaction;
  }

  lemma {:induction false} RejectKeeps(s: Store, id: ServiceId, generation: nat, e: TunnelError)
    requires Inv(s)
    ensures Inv(AnswerReject(s, id, generation, e).0)
  {
    hide *;
    TakeKeeps(s, id);
    FewerTombstones(s, id);
    RejectForm(s, id, generation, e);
    var (t, taken) := TakeTransaction(s, id);
    var u := AnswerReject(s, id, generation, e).0;
    if taken.Some? {
      SameShape(t, u);
    } else if u != s {
      SameShape(s.(abandoned := s.abandoned - {id}), u);
    }
  }

  lemma {:induction false} ErrorKeeps(s: Store, e: TunnelError)
    requires Inv(s)
    ensures Inv(AnswerError(s, e).0)
  {
    hide Inv, Settle;
    EmptySlot(s);
    SameShape(s.(pending := None), AnswerError(s, e).0);
  }

  lemma {:induction false} AbandonKeeps(s: Store, id: ServiceId)
    requires Inv(s)
    ensures Inv(Abandon(s, id))
  {
    if id in s.inFlight {
      var t := s.(inFlight := s.inFlight - {id});
      assert Unclaimed(t, id);
      hide Inv, Settle, Tombstone, Unclaimed;
      FewerFlights(s, {id});
      NewTombstone(t, id, s.inFlight[id].generation);
      SameShape(t.(abandoned := Abandon(s, id).abandoned), Abandon(s, id));
    }
  }

  lemma {:induction false} UnregisterForm(s: Store, id: ServiceId)
    ensures
      var u := Unregister(s, id);
      && u.pending == (if PendingFor(s, id) then None else s.pending)
      && u.inFlight == s.inFlight - {id}
      && (PendingFor(s, id) ==>
        s.pending.Some? && u.abandoned == Tombstone(s.abandoned, id, s.pending.value.generation))
      && (!PendingFor(s, id) ==> u.abandoned == s.abandoned)
      && u.desired == Without(s.desired, id) && u.active == s.active - {id} && u.mode == s.mode
  {
    hide Settle, Without, Tombstone;
  }

  lemma {:induction false} ReleaseKeeps(s: Store, id: ServiceId)
    requires Inv(s)
    ensures
      var t := s.(inFlight := s.inFlight - {id}, pending := if PendingFor(s, id) then None else s.pending);
      Inv(t) && !Outstanding(t, id)
  {
    hide Inv;
    if id in s.inFlight {
      FewerFlights(s, {id});
    } else {
      assert s.inFlight - {id} == s.inFlight;
    }
    EmptySlot(s.(inFlight := s.inFlight - {id}));
  }

  lemma {:induction false} UnregisterKeeps(s: Store, id: ServiceId)
    requires Inv(s)
    ensures Inv(Unregister(s, id))
  {
    hide *;
    UnregisterForm(s, id);
    ReleaseKeeps(s, id);
    var u := Unregister(s, id);
    var t := s.(inFlight := u.inFlight, pending := u.pending);
    FewerDesired(t, id);
    t := t.(desired := u.desired);
    if PendingFor(s, id) {
      NewTombstone(t, id, s.pending.value.generation);
    }
    SameShape(t.(abandoned := u.abandoned), u);
  }

  lemma {:induction false} ExpireKeeps(s: Store, now: nat)
    requires Inv(s)
    ensures Inv(ExpireOverdue(s, now).0)
  {
    var late := OverdueTxns(s, now).Keys;
    assert late <= s.inFlight.Keys;
    hide Inv, Settle, OverdueTxns;
    var u := ExpireOverdue(s, now).0;
    FewerFlights(s, late);
    EmptySlot(s.(inFlight := u.inFlight));
    SameShape(s.(inFlight := u.inFlight, pending := u.pending), u);
  }

  /** Deadlines are no part of the shape either. */
  ghost predicate Rearmed(s: Store, t: Store) {
    && t == s.(pending := t.pending, inFlight := t.inFlight)
    && t.inFlight.Keys == s.inFlight.Keys
    && (forall k :: k in s.inFlight ==> t.inFlight[k] == s.inFlight[k].(deadline := t.inFlight[k].deadline))
    && t.pending.Some? == s.pending.Some?
    && (s.pending.Some? ==> t.pending.value == s.pending.value.(deadline := t.pending.value.deadline))
  }

  lemma {:induction false} ArmForm(s: Store, id: ServiceId, deadline: nat)
    ensures Rearmed(s, ArmDeadline(s, id, deadline))
  {
  }

  lemma {:induction false} RearmedKeepsClaims(s: Store, t: Store)
    requires Rearmed(s, t) && ClaimsDistinct(s)
    ensures ClaimsDistinct(t)
  {
    hide Clash;
  }

  lemma {:induction false} RearmedKeepsBounds(s: Store, t: Store)
    requires Rearmed(s, t) && TombstonesApart(s) && Bounded(s)
    ensures TombstonesApart(t) && Bounded(t)
  {
  }

  lemma {:induction false} ArmKeeps(s: Store, id: ServiceId, deadline: nat)
    requires Inv(s)
    ensures Inv(ArmDeadline(s, id, deadline))
  {
    hide ArmDeadline, Rearmed, ClaimsDistinct, TombstonesApart, Bounded;
    ArmForm(s, id, deadline);
    RearmedKeepsClaims(s, ArmDeadline(s, id, deadline));
    RearmedKeepsBounds(s, ArmDeadline(s, id, deadline));
  }

  lemma {:induction false} FailLegacyWriteKeeps(s: Store)
    requires Inv(s)
    ensures Inv(FailLegacyWrite(s))
  {
  }

  lemma {:induction false} FinishKeeps(s: Store, e: TunnelError)
    requires Inv(s)
    ensures Inv(FinishPending(s, e))
  {
  }

  lemma {:induction false} SetModeKeeps(s: Store, mode: Mode)
    requires Inv(s)
    ensures Inv(SetMode(s, mode))
  {
    hide Held;
  }

  // ----- conservation of callers

  /** The channels of `rs` leave the held set and are sent `o`. */
  lemma {:induction false} SettlingConserves(s: Store, submitted: set<Reply>, t: Store, rs: set<Reply>, o: Outcome)
    requires Conserves(s, submitted)
    requires ChannelsDistinct(t) && rs <= Held(s) && Held(t) == Held(s) - rs
    requires t.answers == Settle(s.answers, rs, o)
    ensures Conserves(t, submitted)
  {
    hide Held, ChannelsDistinct;
  }

  /** A channel answered before it was ever held. */
  lemma {:induction false} RefusalConserves(s: Store, submitted: set<Reply>, t: Store, reply: Reply, o: Outcome)
    requires Conserves(s, submitted) && reply !in submitted
    requires t.pending == s.pending && t.inFlight == s.inFlight
    requires t.answers == Settle(s.answers, {reply}, o)
    ensures Conserves(t, submitted + {reply})
  {
    hide ChannelsOf;
  }

  lemma {:induction false} OneChannelMore(txns: map<ServiceId, Txn>, id: ServiceId, txn: Txn)
    requires id !in txns && txn.reply.Some?
    ensures ChannelsOf(txns[id := txn]) == ChannelsOf(txns) + Channel(txn.reply)
  {
    var more := txns[id := txn];
    forall r | r in ChannelsOf(txns) ensures r in ChannelsOf(more) {
      var k :| k in txns && txns[k].reply == Some(r);
      assert more[k] == txns[k];
    }
    assert more[id] == txn;
  }

  lemma {:induction false} OneChannelLess(txns: map<ServiceId, Txn>, id: ServiceId)
    requires id in txns
    requires forall k, l :: k in txns && l in txns && k != l && txns[k].reply.Some? ==> txns[k].reply != txns[l].reply
    ensures ChannelsOf(txns - {id}) == ChannelsOf(txns) - Channel(txns[id].reply)
    ensures Channel(txns[id].reply) <= ChannelsOf(txns)
  {
    var less := txns - {id};
    assert forall k :: k in less ==> less[k] == txns[k];
    forall r | r in ChannelsOf(txns) && r !in Channel(txns[id].reply) ensures r in ChannelsOf(less) {
      var k :| k in txns && txns[k].reply == Some(r);
      assert k in less;
    }
  }

  /** An accepted registration fills the one free place its mode has for it. */
  lemma {:induction false} BeginForm(s: Store, service: Service, generation: nat, reply: Reply)
    ensures
      var (t, refused) := Begin(s, service, generation, reply);
      var txn := Txn(service, generation, Some(reply), None);
      match refused
      case Some(_) => t == s || t == s.(abandoned := s.abandoned - {service.id})
      case None =>
        && !Refuses(s, service)
        && (s.mode.LegacySerial? ==>
              s.pending == None && t == s.(abandoned := s.abandoned - {service.id}, pending := Some(txn)))
        && (s.mode.CorrelatedBounded? ==>
              |s.inFlight| < Ceiling(s.mode) &&
              t == s.(abandoned := s.abandoned - {service.id}, inFlight := s.inFlight[service.id := txn]))
  {
    hide Refuses, Ceiling;
  }

  lemma {:induction false} NotRefused(s: Store, service: Service)
    requires Inv(s) && !Refuses(s, service)
    ensures service.id !in s.inFlight && (s.mode.LegacySerial? ==> s.inFlight == map[])
  {
  }

  lemma {:induction false} BeginHolds(s: Store, service: Service, generation: nat, reply: Reply)
    requires Inv(s) && ChannelsDistinct(s) && reply !in Held(s)
    ensures
      var (t, refused) := Begin(s, service, generation, reply);
      && t.answers == s.answers
      && (refused.Some? ==> t.pending == s.pending && t.inFlight == s.inFlight)
      && (refused.None? ==> Held(t) == Held(s) + {reply} && ChannelsDistinct(t))
  {
    hide Begin, Inv, Refuses, Ceiling;
    BeginForm(s, service, generation, reply);
    var (t, refused) := Begin(s, service, generation, reply);
    if refused.None? {
      NotRefused(s, service);
      if s.mode.CorrelatedBounded? {
        FlightHolds(s, t, service.id, reply);
      }
    }
  }

  lemma {:induction false} FlightHolds(s: Store, t: Store, id: ServiceId, reply: Reply)
    requires ChannelsDistinct(s) && reply !in Held(s) && id !in s.inFlight
    requires t.pending == s.pending && id in t.inFlight && t.inFlight == s.inFlight[id := t.inFlight[id]]
    requires t.inFlight[id].reply == Some(reply)
    ensures ChannelsDistinct(t) && Held(t) == Held(s) + {reply}
  {
    OneChannelMore(s.inFlight, id, t.inFlight[id]);
    assert forall k :: k in s.inFlight && s.inFlight[k].reply.Some? ==>
      s.inFlight[k].reply.value in ChannelsOf(s.inFlight);
    hide ChannelsOf;
  }

  lemma {:induction false} BeginConserves(s: Store, submitted: set<Reply>, service: Service, generation: nat,
                                          reply: Reply)
    requires Conserves(s, submitted) && Inv(s) && reply !in submitted
    ensures Conserves(AnswerBegin(s, service, generation, reply).0, submitted + {reply})
  {
    hide Begin, Inv, ChannelsDistinct, Held, Settle;
    BeginHolds(s, service, generation, reply);
    var (t, refused) := Begin(s, service, generation, reply);
    if refused.Some? {
      RefusalConserves(s, submitted, AnswerBegin(s, service, generation, reply).0, reply, Failed(refused.value));
    }
  }

  lemma {:induction false} TakeHolds(s: Store, id: ServiceId)
    requires ChannelsDistinct(s)
    ensures
      var (t, taken) := TakeTransaction(s, id);
      && ChannelsDistinct(t) && t.answers == s.answers
      && (taken.None? ==> t == s)
      && (taken.Some? ==> Channel(taken.value.reply) <= Held(s) && Held(t) == Held(s) - Channel(taken.value.reply))
  {
    if s.pending.None? && id in s.inFlight {
      OneChannelLess(s.inFlight, id);
    }
    hide ChannelsOf;
  }

  lemma {:induction false} TakeForm(s: Store, id: ServiceId)
    ensures
      var (t, taken) := TakeTransaction(s, id);
      && t == s.(pending := t.pending, inFlight := t.inFlight)
      && (taken.None? ==> t == s)
  {
  }

  /** The caller of the taken transaction, if it still waits, is sent exactly one outcome. */
  lemma {:induction false} AckAnswers(s: Store, id: ServiceId, generation: nat, closed: set<Reply>, bind: EffectiveBind)
    ensures
      var (t, taken) := TakeTransaction(s, id);
      var u := AnswerAck(s, id, generation, closed, bind).0;
      && u.pending == t.pending && u.inFlight == t.inFlight
      && (taken.None? ==> u.answers == s.answers || u.answers == Settle(s.answers, {}, Failed(Disconnected)))
      && (taken.Some? ==>
            u.answers == Settle(s.answers, Channel(taken.value.reply),
                                if taken.value.generation != generation then Failed(Disconnected)
                                else if taken.value.reply.None? || taken.value.reply.value in closed then Dropped
                                else Bound(bind)))
  {
    hide Settle, TakeTransaction;
    TakeForm(s, id);
  }

  lemma {:induction false} AckConserves(s: Store, submitted: set<Reply>, id: ServiceId, generation: nat,
                                        closed: set<Reply>, bind: EffectiveBind)
    requires Conserves(s, submitted)
    ensures Conserves(AnswerAck(s, id, generation, closed, bind).0, submitted)
  {
    hide AnswerAck, TakeTransaction, Settle, ChannelsOf;
    TakeHolds(s, id);
    AckAnswers(s, id, generation, closed, bind);
    var (t, taken) := TakeTransaction(s, id);
    var u := AnswerAck(s, id, generation, closed, bind).0;
    if taken.Some? {
      var o := if taken.value.generation != generation then Failed(Disconnected)
               else if taken.value.reply.None? || taken.value.reply.value in closed then Dropped else Bound(bind);
      SettlingConserves(s, submitted, u, Channel(taken.value.reply), o);
    } else if u.answers != s.answers {
      SettlingConserves(s, submitted, u, {}, Failed(Disconnected));
    }
  }

  lemma {:induction false} RejectAnswers(s: Store, id: ServiceId, generation: nat, e: TunnelError)
    ensures
      var (t, taken) := TakeTransaction(s, id);
      var u := AnswerReject(s, id, generation, e).0;
      && u.pending == t.pending && u.inFlight == t.inFlight
      && (taken.None? ==> u.answers == s.answers || u.answers == Settle(s.answers, {}, Failed(Disconnected)))
      && (taken.Some? ==> u.answers == Settle(s.answers, Channel(taken.value.reply),
                                              if taken.value.generation != generation then Failed(Disconnected)
                                                else Failed(e)))
  {
    hide Settle, TakeTransaction;
    TakeForm(s, id);
  }

  lemma {:induction false} RejectConserves(s: Store, submitted: set<Reply>, id: ServiceId, generation: nat,
                                           e: TunnelError)
    requires Conserves(s, submitted)
    ensures Conserves(AnswerReject(s, id, generation, e).0, submitted)
  {
    hide AnswerReject, TakeTransaction, Settle, ChannelsOf;
    TakeHolds(s, id);
    RejectAnswers(s, id, generation, e);
    var (t, taken) := TakeTransaction(s, id);
    var u := AnswerReject(s, id, generation, e).0;
    if taken.Some? {
      var o := if taken.value.generation != generation then Failed(Disconnected) else Failed(e);
      SettlingConserves(s, submitted, u, Channel(taken.value.reply), o);
    } else if u.answers != s.answers {
      SettlingConserves(s, submitted, u, {}, Failed(Disconnected));
    }
  }

  lemma {:induction false} ErrorConserves(s: Store, submitted: set<Reply>, e: TunnelError)
    requires Conserves(s, submitted)
    ensures Conserves(AnswerError(s, e).0, submitted)
  {
    hide ChannelsOf, Settle;
    if s.pending.Some? {
      SettlingConserves(s, submitted, AnswerError(s, e).0, Channel(s.pending.value.reply), Failed(e));
    }
  }

  lemma {:induction false} AbandonConserves(s: Store, submitted: set<Reply>, id: ServiceId)
    requires Conserves(s, submitted)
    ensures Conserves(Abandon(s, id), submitted)
  {
    hide ChannelsOf, Settle, Tombstone;
    if id in s.inFlight {
      OneChannelLess(s.inFlight, id);
      SettlingConserves(s, submitted, Abandon(s, id), Channel(s.inFlight[id].reply), Failed(Timeout));
    }
  }

  lemma {:induction false} UnregisterConserves(s: Store, submitted: set<Reply>, id: ServiceId)
    requires Conserves(s, submitted)
    ensures Conserves(Unregister(s, id), submitted)
  {
    hide ChannelsOf, Settle, Without, Tombstone;
    var cut := s;
    if PendingFor(s, id) {
      cut := s.(pending := None, answers := Settle(s.answers, Channel(s.pending.value.reply), Failed(Cancelled)));
      SettlingConserves(s, submitted, cut, Channel(s.pending.value.reply), Failed(Cancelled));
    }
    if id in s.inFlight {
      OneChannelLess(s.inFlight, id);
      SettlingConserves(cut, submitted, Unregister(s, id), Channel(s.inFlight[id].reply), Failed(Cancelled));
    }
  }

  lemma {:induction false} LateChannels(s: Store, now: nat)
    requires ChannelsDistinct(s)
    ensures
      var late := OverdueTxns(s, now);
      && ChannelsOf(s.inFlight - late.Keys) == ChannelsOf(s.inFlight) - ChannelsOf(late)
      && ChannelsOf(late) <= ChannelsOf(s.inFlight)
      && ChannelsDistinct(s.(inFlight := s.inFlight - late.Keys))
  {
    var late := OverdueTxns(s, now);
    var rest := s.inFlight - late.Keys;
    forall r | r in ChannelsOf(s.inFlight) && r !in ChannelsOf(late) ensures r in ChannelsOf(rest) {
      var k :| k in s.inFlight && s.inFlight[k].reply == Some(r);
      assert k !in late && k in rest;
    }
    forall r | r in ChannelsOf(rest) ensures r in ChannelsOf(s.inFlight) && r !in ChannelsOf(late) {
      var k :| k in rest && rest[k].reply == Some(r);
      assert s.inFlight[k] == rest[k];
    }
  }

  lemma {:induction false} ExpireConserves(s: Store, submitted: set<Reply>, now: nat)
    requires Conserves(s, submitted)
    ensures Conserves(ExpireOverdue(s, now).0, submitted)
  {
    hide ChannelsOf, Settle, OverdueTxns;
    LateChannels(s, now);
    var late := OverdueTxns(s, now);
    var swept := s.(inFlight := s.inFlight - late.Keys,
      answers := Settle(s.answers, ChannelsOf(late), Failed(Timeout)));
    SettlingConserves(s, submitted, swept, ChannelsOf(late), Failed(Timeout));
    if s.pending.Some? && Overdue(s.pending.value, now) {
      SettlingConserves(swept, submitted, ExpireOverdue(s, now).0, Channel(s.pending.value.reply), Failed(Timeout));
    }
  }

  lemma {:induction false} ArmConserves(s: Store, submitted: set<Reply>, id: ServiceId, deadline: nat)
    requires Conserves(s, submitted)
    ensures Conserves(ArmDeadline(s, id, deadline), submitted)
  {
    hide ArmDeadline;
    ArmForm(s, id, deadline);
    var t := ArmDeadline(s, id, deadline);
    assert ChannelsOf(t.inFlight) == ChannelsOf(s.inFlight);
    hide ChannelsOf;
  }

  lemma {:induction false} FailLegacyWriteConserves(s: Store, submitted: set<Reply>)
    requires Conserves(s, submitted)
    ensures Conserves(FailLegacyWrite(s), submitted)
  {
    hide ChannelsOf, Settle;
    if s.pending.Some? {
      SettlingConserves(s, submitted, FailLegacyWrite(s), Channel(s.pending.value.reply), Failed(Timeout));
    }
  }

  /** After a finished Session nobody is left waiting. */
  lemma {:induction false} FinishConserves(s: Store, submitted: set<Reply>, e: TunnelError)
    requires Conserves(s, submitted)
    ensures Conserves(FinishPending(s, e), submitted) && FinishPending(s, e).answers.Keys == submitted
  {
  }

  /** After a Session switch nobody is left waiting. */
  lemma {:induction false} SetModeConserves(s: Store, submitted: set<Reply>, mode: Mode)
    requires Conserves(s, submitted)
    ensures Conserves(SetMode(s, mode), submitted) && SetMode(s, mode).answers.Keys == submitted
  {
    FinishConserves(s, submitted, Disconnected);
    hide FinishPending;
  }

  // ----- expiry

  /** A sweep removes exactly the overdue transactions and changes nothing else but the answers. */
  lemma {:induction false} ExpiryRemovesTheOverdue(s: Store, now: nat)
    ensures
      var (t, expiry) := ExpireOverdue(s, now);
      && (forall k :: k in t.inFlight <==> k in s.inFlight && !Overdue(s.inFlight[k], now))
      && (forall k :: k in t.inFlight ==> t.inFlight[k] == s.inFlight[k])
      && t.pending == (if s.pending.Some? && Overdue(s.pending.value, now) then None else s.pending)
      && t == s.(inFlight := t.inFlight, pending := t.pending, answers := t.answers)
      && (expiry.LegacyExpired? <==> t.pending != s.pending)
      && (expiry.CorrelatedExpired? ==> expiry.count == |s.inFlight| - |t.inFlight| > 0)
      && (expiry.NoneExpired? ==> |t.inFlight| == |s.inFlight|)
  {
    hide Settle, ChannelsOf;
    ShrinkSizes(s.inFlight, OverdueTxns(s, now).Keys);
  }

  /** The deadlines left after a sweep are exactly those after `now`, so the next wait is never already over. */
  lemma {:induction false} ExpiryAdvancesTheDeadline(s: Store, now: nat, d: nat)
    ensures d in Deadlines(ExpireOverdue(s, now).0) <==> d in Deadlines(s) && d > now
  {
    hide ExpireOverdue;
    ExpiryRemovesTheOverdue(s, now);
    var t := ExpireOverdue(s, now).0;
    if k :| k in s.inFlight && s.inFlight[k].deadline == Some(d) && d > now {
      assert k in t.inFlight;
    }
  }

  function LateSlot(s: Store, now: nat): set<Reply> {
    if s.pending.Some? && Overdue(s.pending.value, now) then PendingChannel(s.pending) else {}
  }

  lemma {:induction false} ExpiryHeld(s: Store, now: nat, r: Reply)
    requires ChannelsDistinct(s)
    ensures
      var late := ChannelsOf(OverdueTxns(s, now));
      && !(r in late && r in LateSlot(s, now))
      && (r in Held(ExpireOverdue(s, now).0) <==> r in Held(s) && r !in late && r !in LateSlot(s, now))
      && (r in late || r in LateSlot(s, now) ==> r in Held(s))
  {
    hide ChannelsOf, Settle, OverdueTxns, ChannelsDistinct, Overdue;
    LateChannels(s, now);
    ApartChannels(s);
  }

  lemma {:induction false} ApartChannels(s: Store)
    requires ChannelsDistinct(s)
    ensures PendingChannel(s.pending) !! ChannelsOf(s.inFlight)
  {
  }

  lemma {:induction false} ExpirySends(s: Store, now: nat, r: Reply)
    ensures
      var late := ChannelsOf(OverdueTxns(s, now));
      Sent(ExpireOverdue(s, now).0.answers, r) ==
      Sent(s.answers, r)
      + (if r in late then [Failed(Timeout)] else []) + (if r in LateSlot(s, now) then [Failed(Timeout)] else [])
  {
    hide ChannelsOf, Settle, OverdueTxns, Sent;
    var late := ChannelsOf(OverdueTxns(s, now));
    SentAfter(s.answers, late, Failed(Timeout), r);
    SentAfter(Settle(s.answers, late, Failed(Timeout)), LateSlot(s, now), Failed(Timeout), r);
  }

  /** Each caller of an overdue transaction is sent one Timeout, and nobody else is sent anything. */
  lemma {:induction false} ExpiryAnswersTheOverdue(s: Store, submitted: set<Reply>, now: nat, r: Reply)
    requires Conserves(s, submitted)
    ensures
      var t := ExpireOverdue(s, now).0;
      Sent(t.answers, r) == if r in Held(s) && r !in Held(t) then [Failed(Timeout)] else Sent(s.answers, r)
  {
    hide ExpireOverdue, Held, ChannelsOf, OverdueTxns, ChannelsDistinct, LateSlot;
    ExpiryHeld(s, now, r);
    ExpirySends(s, now, r);
  }

  lemma {:induction false} SentAfter(a: Answers, rs: set<Reply>, o: Outcome, r: Reply)
    ensures Sent(Settle(a, rs, o), r) == Sent(a, r) + (if r in rs then [o] else [])
  {
  }
}
