/**
 The client's registration store as the object the Session loop mutates. Every
 method is proved to change the object exactly as the value model says.
 */
module RegistrationState {
  import opened Wire
  import opened ServiceStore
  import opened Tally
  import opened ServiceStoreProofs

  lemma {:induction false} SettleOne(a: Answers, r: Reply, o: Outcome)
    ensures a[r := Sent(a, r) + [o]] == Settle(a, {r}, o)
  {
    assert forall x :: x in a ==> Sent(a, x) + [] == a[x];
  }

  lemma {:induction false} SettleNone(a: Answers, o: Outcome)
    ensures Settle(a, {}, o) == a
  {
    assert forall x :: x in a ==> Sent(a, x) + [] == a[x];
  }

  lemma {:induction false} SettleMore(a: Answers, rs: set<Reply>, more: set<Reply>, o: Outcome)
    requires rs !! more
    ensures Settle(Settle(a, rs, o), more, o) == Settle(a, rs + more, o)
  {
    forall x | x in a.Keys + rs + more
      ensures Sent(Settle(a, rs, o), x) + (if x in more then [o] else []) ==
        Sent(a, x) + (if x in rs + more then [o] else [])
    {
      SentAfter(a, rs, o, x);
    }
  }

  class ServiceState {
    var desired: seq<Service>
    var active: map<ServiceId, Service>
    var pending: Option<Txn>
    var inFlight: map<ServiceId, Txn>
    var abandoned: map<ServiceId, nat>
    var mode: Mode
    /** What has been sent on each caller's reply channel. */
    var answers: Answers

    function View(): Store
      reads this
    {
      Store(desired, active, pending, inFlight, abandoned, mode, answers)
    }

    constructor (services: seq<Service>)
      ensures View() == New(services)
    {
      desired, active, pending, inFlight, abandoned := services, map[], None, map[], map[];
      mode, answers := LegacySerial, map[];
    }

    method Send(reply: Option<Reply>, outcome: Outcome)
      modifies this`answers
      ensures answers == Settle(old(answers), Channel(reply), outcome)
    {
      SettleNone(answers, outcome);
      if reply.Some? {
        SettleOne(answers, reply.value, outcome);
        answers := answers[reply.value := Sent(answers, reply.value) + [outcome]];
      }
    }

    method FinishPending(error: TunnelError)
      requires ChannelsDistinct(View())
      modifies this
      ensures View() == ServiceStore.FinishPending(old(View()), error)
    {
      ghost var slot := PendingChannel(pending);
      ghost var flights := ChannelsOf(inFlight);
      assert slot !! flights && Held(View()) == slot + flights;
      hide Settle, ChannelsOf, ChannelsDistinct, Held;
      var outcome := Failed(DuplicateError(error));
      SettleNone(answers, outcome);
      if pending.Some? {
        Send(pending.value.reply, outcome);
      }
      pending := None;
      AnswerInFlight(outcome);
      SettleMore(old(answers), slot, flights, outcome);
      abandoned := map[];
    }

    /** Fail and remove every in-flight transaction. */
    method AnswerInFlight(outcome: Outcome)
      requires FlightsDistinct(inFlight)
      modifies this`inFlight, this`answers
      ensures inFlight == map[]
      ensures answers == Settle(old(answers), ChannelsOf(old(inFlight)), outcome)
    {
      hide Settle, ChannelsOf, FlightsDistinct;
      var txns := inFlight;
      inFlight := map[];
      ghost var done: map<ServiceId, Txn> := map[];
      SettleNone(answers, outcome);
      NoChannels();
      while txns != map[]
        invariant inFlight == map[]
        invariant txns == old(inFlight) - done.Keys
        invariant forall k :: k in done ==> k in old(inFlight) && done[k] == old(inFlight)[k]
        invariant answers == Settle(old(answers), ChannelsOf(done), outcome)
        decreases |txns|
      {
        var id := AnyKey(txns);
        ShrinkSize(txns, id);
        SweepOne(old(inFlight), done, id);
        Send(txns[id].reply, outcome);
        SettleMore(old(answers), ChannelsOf(done), Channel(txns[id].reply), outcome);
        done := done[id := txns[id]];
        txns := txns - {id};
      }
      assert done == old(inFlight) by {
        forall k | k in old(inFlight) ensures k in done { assert k !in txns; }
      }
    }

    method SetMode(m: Mode)
      requires ChannelsDistinct(View())
      modifies this
      ensures View() == ServiceStore.SetMode(old(View()), m)
    {
      FinishPending(Disconnected);
      abandoned := map[];
      mode := m;
    }

    method ActivateInitial()
      modifies this`active
      ensures View() == ServiceStore.ActivateInitial(old(View()))
    {
      var services: map<ServiceId, Service> := map[];
      var i := 0;
      while i < |desired|
        invariant 0 <= i <= |desired|
        invariant services == ById(desired[..i])
      {
        assert desired[..i + 1][..i] == desired[..i];
        services := services[desired[i].id := desired[i]];
        i := i + 1;
      }
      assert desired[..i] == desired;
      active := services;
    }

    method ClearActive()
      modifies this`active
      ensures View() == ServiceStore.ClearActive(old(View()))
    {
      active := map[];
    }

    /** The earliest armed deadline, in either mode. */
    method NextDeadline() returns (deadline: Option<nat>)
      ensures Earliest(Deadlines(View()), deadline)
    {
      deadline := if pending.Some? then pending.value.deadline else None;
      ghost var at: Option<ServiceId> := None;
      var keys := inFlight.Keys;
      while keys != {}
        invariant keys <= inFlight.Keys
        invariant at.Some? ==> at.value in inFlight && inFlight[at.value].deadline == deadline
        invariant at.None? ==> deadline == if pending.Some? then pending.value.deadline else None
        invariant pending.Some? ==> NotBefore(pending.value.deadline, deadline)
        invariant forall k :: k in inFlight && k !in keys ==> NotBefore(inFlight[k].deadline, deadline)
        decreases |keys|
      {
        var k :| k in keys;
        if inFlight[k].deadline.Some? && (deadline.None? || inFlight[k].deadline.value < deadline.value) {
          deadline := inFlight[k].deadline;
          at := Some(k);
        }
        keys := keys - {k};
      }
      EarliestOf(View(), deadline, at);
    }

    method ExpireOverdue(now: nat) returns (expiry: Expiry)
      requires ChannelsDistinct(View())
      modifies this
      ensures (View(), expiry) == ServiceStore.ExpireOverdue(old(View()), now)
    {
      hide Settle, ChannelsOf, OverdueTxns, ChannelsDistinct, FlightsDistinct, Overdue, Channel;
      FlightsOf(View());
      var correlated := SweepInFlight(now);
      if pending.Some? && Overdue(pending.value, now) {
        Send(pending.value.reply, Failed(Timeout));
        pending := None;
        return LegacyExpired;
      }
      expiry := if correlated > 0 then CorrelatedExpired(correlated) else NoneExpired;
    }

    method SweepInFlight(now: nat) returns (removed: nat)
      requires FlightsDistinct(inFlight)
      modifies this`inFlight, this`answers
      ensures
        var late := OverdueTxns(old(View()), now);
        && inFlight == old(inFlight) - late.Keys && removed == |late|
        && answers == Settle(old(answers), ChannelsOf(late), Failed(Timeout))
    {
      hide Settle, ChannelsOf, FlightsDistinct, OverdueTxns, Overdue;
      var keys := inFlight.Keys;
      removed := 0;
      ghost var late: map<ServiceId, Txn> := map[];
      ghost var flights := inFlight;
      SettleNone(answers, Failed(Timeout));
      NoChannels();
      while keys != {}
        invariant keys <= flights.Keys
        invariant Swept(flights, late, keys, now) && inFlight == flights - late.Keys
        invariant removed == |late|
        invariant answers == Settle(old(answers), ChannelsOf(late), Failed(Timeout))
        decreases |keys|
      {
        hide Swept;
        var k :| k in keys;
        SweptNext(flights, late, keys, now, k);
        var txn := inFlight[k];
        if Overdue(txn, now) {
          Send(txn.reply, Failed(Timeout));
          SettleMore(old(answers), ChannelsOf(late), Channel(txn.reply), Failed(Timeout));
          inFlight := inFlight - {k};
          removed := removed + 1;
          late := late[k := txn];
        }
        keys := keys - {k};
      }
      LateIs(old(View()), now, late);
    }

    method Begin(service: Service, generation: nat, reply: Reply) returns (refused: Option<TunnelError>)
      modifies this
      ensures (View(), refused) == ServiceStore.Begin(old(View()), service, generation, reply)
    {
      if || (exists i :: 0 <= i < |desired| && Clash(desired[i], service))
         || (pending.Some? && Clash(pending.value.service, service))
         || (exists k :: k in inFlight && Clash(inFlight[k].service, service))
      {
        return Some(ServiceAlreadyExists);
      }
      abandoned := abandoned - {service.id};
      match mode {
        case LegacySerial =>
          if pending.Some? { return Some(ResourceExhausted); }
          pending := Some(Txn(service, generation, Some(reply), None));
        case CorrelatedBounded(maxInFlight) =>
          if |inFlight| >= (if maxInFlight > 1 then maxInFlight else 1) { return Some(ResourceExhausted); }
          inFlight := inFlight[service.id := Txn(service, generation, Some(reply), None)];
      }
      refused := None;
    }

    method TakeTransaction(id: ServiceId) returns (taken: Option<Txn>)
      modifies this
      ensures (View(), taken) == ServiceStore.TakeTransaction(old(View()), id)
    {
      if pending.Some? && pending.value.service.id == id {
        taken := pending;
        pending := None;
      } else if pending.Some? {
        taken := None;
      } else if id in inFlight {
        taken := Some(inFlight[id]);
        inFlight := inFlight - {id};
      } else {
        taken := None;
      }
    }

    method TakeAck(id: ServiceId, generation: nat, closed: set<Reply>) returns (d: AckDisposition)
      modifies this
      ensures (View(), d) == ServiceStore.TakeAck(old(View()), id, generation, closed)
    {
      var taken := TakeTransaction(id);
      if taken.None? {
        if id in abandoned {
          d := if abandoned[id] == generation then AckAbandoned else AckStale(None);
          abandoned := abandoned - {id};
        } else {
          d := Unexpected;
        }
        return;
      }
      var txn := taken.value;
      if txn.generation != generation { return AckStale(txn.reply); }
      if txn.reply.None? || txn.reply.value in closed {
        Send(txn.reply, Dropped);
        return AckAbandoned;
      }
      d := Commit(txn.service, txn.reply);
    }

    method TakeReject(id: ServiceId, generation: nat) returns (d: RejectDisposition)
      modifies this
      ensures (View(), d) == ServiceStore.TakeReject(old(View()), id, generation)
    {
      var taken := TakeTransaction(id);
      if taken.None? {
        d := if id in abandoned then RejectStale(None) else Unknown;
        if id in abandoned { abandoned := abandoned - {id}; }
        return;
      }
      d := if taken.value.generation != generation then RejectStale(taken.value.reply) else Reject(taken.value.reply);
    }

    method TakePending() returns (taken: Option<Txn>)
      modifies this`pending
      ensures (View(), taken) == ServiceStore.TakePending(old(View()))
    {
      taken := pending;
      pending := None;
    }

    method Bury(id: ServiceId, generation: nat)
      modifies this`abandoned
      ensures abandoned == Tombstone(old(abandoned), id, generation)
    {
      if |abandoned| >= MAX_TOMBSTONES { abandoned := map[]; }
      abandoned := abandoned[id := generation];
    }

    method Abandon(id: ServiceId)
      modifies this
      ensures View() == ServiceStore.Abandon(old(View()), id)
    {
      if id in inFlight {
        var txn := inFlight[id];
        inFlight := inFlight - {id};
        Send(txn.reply, Failed(Timeout));
        Bury(id, txn.generation);
      }
    }

    method Unregister(id: ServiceId) returns (wasActive: bool)
      modifies this
      ensures View() == ServiceStore.Unregister(old(View()), id) && wasActive == (id in old(active))
    {
      if pending.Some? && pending.value.service.id == id {
        var txn := pending.value;
        pending := None;
        Send(txn.reply, Failed(Cancelled));
        Bury(id, txn.generation);
      }
      if id in inFlight {
        var txn := inFlight[id];
        inFlight := inFlight - {id};
        Send(txn.reply, Failed(Cancelled));
      }
      desired := Without(desired, id);
      wasActive := id in active;
      active := active - {id};
    }

    method CommitService(service: Service)
      modifies this
      ensures View() == Committed(old(View()), service)
    {
      active := active[service.id := service];
      desired := desired + [service];
    }

    /** The ready loop arms the transaction it has just written. */
    method Arm(id: ServiceId, deadline: nat)
      modifies this
      ensures View() == ArmDeadline(old(View()), id, deadline)
    {
      match mode {
        case LegacySerial =>
          if pending.Some? { pending := Some(pending.value.(deadline := Some(deadline))); }
        case CorrelatedBounded(_) =>
          if id in inFlight { inFlight := inFlight[id := inFlight[id].(deadline := Some(deadline))]; }
      }
    }

    /** The ready loop answers the caller of a legacy registration whose write ran out of budget. */
    method DisarmPending()
      modifies this
      ensures View() == FailLegacyWrite(old(View()))
    {
      if pending.Some? {
        Send(pending.value.reply, Failed(Timeout));
        pending := Some(pending.value.(reply := None));
      }
    }
  }

  /** `late` is what a sweep has removed once only `keys` are left to look at. */
  ghost predicate Swept(flights: map<ServiceId, Txn>, late: map<ServiceId, Txn>, keys: set<ServiceId>, now: nat) {
    && (forall k :: k in late ==> k in flights && k !in keys && Overdue(flights[k], now) && late[k] == flights[k])
    && (forall k :: k in flights && k !in keys && Overdue(flights[k], now) ==> k in late)
  }

  lemma {:induction false} SweptNext(flights: map<ServiceId, Txn>, late: map<ServiceId, Txn>, keys: set<ServiceId>,
                                     now: nat, k: ServiceId)
    requires FlightsDistinct(flights) && Swept(flights, late, keys, now) && k in keys && k in flights
    ensures k !in late && k in flights - late.Keys && (flights - late.Keys)[k] == flights[k]
    ensures
      if Overdue(flights[k], now) then
        && Swept(flights, late[k := flights[k]], keys - {k}, now)
        && flights - late.Keys - {k} == flights - late[k := flights[k]].Keys
        && ChannelsOf(late[k := flights[k]]) == ChannelsOf(late) + Channel(flights[k].reply)
        && ChannelsOf(late) !! Channel(flights[k].reply)
      else Swept(flights, late, keys - {k}, now)
  {
    hide ChannelsOf, FlightsDistinct, Overdue;
    SweepOne(flights, late, k);
  }

  lemma {:induction false} LateIs(s: Store, now: nat, late: map<ServiceId, Txn>)
    requires Swept(s.inFlight, late, {}, now)
    ensures late == OverdueTxns(s, now)
  {
  }

  /** A reply channel is owned by at most one in-flight transaction. */
  ghost predicate FlightsDistinct(flights: map<ServiceId, Txn>) {
    forall k, l :: k in flights && l in flights && k != l && flights[k].reply.Some? ==>
      flights[k].reply != flights[l].reply
  }

  lemma {:induction false} FlightsOf(s: Store)
    requires ChannelsDistinct(s)
    ensures FlightsDistinct(s.inFlight)
  {
  }

  predicate NotBefore(d: Option<nat>, earliest: Option<nat>) {
    d.Some? ==> earliest.Some? && earliest.value <= d.value
  }

  lemma {:induction false} EarliestOf(s: Store, deadline: Option<nat>, at: Option<ServiceId>)
    requires at.Some? ==> at.value in s.inFlight && s.inFlight[at.value].deadline == deadline
    requires at.None? ==> deadline == if s.pending.Some? then s.pending.value.deadline else None
    requires s.pending.Some? ==> NotBefore(s.pending.value.deadline, deadline)
    requires forall k :: k in s.inFlight ==> NotBefore(s.inFlight[k].deadline, deadline)
    ensures Earliest(Deadlines(s), deadline)
  {
  }

  lemma {:induction false} NoChannels()
    ensures ChannelsOf(map[]) == {}
  {
  }

  method AnyKey<V>(m: map<ServiceId, V>) returns (k: ServiceId)
    requires m != map[]
    ensures k in m
  {
    assert m.Keys != {};
    k :| k in m.Keys;
  }

  lemma {:induction false} SweepOne(flights: map<ServiceId, Txn>, late: map<ServiceId, Txn>, k: ServiceId)
    requires FlightsDistinct(flights)
    requires k in flights && k !in late && forall i :: i in late ==> i in flights && late[i] == flights[i]
    ensures ChannelsOf(late[k := flights[k]]) == ChannelsOf(late) + Channel(flights[k].reply)
    ensures ChannelsOf(late) !! Channel(flights[k].reply)
    ensures flights - late.Keys - {k} == flights - late[k := flights[k]].Keys
  {
    var more := late[k := flights[k]];
    forall r | r in ChannelsOf(late) ensures r in ChannelsOf(more) {
      var i :| i in late && late[i].reply == Some(r);
      assert more[i] == late[i];
    }
    assert more[k] == flights[k];
  }
}
