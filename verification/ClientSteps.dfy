/** What each way of ending a Session, and each command without one, does to the callers and to the desired list. */
module ClientSteps {
  import opened Wire
  import opened ServiceStore
  import opened ServiceStoreProofs
  import opened ReadyLoop
  import opened ClientLife
  import opened ClientLifeProofs
  import opened StoreExact
  import opened ClientExact

  /** The Session is over and nothing of it is shown any more; the desired list is as the last handler left it. */
  ghost predicate Over(l: Life, store: Store) {
    l.phase.Disconnected? && l.client.binds == [] && l.client.services == 0 && l.client.store.desired == store.desired
  }

  /** Everyone who waits in `s` has been told `e` in `t`, and nobody else anything; nobody waits any more. */
  ghost predicate AllTold(s: Store, t: Store, e: TunnelError) {
    && (forall r :: Sent(t.answers, r) == Sent(s.answers, r) + if Holds(s, r) then [Failed(e)] else [])
    && t.pending == None && t.inFlight == map[] && t.abandoned == map[] && t.active == map[]
  }

  lemma {:induction false} FinishedTold(s: Store, e: TunnelError)
    requires e != Io && e != Protocol
    ensures AllTold(s, ClearActive(FinishPending(s, e)), e)
  {
    var t := ClearActive(FinishPending(s, e));
    assert t.pending == None && t.inFlight == map[] && t.abandoned == map[] by { hide Settle, ServiceStore.Held; }
    forall r ensures Sent(t.answers, r) == Sent(s.answers, r) + if Holds(s, r) then [Failed(e)] else [] {
      FinishTells(s, e, r);
    }
  }

  /**
   A handler that goes on keeps the Session; one that breaks ends it and tells everyone waiting, Timeout if something
   was overdue and otherwise Disconnected; one that returns ends it and leaves the waiting to the next Session.
   */
  lemma {:induction false} HandlersEnd(l: Life, h: Handled)
    ensures
      var m := Conclude(l, h);
      match h.verdict
      case Continue => m.phase == l.phase && m.client == h.client
      case Return(_) => Over(m, h.client.store) && m.client.store == h.client.store
      case Break(timedOut) =>
        && Over(m, h.client.store)
        && AllTold(h.client.store, m.client.store, if timedOut then Timeout else TunnelError.Disconnected)
  {
    hide FinishPending, AllTold;
    if h.verdict.Break? {
      var e := if h.verdict.timedOut then Timeout else TunnelError.Disconnected;
      FinishedTold(h.client.store, e);
      KeptDesired(h.client.store, e);
    }
  }

  lemma {:induction false} KeptDesired(s: Store, e: TunnelError)
    ensures FinishPending(s, e).desired == s.desired
  {
    hide Settle, ServiceStore.Held;
  }

  /** A cancelled client tells everyone waiting so; a peer that closed the stream counts as a disconnection. */
  lemma {:induction false} CleanEndTells(l: Life, cancelled: bool)
    requires l.phase.Ready?
    ensures
      var m := Apply(l, EndClean(cancelled));
      && Over(m, l.client.store)
      && AllTold(l.client.store, m.client.store, if cancelled then Cancelled else TunnelError.Disconnected)
  {
    var e := if cancelled then Cancelled else TunnelError.Disconnected;
    FinishedTold(l.client.store, e);
    KeptDesired(l.client.store, e);
    hide FinishPending, AllTold;
  }

  /** A Session that fails early answers nobody; the next Session to begin tells everyone left waiting Disconnected. */
  lemma {:induction false} EarlyEndTellsLater(l: Life, session: SessionId, mode: Mode)
    requires !l.phase.Disconnected? && l.lastGeneration < U64_MAX
    ensures
      var m := Apply(l, EndEarly);
      && Over(m, l.client.store) && m.client.store == l.client.store
      && AllTold(l.client.store, Apply(m, Establish(session, mode)).client.store, TunnelError.Disconnected)
  {
    FinishedTold(l.client.store, TunnelError.Disconnected);
    hide FinishPending;
  }

  /** Without a Session a registration is turned down at once, and nothing else changes. */
  lemma {:induction false} SubmitWithoutSession(l: Life, service: Service, reply: Reply, closed: set<Reply>,
                                                write: Write, r: Reply)
    requires l.phase.Disconnected? && reply !in l.submitted
    ensures
      var m := Apply(l, Submit(service, reply, closed, write));
      && m == l.(client := m.client, submitted := l.submitted + {reply})
      && m.client == l.client.(store := l.client.store.(answers := m.client.store.answers))
      && Sent(m.client.store.answers, r) ==
           Sent(l.client.store.answers, r) + if r == reply then [Failed(TunnelError.Disconnected)] else []
  {
    OneSettled(l.client.store.answers, {reply}, Failed(TunnelError.Disconnected), r);
    hide Settle;
  }

  /** With or without a Session, a withdrawn Service is not wanted any more, and every other is. */
  lemma {:induction false} WithdrawnIsUnwanted(l: Life, id: ServiceId, written: bool, x: Service)
    requires !l.phase.Registering?
    ensures
      var m := Apply(l, Withdraw(id, written));
      && (x in m.client.store.desired <==> x in l.client.store.desired && x.id != id)
      && (l.phase.Disconnected? ==> m.phase == l.phase)
  {
    var s := Unregister(l.client.store, id);
    StaysWanted(l.client.store.desired, id, x);
    assert s.desired == Without(l.client.store.desired, id) by { hide Settle, Tombstone, Without; }
    UnregisterStore(l.client, id, written);
    if l.phase.Ready? {
      HandlersEnd(l.(log := l.log + [Left(id)]), OnUnregister(l.client, id, written));
      OthersGoOn(l.client, id, written, 0);
    }
    hide Unregister, OnUnregister, Without, Conclude, AllTold;
  }

  lemma {:induction false} StaysWanted(xs: seq<Service>, id: ServiceId, x: Service)
    ensures x in Without(xs, id) <==> x in xs && x.id != id
  {
    if xs == [] {
    } else {
      assert xs == [xs[0]] + xs[1..];
      StaysWanted(xs[1..], id, x);
    }
  }
}
