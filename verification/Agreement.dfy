/** What the two parties agree on whenever nothing is in flight, in every run, whatever was lost in it. */
module Agreement {
  import opened Wire
  import opened ServiceStore
  import opened ReadyLoop
  import opened ClientHistory
  import opened ServerControl
  import opened Protocol
  import opened Ledger
  import opened ProtocolProofs
  import opened Situations
  import opened LegacyReplies

  // ----- every run

  ghost predicate Holds(n: Net, b: Book) {
    Sound(n, b) && (!Correlated(n) ==> Accounted(n, b))
  }

  lemma {:induction false} StepHolds(n: Net, b: Book, step: Protocol.Step)
    requires n.up && Holds(n, b) && Apply(n, step).up
    ensures Holds(Apply(n, step), Noted(b, n, step))
  {
    hide Shaped, Booked, Accounted, Apply, Noted, SituationOf, Pinned, Settling, Correlated;
    StepSound(n, b, step);
    StepMode(n, step);
    if !Correlated(n) { StepAccounted(n, b, step); }
  }

  lemma {:induction false} DownStaysDown(n: Net, steps: seq<Protocol.Step>)
    requires !n.up
    ensures !Run(n, steps).up
    decreases |steps|
  {
    if steps == [] {
    } else {
      DownStaysDown(Apply(n, steps[0]), steps[1..]);
    }
  }

  lemma {:induction false} EveryRunHolds(n: Net, b: Book, steps: seq<Protocol.Step>)
    requires n.up && Holds(n, b)
    ensures Run(n, steps).up ==>
      Holds(Run(n, steps), Notes(b, n, steps)) && Correlated(Run(n, steps)) == Correlated(n)
    decreases |steps|
  {
    assert Shaped(n);
    hide Holds, Apply, Noted, Shaped, Correlated;
    if steps == [] {
    } else {
      var n1 := Apply(n, steps[0]);
      if n1.up {
        StepHolds(n, b, steps[0]);
        StepMode(n, steps[0]);
        EveryRunHolds(n1, Noted(b, n, steps[0]), steps[1..]);
      } else {
        DownStaysDown(n1, steps[1..]);
      }
    }
  }

  lemma {:induction false} BegunHolds(s: Store, mode: Mode, session: SessionId, generation: nat, limit: nat, max: nat)
    requires DesiredDistinct(s.desired)
    ensures Holds(Begun(s, mode, session, generation, limit, max), BLANK)
  {
    hide Settle, Held;
    var n := Begun(s, mode, session, generation, limit, max);
    assert n.client.store.desired[..0] == [];
  }

  // ----- nothing in flight

  predicate Quiet(n: Net) {
    n.up && n.toServer == [] && n.toClient == []
  }

  lemma {:induction false} QuietSituation(n: Net, b: Book, i: ServiceId)
    requires Quiet(n) && Holds(n, b)
    ensures
      var v := SituationOf(n, b, i);
      && v.mentions == [] && v.answers == [] && !v.status.Waiting?
      && (v.server.Some? <==> v.status.Live? || v.stranded) && !(v.status.Live? && v.stranded)
      && (v.status.Live? ==> v.server == Some(v.status.name))
      && (v.status.Buried? ==> v.lost && Correlated(n))
  {
    var v := SituationOf(n, b, i);
    assert Pinned(v);
    StrandedIsKept(b.fates, i);
    assert v.server.Some? <==> Kept(b.fates, i);
    hide Stranded, Kept, StoreStatus, InitialStatus, Shaped;
    if Correlated(n) {
      assert Settling(v);
    } else {
      assert Owed(n) == 0;
      QuietPlaces(n, b, i);
    }
  }

  lemma {:induction false} QuietPlaces(n: Net, b: Book, i: ServiceId)
    requires Quiet(n) && Shaped(n) && Accounted(n, b)
    ensures Healthy(SituationOf(n, b, i)) && Place(SituationOf(n, b, i).status) == 0
  {
    hide Inv, OfGeneration, Tabled, Labelled, Consistent, BindsMatch, ById, Stranded;
    assert Owed(n) == 0 && Slots(n) == 0;
    forall t ensures Place(SituationOf(n, b, t).status) == 0 { NoPlaces(n, t); }
  }

  lemma {:induction false} NoPlaces(n: Net, t: ServiceId)
    requires Slots(n) == 0
    ensures Place(StatusOf(n, t)) == 0
  {
    hide ById;
    if n.stage.Ready? {
      var s := n.client.store;
      assert s.abandoned == map[] && s.inFlight == map[] && s.pending == None;
    }
  }

  lemma {:induction false} QuietStore(n: Net, b: Book)
    requires Quiet(n) && n.stage.Ready? && Holds(n, b)
    ensures Unacknowledged(n.client.store) == 0 && n.client.store.active == ById(n.client.store.desired)
    ensures forall i :: i in n.client.store.abandoned ==> RequestLost(i) in b.fates && Correlated(n)
  {
    var s := n.client.store;
    assert Inv(s) && s.active == ById(s.desired) by { hide Inv, ById, BindsMatch, Labelled, Consistent; }
    ReadyApart(n);
    hide Holds, Inv, ById, Apart, OfGeneration;
    if s.pending.Some? {
      PlaceStatus(s, s.pending.value.service.id);
      QuietSituation(n, b, s.pending.value.service.id);
      assert false;
    }
    if k :| k in s.inFlight {
      PlaceStatus(s, k);
      QuietSituation(n, b, k);
      assert false;
    }
    forall i | i in s.abandoned ensures RequestLost(i) in b.fates && Correlated(n) {
      PlaceStatus(s, i);
      QuietSituation(n, b, i);
    }
  }

  lemma {:induction false} PlaceStatus(s: Store, i: ServiceId)
    requires Inv(s) && Apart(s)
    ensures PendingFor(s, i) || i in s.inFlight ==> StoreStatus(s, i).Waiting?
    ensures i in s.abandoned ==> StoreStatus(s, i).Buried?
  {
    hide Clash, Ceiling;
  }

  /**
   Agreement. Whenever a Session is ready, up, and has nothing in flight: no registration is unanswered, and the
   server has exactly the client's Services, under the same names, and those that are stranded there. So the parties
   agree if and only if nothing is stranded. A tombstone can only be left by a lost request.
   */
  lemma {:induction false} QuiescentPartiesAgree(s: Store, mode: Mode, session: SessionId, generation: nat,
                                                 limit: nat, max: nat, steps: seq<Protocol.Step>)
    requires DesiredDistinct(s.desired)
    ensures
      var start := Begun(s, mode, session, generation, limit, max);
      var n, fates := Run(start, steps), Notes(BLANK, start, steps).fates;
      n.stage.Ready? && Quiet(n) ==>
        && Unacknowledged(n.client.store) == 0
        && n.client.store.active == ById(n.client.store.desired)
        && (forall i :: i in n.table.services <==> i in n.client.store.active || Stranded(fates, i))
        && (forall i :: i in n.client.store.active ==>
              !Stranded(fates, i) && n.table.services[i] == n.client.store.active[i].name)
        && ((forall i :: i in n.table.services <==> i in n.client.store.active) <==> forall i :: !Stranded(fates, i))
        && (forall i :: i in n.client.store.abandoned ==> RequestLost(i) in fates && Correlated(n))
  {
    var start := Begun(s, mode, session, generation, limit, max);
    BegunHolds(s, mode, session, generation, limit, max);
    assert start.up;
    hide Begun;
    EveryRunHolds(start, BLANK, steps);
    var n, b := Run(start, steps), Notes(BLANK, start, steps);
    hide Run, Notes, Holds, Stranded, ById, StoreStatus;
    if n.stage.Ready? && Quiet(n) {
      QuietStore(n, b);
      forall i
        ensures i in n.table.services <==> i in n.client.store.active || Stranded(b.fates, i)
        ensures i in n.client.store.active ==>
          !Stranded(b.fates, i) && n.table.services[i] == n.client.store.active[i].name
      {
        QuietSituation(n, b, i);
        LiveIsActive(n.client.store, i);
      }
    }
  }

  lemma {:induction false} LiveIsActive(s: Store, i: ServiceId)
    ensures StoreStatus(s, i).Live? <==> i in s.active
    ensures i in s.active ==> StoreStatus(s, i) == Live(s.active[i].name)
  {
  }

  /** While the configured Services are still being registered, the server has exactly those acknowledged so far. */
  lemma {:induction false} QuiescentWhileRegistering(s: Store, mode: Mode, session: SessionId, generation: nat,
                                                     limit: nat, max: nat, steps: seq<Protocol.Step>)
    requires DesiredDistinct(s.desired)
    ensures
      var n := Run(Begun(s, mode, session, generation, limit, max), steps);
      n.stage.Registering? && Quiet(n) ==>
        && !n.stage.awaiting && n.stage.done <= |n.client.store.desired|
        && var acknowledged := ById(n.client.store.desired[..n.stage.done]);
           (forall i :: i in n.table.services <==> i in acknowledged)
           && forall i :: i in n.table.services ==> n.table.services[i] == acknowledged[i].name
  {
    var start := Begun(s, mode, session, generation, limit, max);
    BegunHolds(s, mode, session, generation, limit, max);
    assert start.up;
    hide Begun;
    EveryRunHolds(start, BLANK, steps);
    var n, b := Run(start, steps), Notes(BLANK, start, steps);
    hide Run, Notes;
    if n.stage.Registering? && Quiet(n) {
      RegisteringMeansAgreed(n, b);
    }
  }

  lemma {:induction false} RegisteringMeansAgreed(n: Net, b: Book)
    requires Holds(n, b) && n.stage.Registering? && Quiet(n)
    ensures !n.stage.awaiting && n.stage.done <= |n.client.store.desired|
    ensures
      var acknowledged := ById(n.client.store.desired[..n.stage.done]);
      (forall i :: i in n.table.services <==> i in acknowledged)
      && forall i :: i in n.table.services ==> n.table.services[i] == acknowledged[i].name
  {
    var done, desired := n.stage.done, n.client.store.desired;
    assert done <= |desired| && (n.stage.awaiting ==> done < |desired|);
    assert forall i :: !Stranded(b.fates, i);
    if n.stage.awaiting { NotYetRegistered(desired, done); }
    hide Holds, ById, Stranded;
    if n.stage.awaiting {
      QuietSituation(n, b, desired[done].id);
      assert false;
    }
    var acknowledged := ById(desired[..done]);
    forall i
      ensures i in n.table.services <==> i in acknowledged
      ensures i in n.table.services ==> n.table.services[i] == acknowledged[i].name
    {
      QuietSituation(n, b, i);
    }
  }

  // ----- when nothing is lost

  /** Every clean-up arrives, and so does every registration the client begins. Withdrawals may be lost. */
  predicate Arrives(step: Protocol.Step) {
    match step
    case ClientReceives(_, cleanupSent) => cleanupSent
    case Submit(_, _, _, write) => write != WriteTimedOut(false)
    case _ => true
  }

  lemma {:induction false} NothingLost(b: Book, n: Net, steps: seq<Protocol.Step>, i: ServiceId)
    requires forall k :: 0 <= k < |steps| ==> Arrives(steps[k])
    requires !Stranded(b.fates, i) && RequestLost(i) !in b.fates
    ensures !Stranded(Notes(b, n, steps).fates, i) && RequestLost(i) !in Notes(b, n, steps).fates
    decreases |steps|
  {
    if steps == [] {
    } else {
      OneNoteArrives(b, n, steps[0], i);
      assert forall k :: 0 <= k < |steps[1..]| ==> steps[1..][k] == steps[k + 1];
      NothingLost(Noted(b, n, steps[0]), Apply(n, steps[0]), steps[1..], i);
    }
  }

  lemma {:induction false} OneNoteArrives(b: Book, n: Net, step: Protocol.Step, i: ServiceId)
    requires Arrives(step) && !Stranded(b.fates, i) && RequestLost(i) !in b.fates
    ensures !Stranded(Noted(b, n, step).fates, i) && RequestLost(i) !in Noted(b, n, step).fates
  {
    hide OnRegister, TakeAck, AnswerBegin, Rule, Stranded;
    if step.ServerReceives? && n.toServer != [] {
      var m := n.toServer[0];
      assert b.fates + [] == b.fates;
      if m.RegisterService? { OneMoreFate(b.fates, Accepted(m.serviceId), i); }
      if m.UnregisterService? { OneMoreFate(b.fates, Unregistered(m.serviceId), i); }
    }
  }

  /** With clean-ups and registrations arriving, the parties agree outright and no tombstone is left. */
  lemma {:induction false} ArrivingWritesAgree(s: Store, mode: Mode, session: SessionId, generation: nat, limit: nat,
                                               max: nat, steps: seq<Protocol.Step>)
    requires DesiredDistinct(s.desired) && forall k :: 0 <= k < |steps| ==> Arrives(steps[k])
    ensures
      var n := Run(Begun(s, mode, session, generation, limit, max), steps);
      n.stage.Ready? && Quiet(n) ==>
        && n.client.store.abandoned == map[]
        && (forall i :: i in n.table.services <==> i in n.client.store.active)
  {
    var start := Begun(s, mode, session, generation, limit, max);
    QuiescentPartiesAgree(s, mode, session, generation, limit, max, steps);
    forall i
      ensures !Stranded(Notes(BLANK, start, steps).fates, i) && RequestLost(i) !in Notes(BLANK, start, steps).fates
    {
      NothingLost(BLANK, start, steps, i);
    }
    hide Run, Notes, Begun, Stranded;
  }
}
