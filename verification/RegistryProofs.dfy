/** The registry stays within its ceiling, and the drain loses no registration. */
module RegistryProofs {
  import opened Wire
  import opened Registry
  import opened Tally

  function Guarding(w: World): set<SessionId> {
    set s | s in w.sessions && w.sessions[s].stage == Guarded
  }

  /** Every guard's Session is alive and registered, and so is one on its way to a guard. */
  predicate Guards(w: World) {
    forall s :: s in w.sessions ==>
      match w.sessions[s].stage
      case Created => s !in w.entries
      case Inserted => w.sessions[s].alive ==> s in w.entries
      case Notified => w.sessions[s].alive ==> s in w.entries
      case Guarded => w.sessions[s].alive && s in w.entries
      case Leaving => w.sessions[s].alive && s in w.entries
      case Gone => true
  }

  /** Entries belong to Sessions that exist or existed, and there are no more than allowed. */
  predicate Entries(max: nat, w: World) {
    w.entries <= w.sessions.Keys && |w.entries| <= max
  }

  predicate Counted(w: World) {
    w.counter == |Guarding(w)|
  }

  lemma {:induction false} StepGuards(max: nat, w: World, step: Step)
    requires Possible(w, step) && w.entries <= w.sessions.Keys && Guards(w)
    ensures Guards(Apply(max, w, step))
  {
    if step.Insert? { InsertGuards(max, w, step.session); }
  }

  lemma {:induction false} InsertGuards(max: nat, w: World, s: SessionId)
    requires At(w, s, Created) && Guards(w)
    ensures Guards(Apply(max, w, Insert(s)))
  {
    var v := Apply(max, w, Insert(s));
    forall r | r in w.sessions && r != s ensures r in v.entries <==> r in w.entries && w.sessions[r].alive {
      assert v.sessions[r] == w.sessions[r];
    }
    hide Registered, Live;
  }

  lemma {:induction false} RegisteredSize(entries: set<SessionId>, alive: set<SessionId>, s: SessionId, max: nat)
    requires |entries| <= max
    ensures |Registered(entries, alive, s, max)| <= max && Registered(entries, alive, s, max) <= entries + {s}
  {
    SubsetSize(Live(entries, alive), entries);
  }

  lemma {:induction false} StepEntries(max: nat, w: World, step: Step)
    requires Possible(w, step) && Entries(max, w)
    ensures Entries(max, Apply(max, w, step))
  {
    hide Registered, Live, Alive;
    if step.Insert? {
      RegisteredSize(w.entries, Alive(w), step.session, max);
    } else if step.Remove? {
      SubsetSize(w.entries - {step.session}, w.entries);
    }
  }

  lemma {:induction false} StepCounted(max: nat, w: World, step: Step)
    requires Possible(w, step) && Counted(w)
    ensures Counted(Apply(max, w, step))
  {
    hide Apply, Possible, Guarding;
    var v := Apply(max, w, step);
    forall r ensures r in Guarding(v) <==> GuardedAfter(w, step, r) { GuardingAt(max, w, step, r); }
    CounterAfter(max, w, step);
    if step.Guard? {
      assert Guarding(v) == Guarding(w) + {step.session};
    } else if step.CountOff? {
      assert Guarding(v) == Guarding(w) - {step.session};
    } else {
      assert Guarding(v) == Guarding(w);
    }
  }

  predicate GuardedAfter(w: World, step: Step, r: SessionId) {
    if step.Guard? && r == step.session then true
    else if step.CountOff? && r == step.session then false
    else r in Guarding(w)
  }

  lemma {:induction false} GuardingAt(max: nat, w: World, step: Step, r: SessionId)
    requires Possible(w, step)
    ensures r in Guarding(Apply(max, w, step)) <==> GuardedAfter(w, step, r)
  {
    hide Registered, Live, Alive;
  }

  lemma {:induction false} CounterAfter(max: nat, w: World, step: Step)
    requires Possible(w, step)
    ensures Apply(max, w, step).counter == w.counter + (if step.Guard? then 1 else if step.CountOff? then -1 else 0)
    ensures step.Guard? ==> step.session !in Guarding(w)
    ensures step.CountOff? ==> step.session in Guarding(w)
  {
    hide Registered, Live, Alive;
  }

  // ----- no lost wake-up

  /** A Session the drain could still miss: alive and registered, its registrar done notifying. */
  predicate Announced(w: World, s: SessionId) {
    s in w.entries && s in w.sessions && w.sessions[s].alive && w.sessions[s].stage != Inserted
  }

  ghost predicate NothingMissed(w: World) {
    && (w.drain.Visiting? && !w.signalled ==> forall s :: Announced(w, s) ==> s in w.told || s in w.drain.todo)
    && (w.drain.Waiting? && !w.signalled ==> forall s :: Announced(w, s) ==> s in w.told)
  }

  ghost predicate ToldOnce(w: World) {
    && (forall s :: s in w.told <==> s in w.visits)
    && (forall i, j :: 0 <= i < j < |w.visits| ==> w.visits[i] != w.visits[j])
    && w.queued <= w.told
  }

  lemma {:induction false} StepMissed(max: nat, w: World, step: Step)
    requires Possible(w, step) && Guards(w) && w.entries <= w.sessions.Keys && NothingMissed(w)
    ensures NothingMissed(Apply(max, w, step))
  {
  }

  lemma {:induction false} StepTold(max: nat, w: World, step: Step)
    requires Possible(w, step) && ToldOnce(w)
    ensures ToldOnce(Apply(max, w, step))
  {
    hide Registered, Live, Alive;
  }

  ghost predicate Sound(max: nat, w: World) {
    Entries(max, w) && Counted(w) && Guards(w) && NothingMissed(w) && ToldOnce(w)
  }

  lemma {:induction false} RunSound(max: nat, w: World, steps: seq<Step>)
    requires Sound(max, w)
    ensures Sound(max, Run(max, w, steps))
    decreases |steps|
  {
    hide Possible, Apply, Counted, Guards, NothingMissed, ToldOnce;
    if steps == [] {
    } else {
      if Possible(w, steps[0]) {
        StepEntries(max, w, steps[0]);
        StepCounted(max, w, steps[0]);
        StepGuards(max, w, steps[0]);
        StepMissed(max, w, steps[0]);
        StepTold(max, w, steps[0]);
        RunSound(max, Apply(max, w, steps[0]), steps[1..]);
      } else {
        RunSound(max, w, steps[1..]);
      }
    }
  }

  lemma {:induction false} StartSound(max: nat)
    ensures Sound(max, START)
  {
    assert Guarding(START) == {};
  }

  /** The Sessions counter never exceeds the ceiling, because every counted Session has its own registry entry. */
  lemma {:induction false} SessionsWithinCeiling(max: nat, steps: seq<Step>)
    ensures var w := Run(max, START, steps);
      && w.counter == |Guarding(w)| && Guarding(w) <= Live(w.entries, Alive(w)) && |w.entries| <= max
      && 0 <= w.counter <= max
  {
    StartSound(max);
    RunSound(max, START, steps);
    var w := Run(max, START, steps);
    hide Run;
    SubsetSize(Guarding(w), w.entries);
  }

  /**
   Whenever the drain is blocked and unsignalled, every live registered Session has been visited or has yet to announce
   itself, and none is ever visited twice.
   */
  lemma {:induction false} DrainMissesNobody(max: nat, steps: seq<Step>)
    ensures var w := Run(max, START, steps);
      && (w.drain.Waiting? && !w.signalled ==>
        forall s :: s in Live(w.entries, Alive(w)) ==> s in w.visits || w.sessions[s].stage == Inserted)
      && (forall i, j :: 0 <= i < j < |w.visits| ==> w.visits[i] != w.visits[j])
  {
    StartSound(max);
    RunSound(max, START, steps);
    var w := Run(max, START, steps);
    hide Run;
    if w.drain.Waiting? && !w.signalled {
      forall s | s in Live(w.entries, Alive(w)) ensures s in w.visits || w.sessions[s].stage == Inserted {
        assert w.sessions[s].stage != Inserted ==> Announced(w, s);
      }
    }
  }

  /** A Session gets a Drain message exactly if its one visit finds its control queue there and with room. */
  lemma {:induction false} QueuedAtTheVisit(max: nat, w: World, s: SessionId, room: bool, later: seq<Step>)
    requires Possible(w, VisitOne(s, room)) && s !in w.told && s !in w.queued && s in w.sessions
    ensures s in Run(max, Apply(max, w, VisitOne(s, room)), later).queued <==> w.sessions[s].sender && room
  {
    var v := Apply(max, w, VisitOne(s, room));
    QueueSettled(max, v, s, later);
  }

  lemma {:induction false} QueueSettled(max: nat, w: World, s: SessionId, steps: seq<Step>)
    requires s in w.told
    ensures s in Run(max, w, steps).queued <==> s in w.queued
    decreases |steps|
  {
    if steps == [] {
    } else {
      if Possible(w, steps[0]) {
        var v := Apply(max, w, steps[0]);
        assert s in v.told && (s in v.queued <==> s in w.queued);
        QueueSettled(max, v, s, steps[1..]);
      } else {
        QueueSettled(max, w, s, steps[1..]);
      }
    }
  }

  /** So a Session visited before its control queue exists is alive, visited, and never told. */
  lemma {:induction false} VisitedTooEarly(s: SessionId, later: seq<Step>)
    ensures
      var w := Run(1, START, [Create(s), Insert(s), Notify(s), Guard(s), TakeInterest, Enumerate]);
      && Possible(w, VisitOne(s, true))
      && s in Live(w.entries, Alive(w))
      && s !in Run(1, Apply(1, w, VisitOne(s, true)), later).queued
  {
    var early := [Create(s), Insert(s), Notify(s), Guard(s), TakeInterest, Enumerate];
    var w := Ready(s);
    assert Run(1, START, early) == w by { ReadyAfter(s); }
    hide Run;
    assert Alive(w) == {s};
    QueuedAtTheVisit(1, w, s, true, later);
  }

  /** One Session without a queue yet, at a given stage. */
  function Lone(s: SessionId, stage: Stage, entries: set<SessionId>, counter: int, drain: Drain): World {
    World(map[s := Session(stage, false, true)], entries, counter, drain, false, {}, [], {})
  }

  function Ready(s: SessionId): World {
    Lone(s, Guarded, {s}, 1, Visiting({s}))
  }

  lemma {:induction false} RunFirst(max: nat, w: World, step: Step, v: World, rest: seq<Step>)
    requires Possible(w, step) && Apply(max, w, step) == v
    ensures Run(max, w, [step] + rest) == Run(max, v, rest)
  {
    hide Possible, Apply;
    assert ([step] + rest)[1..] == rest;
  }

  lemma {:induction false} Admitted(s: SessionId)
    ensures Possible(START, Create(s)) && Apply(1, START, Create(s)) == Lone(s, Created, {}, 0, Resting)
    ensures Possible(Lone(s, Created, {}, 0, Resting), Insert(s))
    ensures Apply(1, Lone(s, Created, {}, 0, Resting), Insert(s)) == Lone(s, Inserted, {s}, 0, Resting)
  {
    var w := Lone(s, Created, {}, 0, Resting);
    assert Live({}, Alive(w)) == {};
    assert w.sessions[s := Session(Inserted, false, true)] == map[s := Session(Inserted, false, true)];
  }

  lemma {:induction false} Notifies(s: SessionId)
    ensures Possible(Lone(s, Inserted, {s}, 0, Resting), Notify(s))
    ensures Apply(1, Lone(s, Inserted, {s}, 0, Resting), Notify(s)) == Lone(s, Notified, {s}, 0, Resting)
    ensures Possible(Lone(s, Notified, {s}, 0, Resting), Guard(s))
    ensures Apply(1, Lone(s, Notified, {s}, 0, Resting), Guard(s)) == Lone(s, Guarded, {s}, 1, Resting)
  {
    hide Registered, Live, Alive;
    var m := map[s := Session(Inserted, false, true)];
    assert m[s := Session(Notified, false, true)] == map[s := Session(Notified, false, true)];
    var n := map[s := Session(Notified, false, true)];
    assert n[s := Session(Guarded, false, true)] == map[s := Session(Guarded, false, true)];
  }

  lemma {:induction false} Enumerated(s: SessionId)
    ensures Possible(Lone(s, Guarded, {s}, 1, Resting), TakeInterest)
    ensures Apply(1, Lone(s, Guarded, {s}, 1, Resting), TakeInterest) == Lone(s, Guarded, {s}, 1, Interested)
    ensures Possible(Lone(s, Guarded, {s}, 1, Interested), Enumerate)
    ensures Apply(1, Lone(s, Guarded, {s}, 1, Interested), Enumerate) == Ready(s)
  {
    var w := Lone(s, Guarded, {s}, 1, Interested);
    assert Alive(w) == {s} && Live({s}, {s}) == {s};
  }

  lemma {:induction false} ReadyAfter(s: SessionId)
    ensures Run(1, START, [Create(s), Insert(s), Notify(s), Guard(s), TakeInterest, Enumerate]) == Ready(s)
  {
    hide Run, Possible, Apply, Lone, Ready;
    Admitted(s);
    Notifies(s);
    Enumerated(s);
    var t5 := [Enumerate];
    var t4 := [TakeInterest] + t5;
    var t3 := [Guard(s)] + t4;
    var t2 := [Notify(s)] + t3;
    var t1 := [Insert(s)] + t2;
    RunFirst(1, START, Create(s), Lone(s, Created, {}, 0, Resting), t1);
    RunFirst(1, Lone(s, Created, {}, 0, Resting), Insert(s), Lone(s, Inserted, {s}, 0, Resting), t2);
    RunFirst(1, Lone(s, Inserted, {s}, 0, Resting), Notify(s), Lone(s, Notified, {s}, 0, Resting), t3);
    RunFirst(1, Lone(s, Notified, {s}, 0, Resting), Guard(s), Lone(s, Guarded, {s}, 1, Resting), t4);
    RunFirst(1, Lone(s, Guarded, {s}, 1, Resting), TakeInterest, Lone(s, Guarded, {s}, 1, Interested), t5);
    RunFirst(1, Lone(s, Guarded, {s}, 1, Interested), Enumerate, Ready(s), []);
    RunsOut(1, Ready(s));
    assert t5 == [Enumerate] + [];
    assert [Create(s)] + t1 == [Create(s), Insert(s), Notify(s), Guard(s), TakeInterest, Enumerate];
  }

  lemma {:induction false} RunsOut(max: nat, w: World)
    ensures Run(max, w, []) == w
  {
  }
}
