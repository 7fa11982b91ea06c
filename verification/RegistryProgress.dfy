/** Who gets into the registry, that leaving makes room again, and that a newcomer is drained too. */
module RegistryProgress {
  import opened Wire
  import opened Registry
  import opened RegistryProofs

  lemma {:induction false} RunTwo(max: nat, w: World, a: Step, b: Step)
    requires Possible(w, a) && Possible(Apply(max, w, a), b)
    ensures Run(max, w, [a, b]) == Apply(max, Apply(max, w, a), b)
  {
    hide Possible, Apply;
    assert [a, b][1..] == [b] && [b][1..] == [];
    assert Run(max, Apply(max, Apply(max, w, a), b), []) == Apply(max, Apply(max, w, a), b);
    assert Run(max, Apply(max, w, a), [b]) == Apply(max, Apply(max, w, a), b);
  }

  lemma {:induction false} RunFour(max: nat, w: World, a: Step, b: Step, c: Step, d: Step)
    requires Possible(w, a) && Possible(Apply(max, w, a), b)
    ensures Run(max, w, [a, b, c, d]) == Run(max, Apply(max, Apply(max, w, a), b), [c, d])
  {
    hide Possible, Apply;
    assert [a, b, c, d] == [a] + ([b] + [c, d]);
    RunFirst(max, w, a, Apply(max, w, a), [b] + [c, d]);
    RunFirst(max, Apply(max, w, a), b, Apply(max, Apply(max, w, a), b), [c, d]);
  }

  lemma {:induction false} NeitherPossible(max: nat, w: World, c: Step, d: Step)
    requires !Possible(w, c) && !Possible(w, d)
    ensures Run(max, w, [c, d]) == w
  {
    hide Possible, Apply;
    assert [c, d][1..] == [d] && [d][1..] == [];
    assert Run(max, w, []) == w;
    assert Run(max, w, [d]) == w;
  }

  /** The registered Sessions that someone still holds. */
  function Living(w: World): set<SessionId> {
    set s | s in w.entries && s in w.sessions && w.sessions[s].alive
  }

  lemma {:induction false} InsertDecides(max: nat, w: World, s: SessionId)
    requires s !in w.sessions && s !in w.entries
    ensures
      var v := Apply(max, Apply(max, w, Create(s)), Insert(s));
      && v.counter == w.counter && v.entries == (if |Living(w)| < max then Living(w) + {s} else Living(w))
      && s in v.sessions && v.sessions[s] == Session(if |Living(w)| < max then Inserted else Gone, false, true)
  {
    var v := Apply(max, w, Create(s));
    assert Live(v.entries, Alive(v)) == Living(w);
  }

  lemma {:induction false} AnnounceAndGuard(max: nat, w: World, s: SessionId)
    requires s in w.sessions && w.sessions[s].alive
    requires w.sessions[s].stage == Inserted || w.sessions[s].stage == Gone
    ensures
      var v := Run(max, w, [Notify(s), Guard(s)]);
      var there := w.sessions[s].stage == Inserted;
      && v.entries == w.entries && v.counter == w.counter + (if there then 1 else 0)
      && s in v.sessions && (v.sessions[s].stage == Guarded <==> there)
  {
    hide Run;
    if w.sessions[s].stage == Inserted {
      RunTwo(max, w, Notify(s), Guard(s));
    } else {
      NeitherPossible(max, w, Notify(s), Guard(s));
    }
  }

  lemma {:induction false} AdmittedFrom(max: nat, w: World, s: SessionId)
    requires s !in w.sessions && s !in w.entries
    ensures
      var v := Run(max, w, [Create(s), Insert(s), Notify(s), Guard(s)]);
      var room := |Living(w)| < max;
      && (s in v.entries <==> room) && v.counter == w.counter + (if room then 1 else 0)
      && s in v.sessions && (v.sessions[s].stage == Guarded <==> room)
  {
    InsertDecides(max, w, s);
    RunFour(max, w, Create(s), Insert(s), Notify(s), Guard(s));
    hide Run, Apply;
    AnnounceAndGuard(max, Apply(max, Apply(max, w, Create(s)), Insert(s)), s);
  }

  /**
   After any run, a new Session is registered and counted exactly when fewer registered Sessions than the ceiling are
   still alive; otherwise it is neither.
   */
  lemma {:induction false} AdmittedExactly(max: nat, steps: seq<Step>, s: SessionId)
    requires s !in Run(max, START, steps).sessions
    ensures
      var w := Run(max, START, steps);
      var v := Run(max, w, [Create(s), Insert(s), Notify(s), Guard(s)]);
      var room := |Living(w)| < max;
      && (s in v.entries <==> room) && v.counter == w.counter + (if room then 1 else 0)
      && s in v.sessions && (v.sessions[s].stage == Guarded <==> room)
  {
    StartSound(max);
    RunSound(max, START, steps);
    AdmittedFrom(max, Run(max, START, steps), s);
  }

  /** A counted Session that leaves is counted off and forgotten, and no other is. */
  lemma {:induction false} LeavingMakesRoom(max: nat, w: World, s: SessionId)
    requires At(w, s, Guarded)
    ensures
      var v := Run(max, w, [CountOff(s), Remove(s)]);
      v.counter == w.counter - 1 && v.entries == w.entries - {s} && v.sessions - {s} == w.sessions - {s}
  {
    hide Run;
    RunTwo(max, w, CountOff(s), Remove(s));
  }

  /** A Session nobody holds any more takes up no room, though its entry is still there. */
  lemma {:induction false} ReleasedMakesRoom(max: nat, w: World, s: SessionId)
    requires Possible(w, Release(s))
    ensures
      var v := Apply(max, w, Release(s));
      Living(v) == Living(w) - {s} && v.entries == w.entries && v.counter == w.counter
  {
  }

  /** A guarded Session whose queue is set before its visit, and has room, is told to drain. */
  lemma {:induction false} QueuedInTimeIsTold(max: nat, w: World, s: SessionId, later: seq<Step>)
    requires At(w, s, Guarded) && w.drain.Visiting? && s in w.drain.todo && s !in w.told && s !in w.queued
    ensures s in Run(max, w, [SetSender(s), VisitOne(s, true)] + later).queued
  {
    var v := Apply(max, w, SetSender(s));
    assert [SetSender(s), VisitOne(s, true)] + later == [SetSender(s)] + ([VisitOne(s, true)] + later);
    RunFirst(max, w, SetSender(s), v, [VisitOne(s, true)] + later);
    RunFirst(max, v, VisitOne(s, true), Apply(max, v, VisitOne(s, true)), later);
    QueuedAtTheVisit(max, v, s, true, later);
    hide Run;
  }

  /** A round of the drain is over exactly the registered Sessions that someone still holds. */
  lemma {:induction false} RoundIsOfTheLiving(max: nat, w: World)
    requires w.drain == Resting
    ensures
      var v := Run(max, w, [TakeInterest, Enumerate]);
      v.drain == Visiting(Living(w)) && !v.signalled && v.told == w.told && v.sessions == w.sessions
  {
    hide Run;
    RunTwo(max, w, TakeInterest, Enumerate);
    var v := Apply(max, w, TakeInterest);
    assert Live(v.entries, Alive(v)) == Living(w);
  }

  /** After any run, a Session that announces itself to a blocked drain is on the drain's next round. */
  lemma {:induction false} NewcomerIsDrained(max: nat, steps: seq<Step>, s: SessionId)
    requires
      var w := Run(max, START, steps);
      w.drain == Waiting && At(w, s, Inserted)
    ensures
      var v := Run(max, Run(max, START, steps), [Notify(s), Wake, TakeInterest, Enumerate]);
      v.drain.Visiting? && s in v.drain.todo
  {
    StartSound(max);
    RunSound(max, START, steps);
    var w := Run(max, START, steps);
    hide Run;
    RunFour(max, w, Notify(s), Wake, TakeInterest, Enumerate);
    var v := Apply(max, Apply(max, w, Notify(s)), Wake);
    RunTwo(max, v, TakeInterest, Enumerate);
  }
}
