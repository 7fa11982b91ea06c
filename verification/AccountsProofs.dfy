/** The services counter and the bind table account for every Session, in every interleaving. */
module AccountsProofs {
  import opened Wire
  import opened Accounts
  import opened Tally
  import ServerControl

  function Occurs(binds: seq<Bind>, s: SessionId, id: ServiceId): nat {
    if binds == [] then 0
    else
      var b := binds[|binds| - 1];
      Occurs(binds[..|binds| - 1], s, id) + (if b.session == s && b.service == id then 1 else 0)
  }

  function CountOf(binds: seq<Bind>, s: SessionId): nat {
    if binds == [] then 0
    else CountOf(binds[..|binds| - 1], s) + (if binds[|binds| - 1].session == s then 1 else 0)
  }

  lemma {:induction false} Pushing(binds: seq<Bind>, b: Bind, s: SessionId, id: ServiceId)
    ensures Occurs(binds + [b], s, id) == Occurs(binds, s, id) + if b.session == s && b.service == id then 1 else 0
    ensures CountOf(binds + [b], s) == CountOf(binds, s) + if b.session == s then 1 else 0
  {
    assert (binds + [b])[..|binds|] == binds;
  }

  lemma {:induction false} Keeping(binds: seq<Bind>, b: Bind, keep: bool, s: SessionId, id: ServiceId)
    ensures var after := binds + (if keep then [b] else []);
      && Occurs(after, s, id) == Occurs(binds, s, id) + (if keep && b.session == s && b.service == id then 1 else 0)
      && CountOf(after, s) == CountOf(binds, s) + (if keep && b.session == s then 1 else 0)
  {
    if keep { Pushing(binds, b, s, id); } else { assert binds + [] == binds; }
  }

  lemma {:induction false} ServiceRemoved(binds: seq<Bind>, s: SessionId, id: ServiceId, r: SessionId, k: ServiceId)
    ensures var kept := WithoutService(binds, s, id);
      && Occurs(kept, r, k) == (if r == s && k == id then 0 else Occurs(binds, r, k))
      && CountOf(kept, r) == CountOf(binds, r) - (if r == s then Occurs(binds, s, id) else 0)
      && |kept| == |binds| - Occurs(binds, s, id)
  {
    if binds == [] {
    } else {
      var front, b := binds[..|binds| - 1], binds[|binds| - 1];
      ServiceRemoved(front, s, id, r, k);
      Keeping(WithoutService(front, s, id), b, b.session != s || b.service != id, r, k);
    }
  }

  lemma {:induction false} SessionRemoved(binds: seq<Bind>, s: SessionId, r: SessionId, k: ServiceId)
    ensures var kept := WithoutSession(binds, s);
      && Occurs(kept, r, k) == (if r == s then 0 else Occurs(binds, r, k))
      && CountOf(kept, r) == (if r == s then 0 else CountOf(binds, r))
      && |kept| == |binds| - CountOf(binds, s)
  {
    if binds == [] {
    } else {
      var front, b := binds[..|binds| - 1], binds[|binds| - 1];
      SessionRemoved(front, s, r, k);
      Keeping(WithoutSession(front, s), b, b.session != s, r, k);
    }
  }

  // ----- the invariant

  /** How many binds, and how much of the counter, a Session answers for. */
  function Bound(x: Session): nat {
    match x.phase
    case Pushed(_, _) => |x.table.services| + 1
    case Closing(_) => 0
    case _ => |x.table.services|
  }

  function Claimed(x: Session): nat {
    match x.phase
    case Unbound => |x.table.services| + 1
    case Closing(owed) => owed
    case _ => |x.table.services|
  }

  predicate HasBind(x: Session, id: ServiceId) {
    !x.phase.Closing? && (id in x.table.services || (x.phase.Pushed? && x.phase.id == id))
  }

  function AllBound(m: map<SessionId, Session>): map<SessionId, nat> {
    map s | s in m :: Bound(m[s])
  }

  function AllClaimed(m: map<SessionId, Session>): map<SessionId, nat> {
    map s | s in m :: Claimed(m[s])
  }

  ghost predicate Totals(w: World) {
    w.counter == Sum(AllClaimed(w.sessions)) && |w.binds| == Sum(AllBound(w.sessions))
  }

  predicate Listed(w: World, s: SessionId, id: ServiceId) {
    s in w.sessions && HasBind(w.sessions[s], id)
  }

  /** Every bind is a live Service's own, and there is one for each. */
  ghost predicate Exact(w: World) {
    && (forall s, id :: Occurs(w.binds, s, id) == if Listed(w, s, id) then 1 else 0)
    && (forall s :: CountOf(w.binds, s) == if s in w.sessions then Bound(w.sessions[s]) else 0)
  }

  ghost predicate Tidy(w: World) {
    forall s :: s in w.sessions ==>
      && ServerControl.Consistent(w.sessions[s].table)
      && (w.sessions[s].phase.Pushed? ==>
        w.sessions[s].phase.id !in w.sessions[s].table.services
          && w.sessions[s].phase.name !in w.sessions[s].table.names)
  }

  lemma {:induction false} PutTotals(w: World, s: SessionId, x: Session)
    ensures Sum(AllClaimed(w.sessions[s := x])) == Sum(AllClaimed(w.sessions)) + Claimed(x)
      - (if s in w.sessions then Claimed(w.sessions[s]) else 0)
    ensures Sum(AllBound(w.sessions[s := x])) == Sum(AllBound(w.sessions)) + Bound(x)
      - (if s in w.sessions then Bound(w.sessions[s]) else 0)
  {
    hide Sum, Claimed, Bound;
    assert AllClaimed(w.sessions[s := x]) == AllClaimed(w.sessions)[s := Claimed(x)];
    assert AllBound(w.sessions[s := x]) == AllBound(w.sessions)[s := Bound(x)];
    SumPut(AllClaimed(w.sessions), s, Claimed(x));
    SumPut(AllBound(w.sessions), s, Bound(x));
  }

  lemma {:induction false} DropTotals(w: World, s: SessionId)
    requires s in w.sessions
    ensures Sum(AllClaimed(w.sessions - {s})) == Sum(AllClaimed(w.sessions)) - Claimed(w.sessions[s])
    ensures Sum(AllBound(w.sessions - {s})) == Sum(AllBound(w.sessions)) - Bound(w.sessions[s])
  {
    hide Sum, Claimed, Bound;
    assert AllClaimed(w.sessions - {s}) == AllClaimed(w.sessions) - {s};
    assert AllBound(w.sessions - {s}) == AllBound(w.sessions) - {s};
    SumDrop(AllClaimed(w.sessions), s);
    SumDrop(AllBound(w.sessions), s);
  }

  lemma {:induction false} UnbindTotals(w: World, s: SessionId, id: ServiceId)
    requires Possible(w, Unbind(s, id)) && Totals(w) && Exact(w)
    ensures Totals(Apply(w, Unbind(s, id)))
  {
    hide Sum, AllClaimed, AllBound, WithoutService, CountOf;
    if id in w.sessions[s].table.services {
      assert Listed(w, s, id);
      assert Occurs(w.binds, s, id) == 1;
      hide Exact, Occurs;
      ServiceRemoved(w.binds, s, id, s, id);
      ShrinkSize(w.sessions[s].table.services, id);
      PutTotals(w, s, Apply(w, Unbind(s, id)).sessions[s]);
    }
  }

  lemma {:induction false} CloseTotals(w: World, s: SessionId)
    requires Possible(w, Close(s)) && Totals(w) && Exact(w)
    ensures Totals(Apply(w, Close(s)))
  {
    hide Sum, AllClaimed, AllBound, WithoutSession, Occurs, CountOf;
    assert CountOf(w.binds, s) == Bound(w.sessions[s]);
    hide Exact;
    SessionRemoved(w.binds, s, s, 0);
    PutTotals(w, s, Apply(w, Close(s)).sessions[s]);
  }

  lemma {:induction false} PlainTotals(w: World, step: Step)
    requires step.Open? || step.CountDown? || step.Settle? || step.Push?
    requires Possible(w, step) && Totals(w)
    ensures Totals(Apply(w, step))
  {
    hide Sum, AllClaimed, AllBound, ServerControl.Admit;
    var s := step.session;
    if step.Settle? {
      DropTotals(w, s);
    } else if Apply(w, step) != w {
      PutTotals(w, s, Apply(w, step).sessions[s]);
    }
  }

  lemma {:induction false} CountUpTotals(w: World, s: SessionId)
    requires Possible(w, CountUp(s)) && Totals(w) && w.sessions[s].phase.id !in w.sessions[s].table.services
    ensures Totals(Apply(w, CountUp(s)))
  {
    hide Sum, AllClaimed, AllBound;
    PutTotals(w, s, Apply(w, CountUp(s)).sessions[s]);
  }

  lemma {:induction false} StepTotals(w: World, step: Step)
    requires Possible(w, step) && Totals(w) && Exact(w) && Tidy(w)
    ensures Totals(Apply(w, step))
  {
    hide Apply, Exact, Totals, ServerControl.Consistent;
    match step
    case Unbind(s, id) => UnbindTotals(w, s, id);
    case Close(s) => CloseTotals(w, s);
    case CountUp(s) => CountUpTotals(w, s);
    case _ => PlainTotals(w, step);
  }

  lemma {:induction false} StepTidy(w: World, step: Step)
    requires Possible(w, step) && Tidy(w)
    ensures Tidy(Apply(w, step))
  {
    hide WithoutService, WithoutSession, ServerControl.Inserted, ServerControl.Removed;
    match step
    case Open(s) =>
    case CountUp(s) =>
      var x := w.sessions[s];
      hide ServerControl.Consistent;
      ServerControl.InsertedConsistent(x.table, x.phase.id, x.phase.name);
    case Unbind(s, id) =>
      hide ServerControl.Consistent;
      ServerControl.RemovedConsistent(w.sessions[s].table, id);
    case _ => hide ServerControl.Consistent;
  }

  lemma {:induction false} StepExact(w: World, step: Step)
    requires Possible(w, step) && Exact(w) && Tidy(w)
    ensures Exact(Apply(w, step))
  {
    hide Exact, Tidy;
    var v := Apply(w, step);
    forall r, k ensures Occurs(v.binds, r, k) == if Listed(v, r, k) then 1 else 0 { OccursAfter(w, step, r, k); }
    forall r ensures CountOf(v.binds, r) == if r in v.sessions then Bound(v.sessions[r]) else 0 {
      CountAfter(w, step, r);
    }
    assert Exact(v) by { ExactIs(v); }
  }

  lemma {:induction false} ExactIs(w: World)
    requires forall s, id :: Occurs(w.binds, s, id) == if Listed(w, s, id) then 1 else 0
    requires forall s :: CountOf(w.binds, s) == if s in w.sessions then Bound(w.sessions[s]) else 0
    ensures Exact(w)
  {
  }

  lemma {:induction false} OccursAfter(w: World, step: Step, r: SessionId, k: ServiceId)
    requires Possible(w, step) && Exact(w) && Tidy(w)
    ensures Occurs(Apply(w, step).binds, r, k) == if Listed(Apply(w, step), r, k) then 1 else 0
  {
    hide WithoutService, WithoutSession, Occurs, CountOf, ServerControl.Consistent;
    var s := step.session;
    assert Occurs(w.binds, r, k) == if Listed(w, r, k) then 1 else 0;
    match step
    case Push(_, max, id, name, listener) =>
      var admission := ServerControl.Admit(w.sessions[s].table, max, id, name, listener);
      if admission.Admitted? { Pushing(w.binds, Bind(s, id, admission.bind), r, k); }
    case Unbind(_, id) => ServiceRemoved(w.binds, s, id, r, k);
    case Close(_) => SessionRemoved(w.binds, s, r, k);
    case Settle(_) =>
      assert !Listed(w, s, k);
    case _ =>
  }

  lemma {:induction false} CountAfter(w: World, step: Step, r: SessionId)
    requires Possible(w, step) && Exact(w) && Tidy(w)
    ensures var v := Apply(w, step); CountOf(v.binds, r) == if r in v.sessions then Bound(v.sessions[r]) else 0
  {
    hide WithoutService, WithoutSession, Occurs, CountOf, ServerControl.Consistent;
    var s := step.session;
    assert CountOf(w.binds, r) == if r in w.sessions then Bound(w.sessions[r]) else 0;
    match step
    case Push(_, max, id, name, listener) =>
      var admission := ServerControl.Admit(w.sessions[s].table, max, id, name, listener);
      if admission.Admitted? { Pushing(w.binds, Bind(s, id, admission.bind), r, id); }
    case Unbind(_, id) =>
      if id in w.sessions[s].table.services {
        assert Listed(w, s, id);
        ServiceRemoved(w.binds, s, id, r, id);
        ShrinkSize(w.sessions[s].table.services, id);
      }
    case Close(_) => SessionRemoved(w.binds, s, r, 0);
    case _ =>
  }

  ghost predicate Sound(w: World) {
    Totals(w) && Exact(w) && Tidy(w)
  }

  lemma {:induction false} RunSound(w: World, steps: seq<Step>)
    requires Sound(w)
    ensures Sound(Run(w, steps))
    decreases |steps|
  {
    hide Possible, Apply, Totals, Exact, Tidy;
    if steps == [] {
    } else {
      if Possible(w, steps[0]) {
        StepTotals(w, steps[0]);
        StepExact(w, steps[0]);
        StepTidy(w, steps[0]);
        RunSound(Apply(w, steps[0]), steps[1..]);
      } else {
        RunSound(w, steps[1..]);
      }
    }
  }

  lemma {:induction false} StartSound()
    ensures Sound(START)
  {
    assert AllClaimed(START.sessions) == map[] && AllBound(START.sessions) == map[];
  }

  lemma {:induction false} SettledTotals(w: World)
    requires Totals(w) && forall s :: s in w.sessions ==> w.sessions[s].phase.Idle?
    ensures w.counter == |w.binds|
  {
    hide Sum;
    assert AllClaimed(w.sessions) == AllBound(w.sessions);
  }

  /** What the counter has more than the table: a bind removed and not yet counted off, or all that a guard owes. */
  function Ahead(x: Session): nat {
    match x.phase
    case Unbound => 1
    case Closing(owed) => owed
    case _ => 0
  }

  /** What it has less: a bind pushed and not yet counted. */
  function Lagging(x: Session): nat {
    if x.phase.Pushed? then 1 else 0
  }

  function AllAhead(m: map<SessionId, Session>): map<SessionId, nat> {
    map s | s in m :: Ahead(m[s])
  }

  function AllLagging(m: map<SessionId, Session>): map<SessionId, nat> {
    map s | s in m :: Lagging(m[s])
  }

  lemma {:induction false} Difference(w: World)
    requires Totals(w)
    ensures w.counter - |w.binds| == Sum(AllAhead(w.sessions)) - Sum(AllLagging(w.sessions))
  {
    hide Sum;
    SumsMatch(AllClaimed(w.sessions), AllLagging(w.sessions), AllBound(w.sessions), AllAhead(w.sessions));
  }

  /**
   In every interleaving the counter is what the Sessions claim and the table what they have bound; each Session and
   Service pair is listed at most once, and only for a Service of a Session whose guard is still held. The counter and
   the table's length differ by exactly what Sessions between two accesses are ahead or lagging, so not at all when
   there are none.
   */
  lemma {:induction false} AccountsAreExact(steps: seq<Step>)
    ensures var w := Run(START, steps);
      && w.counter == Sum(AllClaimed(w.sessions)) && |w.binds| == Sum(AllBound(w.sessions))
      && w.counter - |w.binds| == Sum(AllAhead(w.sessions)) - Sum(AllLagging(w.sessions))
      && (forall s, id :: Occurs(w.binds, s, id) == if Listed(w, s, id) then 1 else 0)
      && (forall s :: s !in w.sessions || w.sessions[s].phase.Closing? ==> CountOf(w.binds, s) == 0)
      && (forall s :: s in w.sessions ==> ServerControl.Consistent(w.sessions[s].table))
      && ((forall s :: s in w.sessions ==> w.sessions[s].phase.Idle?) ==> w.counter == |w.binds|)
  {
    hide Run, ServerControl.Consistent, Sum, Occurs, CountOf, AllClaimed, AllBound, AllAhead, AllLagging, Listed;
    StartSound();
    RunSound(START, steps);
    var w := Run(START, steps);
    Difference(w);
    if forall s :: s in w.sessions ==> w.sessions[s].phase.Idle? { SettledTotals(w); }
  }

  /** The two do differ: a bind is in the table before it is counted. */
  lemma {:induction false} TableLeadsTheCounter(s: SessionId, id: ServiceId, name: Text, effective: EffectiveBind)
    ensures var w := Run(START, [Step.Open(s), Push(s, 1, id, name, ServerControl.Listening(effective))]);
      w.counter == 0 && |w.binds| == 1
  {
    var open, push := Step.Open(s), Push(s, 1, id, name, ServerControl.Listening(effective));
    assert [open, push][1..] == [push] && [push][1..] == [];
    assert Run(Apply(START, open), [push]) == Apply(Apply(START, open), push);
  }
}
