/** The bind table told by the steps that filled it, and what it is once a Service or a Session is through. */
module AccountsHistory {
  import opened Wire
  import ServerControl
  import opened Accounts
  import opened AccountsProofs

  // ----- what removal keeps

  /** Entries of other Services stay, each as it is and as often as it was. */
  lemma {:induction false} ServiceKept(binds: seq<Bind>, s: SessionId, id: ServiceId, b: Bind)
    ensures multiset(WithoutService(binds, s, id))[b] ==
      if b.session == s && b.service == id then 0 else multiset(binds)[b]
  {
    if binds == [] {
    } else {
      assert binds == binds[..|binds| - 1] + [binds[|binds| - 1]];
      ServiceKept(binds[..|binds| - 1], s, id, b);
    }
  }

  lemma {:induction false} SessionKept(binds: seq<Bind>, s: SessionId, b: Bind)
    ensures multiset(WithoutSession(binds, s))[b] == if b.session == s then 0 else multiset(binds)[b]
  {
    if binds == [] {
    } else {
      assert binds == binds[..|binds| - 1] + [binds[|binds| - 1]];
      SessionKept(binds[..|binds| - 1], s, b);
    }
  }

  // ----- where an entry comes from

  function Stepped(w: World, step: Step): World {
    if Possible(w, step) then Apply(w, step) else w
  }

  lemma {:induction false} RunLast(w: World, steps: seq<Step>)
    requires steps != []
    ensures Run(w, steps) == Stepped(Run(w, steps[..|steps| - 1]), steps[|steps| - 1])
    decreases |steps|
  {
    hide Apply, Possible;
    var front := steps[..|steps| - 1];
    if |steps| == 1 {
      assert front == [] && steps[1..] == [];
      assert Run(Stepped(w, steps[0]), []) == Stepped(w, steps[0]);
    } else {
      assert front[1..] == steps[1..][..|steps| - 2];
      RunLast(Stepped(w, steps[0]), steps[1..]);
    }
  }

  /** Step `i` asked for the Service of the entry, and its listener got the entry's address. */
  ghost predicate PushedAt(steps: seq<Step>, i: nat, b: Bind) {
    && i < |steps| && steps[i].Push? && steps[i].session == b.session && steps[i].id == b.service
    && steps[i].listener == ServerControl.Listening(b.effective)
  }

  lemma {:induction false} StepBinds(w: World, step: Step, b: Bind)
    requires Possible(w, step) && b in Apply(w, step).binds
    ensures b in w.binds || PushedAt([step], 0, b)
  {
    hide WithoutService, WithoutSession;
    match step
    case Unbind(s, id) => ServiceKept(w.binds, s, id, b);
    case Close(s) => SessionKept(w.binds, s, b);
    case _ =>
  }

  /** Every entry of the shared table is an address some listener of that Session and Service really got. */
  lemma {:induction false} BindsAreListeners(steps: seq<Step>, b: Bind)
    requires b in Run(START, steps).binds
    ensures exists i :: PushedAt(steps, i, b)
    decreases |steps|
  {
    if steps == [] {
      assert false;
    } else {
      var n := |steps| - 1;
      var w := Run(START, steps[..n]);
      hide Run, Apply, Possible;
      RunLast(START, steps);
      if Possible(w, steps[n]) { StepBinds(w, steps[n], b); }
      if b in w.binds {
        BindsAreListeners(steps[..n], b);
        var i: nat :| PushedAt(steps[..n], i, b);
        assert PushedAt(steps, i, b);
      } else {
        assert PushedAt(steps, n, b);
      }
    }
  }

  // ----- what the steps achieve

  lemma {:induction false} RunTwo(w: World, a: Step, b: Step)
    requires Possible(w, a) && Possible(Apply(w, a), b)
    ensures Run(w, [a, b]) == Apply(Apply(w, a), b)
  {
    hide Possible, Apply;
    assert [a, b][1..] == [b] && [b][1..] == [];
    assert Run(Apply(Apply(w, a), b), []) == Apply(Apply(w, a), b);
    assert Run(Apply(w, a), [b]) == Apply(Apply(w, a), b);
  }

  /** A Service that is new to its Session, fits under the limit and can listen is listed and counted, and tabled. */
  lemma {:induction false} RegisteredIsListed(w: World, s: SessionId, max: nat, id: ServiceId, name: Text,
                                              effective: EffectiveBind)
    requires s in w.sessions && w.sessions[s].phase.Idle?
    requires
      var t := w.sessions[s].table;
      |t.services| < max && id !in t.services && name !in t.names
    ensures
      var v := Run(w, [Push(s, max, id, name, ServerControl.Listening(effective)), CountUp(s)]);
      && v.binds == w.binds + [Bind(s, id, effective)] && v.counter == w.counter + 1
      && s in v.sessions && v.sessions[s].phase.Idle?
      && v.sessions[s].table.services == w.sessions[s].table.services[id := name]
      && v.sessions[s].table.names == w.sessions[s].table.names + {name}
      && v.sessions - {s} == w.sessions - {s}
  {
    hide Run;
    RunTwo(w, Push(s, max, id, name, ServerControl.Listening(effective)), CountUp(s));
  }

  /** A withdrawn Service leaves the table, the counter and its Session, and nothing else changes. */
  lemma {:induction false} WithdrawnIsGone(w: World, s: SessionId, id: ServiceId)
    requires s in w.sessions && w.sessions[s].phase.Idle? && id in w.sessions[s].table.services
    ensures
      var v := Run(w, [Unbind(s, id), CountDown(s)]);
      && v.counter == w.counter - 1 && s in v.sessions && v.sessions[s].phase.Idle?
      && (forall b :: multiset(v.binds)[b] == if b.session == s && b.service == id then 0 else multiset(w.binds)[b])
      && v.sessions[s].table.services == w.sessions[s].table.services - {id}
      && v.sessions[s].table.names == w.sessions[s].table.names - {w.sessions[s].table.services[id]}
      && v.sessions - {s} == w.sessions - {s}
  {
    hide Run;
    RunTwo(w, Unbind(s, id), CountDown(s));
    var v := Run(w, [Unbind(s, id), CountDown(s)]);
    forall b ensures multiset(v.binds)[b] == if b.session == s && b.service == id then 0 else multiset(w.binds)[b] {
      ServiceKept(w.binds, s, id, b);
    }
  }

  lemma {:induction false} ClosedFrom(w: World, s: SessionId)
    requires s in w.sessions && w.sessions[s].phase.Idle?
    ensures
      var v := Run(w, [Close(s), Settle(s)]);
      && v.counter == w.counter - CountOf(w.binds, s) && v.sessions == w.sessions - {s}
      && forall b :: multiset(v.binds)[b] == if b.session == s then 0 else multiset(w.binds)[b]
  {
    hide Run, WithoutSession;
    RunTwo(w, Close(s), Settle(s));
    var v := Run(w, [Close(s), Settle(s)]);
    SessionRemoved(w.binds, s, s, 0);
    assert v.sessions == w.sessions - {s};
    forall b ensures multiset(v.binds)[b] == if b.session == s then 0 else multiset(w.binds)[b] {
      SessionKept(w.binds, s, b);
    }
  }

  /** After any run, a Session that ends takes with it all its entries and exactly its own Services' count. */
  lemma {:induction false} ClosedIsGone(steps: seq<Step>, s: SessionId)
    requires
      var w := Run(START, steps);
      s in w.sessions && w.sessions[s].phase.Idle?
    ensures
      var w := Run(START, steps);
      var v := Run(w, [Close(s), Settle(s)]);
      && v.counter == w.counter - |w.sessions[s].table.services| && v.sessions == w.sessions - {s}
      && forall b :: multiset(v.binds)[b] == if b.session == s then 0 else multiset(w.binds)[b]
  {
    StartSound();
    RunSound(START, steps);
    var w := Run(START, steps);
    hide Run, Totals, Tidy;
    assert CountOf(w.binds, s) == Bound(w.sessions[s]);
    hide Exact, Sound;
    ClosedFrom(w, s);
  }
}
