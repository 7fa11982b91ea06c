/** What every interleaving of the data plane keeps. */
module DataPlaneProofs {
  import opened Wire
  import opened Pending
  import opened DataPlane
  import opened Tally

  // ----- the shared counter

  function Sizes(m: map<SessionId, Session>): map<SessionId, nat> {
    map s | s in m :: |m[s].pending|
  }

  ghost predicate Counted(w: World) {
    w.counter == Sum(Sizes(w.sessions))
  }

  predicate Bounded(p: Policy, w: World) {
    forall s :: s in w.sessions ==> |w.sessions[s].pending| <= p.pendingPerSession
  }

  lemma {:induction false} SizesPut(m: map<SessionId, Session>, s: SessionId, x: Session)
    ensures Sizes(m[s := x]) == Sizes(m)[s := |x.pending|]
  {
  }

  lemma {:induction false} SizesDrop(m: map<SessionId, Session>, s: SessionId)
    ensures Sizes(m - {s}) == Sizes(m) - {s}
  {
  }

  lemma {:induction false} StoreCounts(p: Policy, w: World, s: SessionId, t: Table, counter: int)
    requires s in w.sessions && Counted(w) && counter - w.counter == |t| - |w.sessions[s].pending|
    ensures Counted(Store(w, s, t, counter))
    ensures Bounded(p, w) && |t| <= p.pendingPerSession ==> Bounded(p, Store(w, s, t, counter))
  {
    hide Sum;
    SizesPut(w.sessions, s, w.sessions[s].(pending := t));
    SumPut(Sizes(w.sessions), s, |t|);
  }

  lemma {:induction false} RemoveOneCounts(p: Policy, w: World, s: SessionId, c: ConnectionId)
    requires s in w.sessions && Counted(w) && Bounded(p, w)
    ensures Counted(RemoveOne(w, s, c)) && Bounded(p, RemoveOne(w, s, c))
  {
    var t := w.sessions[s].pending;
    if c in t {
      ShrinkSize(t, c);
      StoreCounts(p, w, s, t - {c}, w.counter - 1);
    }
  }

  /** Counting looks only at the tables and the counter. */
  lemma {:induction false} SameCount(p: Policy, w: World, v: World)
    requires Counted(w) && Bounded(p, w) && v.sessions == w.sessions && v.counter == w.counter
    ensures Counted(v) && Bounded(p, v)
  {
  }

  lemma {:induction false} AcceptCounts(p: Policy, w: World, s: SessionId, service: ServiceId, c: ConnectionId,
                                        x: External, ch: Channel)
    requires s in w.sessions && Fresh(w, c, x, ch) && Counted(w) && Bounded(p, w) && TablesIssued(w)
    ensures Counted(Accepted(p, w, s, service, c, x, ch)) && Bounded(p, Accepted(p, w, s, service, c, x, ch))
  {
    hide Counted, Bounded, Store;
    var t := w.sessions[s].pending;
    if |t| < p.pendingPerSession {
      var e := Entry(service, w.now + p.pendingLifetime, ch);
      assert c !in t;
      StoreCounts(p, w, s, t[c := e], w.counter + 1);
      SameCount(p, Store(w, s, t[c := e], w.counter + 1), Accepted(p, w, s, service, c, x, ch));
    }
  }

  /** Issuing keeps the count exactly when the identifier is not already pending: the step's freshness is needed. */
  lemma {:induction false} RepeatBreaksTheCount(p: Policy, w: World, s: SessionId, c: ConnectionId, e: Entry)
    requires s in w.sessions && Counted(w)
    ensures Counted(Store(w, s, w.sessions[s].pending[c := e], w.counter + 1)) <==> c !in w.sessions[s].pending
  {
    hide Sum;
    var t := w.sessions[s].pending;
    SizesPut(w.sessions, s, w.sessions[s].(pending := t[c := e]));
    SumPut(Sizes(w.sessions), s, |t[c := e]|);
    if c in t { assert t[c := e].Keys == t.Keys; }
  }

  lemma {:induction false} StepCounts(p: Policy, w: World, step: Step)
    requires Possible(w, step) && Counted(w) && Bounded(p, w) && TablesIssued(w)
    ensures Counted(Apply(p, w, step)) && Bounded(p, Apply(p, w, step))
  {
    if step.Accept? {
      AcceptCounts(p, w, step.session, step.service, step.connection, step.external, step.channel);
    } else {
      hide Counted, Bounded, TablesIssued, Apply, Possible;
      if step.Connect? || step.DropContext? {
        ContextCounts(p, w, step);
      } else if step.RemoveService? || step.RemoveAll? {
        PurgeCounts(p, w, step);
      } else if Quiet(step) {
        QuietStep(p, w, step);
        SameCount(p, w, Apply(p, w, step));
      } else {
        RemovalCounts(p, w, step);
      }
    }
  }

  lemma {:induction false} ContextCounts(p: Policy, w: World, step: Step)
    requires (step.Connect? || step.DropContext?) && Possible(w, step) && Counted(w) && Bounded(p, w)
    ensures Counted(Apply(p, w, step)) && Bounded(p, Apply(p, w, step))
  {
    hide Counted, Bounded, Unused, NeverIssued;
    if step.Connect? {
      ConnectCounts(p, w, step.session, step.principal);
    } else {
      DropCounts(p, w, step.session);
    }
  }

  lemma {:induction false} PurgeCounts(p: Policy, w: World, step: Step)
    requires (step.RemoveService? || step.RemoveAll?) && Possible(w, step) && Counted(w) && Bounded(p, w)
    ensures Counted(Apply(p, w, step)) && Bounded(p, Apply(p, w, step))
  {
    hide Counted, Bounded, Retained, Store;
    var t := w.sessions[step.session].pending;
    if step.RemoveService? {
      RetainedKeys(t, step.service);
      TableCounts(p, w, step.session, Retained(t, step.service));
    } else {
      TableCounts(p, w, step.session, map[]);
    }
  }

  predicate Quiet(step: Step) {
    step.Tick? || step.Register? || step.Unregister? || step.OpenSent? || step.Wake? || step.Abort? || step.Resolve?
    || step.Send? || step.AbortClaim?
  }

  lemma {:induction false} QuietStep(p: Policy, w: World, step: Step)
    requires Possible(w, step) && Quiet(step)
    ensures Apply(p, w, step).sessions == w.sessions && Apply(p, w, step).counter == w.counter
  {
    hide Honours, Receives;
  }

  lemma {:induction false} RemovalCounts(p: Policy, w: World, step: Step)
    requires step.OpenFailed? || step.Clean? || step.Take? || step.OpenReject?
    requires Possible(w, step) && Counted(w) && Bounded(p, w)
    ensures Counted(Apply(p, w, step)) && Bounded(p, Apply(p, w, step))
  {
    hide Counted, Bounded, Store, RemoveOne;
    var (s, c) :=
      if step.Take? then (w.claims[step.task].hello.session, w.claims[step.task].hello.connection)
      else if step.OpenReject? then (step.session, step.connection)
      else (w.relays[step.channel].session, w.relays[step.channel].connection);
    RemoveOneCounts(p, w, s, c);
    SameCount(p, RemoveOne(w, s, c), Apply(p, w, step));
  }

  lemma {:induction false} RetainedKeys(t: Table, service: ServiceId)
    ensures Retained(t, service).Keys <= t.Keys
  {
  }

  lemma {:induction false} TableCounts(p: Policy, w: World, s: SessionId, t: Table)
    requires s in w.sessions && Counted(w) && Bounded(p, w) && t.Keys <= w.sessions[s].pending.Keys
    ensures Counted(Store(w, s, t, w.counter - (|w.sessions[s].pending| - |t|)))
    ensures Bounded(p, Store(w, s, t, w.counter - (|w.sessions[s].pending| - |t|)))
  {
    SubsetSize(t.Keys, w.sessions[s].pending.Keys);
    StoreCounts(p, w, s, t, w.counter - (|w.sessions[s].pending| - |t|));
  }

  lemma {:induction false} ConnectCounts(p: Policy, w: World, s: SessionId, principal: Principal)
    requires s !in w.sessions && Counted(w) && Bounded(p, w)
    ensures var v := w.(sessions := w.sessions[s := Session(principal, map[])]); Counted(v) && Bounded(p, v)
  {
    hide Sum;
    SizesPut(w.sessions, s, Session(principal, map[]));
    SumPut(Sizes(w.sessions), s, 0);
  }

  lemma {:induction false} DropCounts(p: Policy, w: World, s: SessionId)
    requires s in w.sessions && Counted(w) && Bounded(p, w)
    ensures
      var v := w.(sessions := w.sessions - {s}, counter := w.counter - |w.sessions[s].pending|);
      Counted(v) && Bounded(p, v)
  {
    hide Sum;
    SizesDrop(w.sessions, s);
    SumDrop(Sizes(w.sessions), s);
  }

  // ----- where identifiers are

  /** Pending entries are as they were issued, in the table of the Session they were issued for. */
  predicate TablesIssued(w: World) {
    forall s, c :: s in w.sessions && c in w.sessions[s].pending ==>
      && c in w.issued && w.issued[c].session == s && w.issued[c].principal == w.sessions[s].principal
      && w.issued[c].entry == w.sessions[s].pending[c]
  }

  predicate HeldAsIssued(w: World, q: Claim)
    requires q.Holding?
  {
    var c := q.hello.connection;
    c in w.issued && w.issued[c].session == q.hello.session && w.issued[c].principal == q.principal
    && w.issued[c].entry == q.entry
  }

  /** A claim keeps its Session alive and was made with its Principal. */
  predicate ClaimsGood(w: World) {
    forall k :: k in w.claims ==>
      && w.claims[k].hello.session in w.sessions
      && w.claims[k].principal == w.sessions[w.claims[k].hello.session].principal
      && (w.claims[k].Holding? ==> HeldAsIssued(w, w.claims[k]))
  }

  predicate Delivered(ds: seq<Delivery>, c: ConnectionId) {
    exists i :: 0 <= i < |ds| && ds[i].hello.connection == c
  }

  /** The sending half for an identifier is in one place at most: its table, one claim, or spent. */
  predicate Single(w: World) {
    && (forall s, c :: s in w.sessions && c in w.sessions[s].pending ==> !Delivered(w.deliveries, c))
    && (forall k :: k in w.claims && w.claims[k].Holding? ==>
      && !Delivered(w.deliveries, w.claims[k].hello.connection)
      && w.claims[k].hello.session in w.sessions
      && w.claims[k].hello.connection !in w.sessions[w.claims[k].hello.session].pending)
    && (forall j, k :: j in w.claims && k in w.claims && j != k && w.claims[j].Holding? && w.claims[k].Holding? ==>
      w.claims[j].hello.connection != w.claims[k].hello.connection)
  }

  predicate DeliveredOnce(w: World) {
    forall i, j :: 0 <= i < j < |w.deliveries| ==> w.deliveries[i].hello.connection != w.deliveries[j].hello.connection
  }

  predicate Earned(w: World, d: Delivery) {
    var c := d.hello.connection;
    && c in w.issued && w.issued[c].session == d.hello.session && w.issued[c].principal == d.principal
    && Honours(w.issued[c].entry, d.hello, d.at)
  }

  predicate AllEarned(w: World) {
    forall d :: d in w.deliveries ==> Earned(w, d)
  }

  predicate Fits(w: World, c: ConnectionId, d: Option<Delivery>) {
    d.Some? ==> d.value in w.deliveries && d.value.hello.connection == c
  }

  predicate RelayGood(w: World, ch: Channel, r: Relay) {
    && r.session in w.sessions
    && r.connection in w.issued
    && w.issued[r.connection].session == r.session
    && w.issued[r.connection].external == r.external
    && w.issued[r.connection].entry.channel == ch
    && Fits(w, r.connection, r.inbox)
    && (r.phase.Cleaning? ==> Fits(w, r.connection, r.phase.outcome))
  }

  predicate RelaysGood(w: World) {
    forall ch :: ch in w.relays ==> RelayGood(w, ch, w.relays[ch])
  }

  predicate IssuedApart(w: World) {
    forall c, d :: c in w.issued && d in w.issued && c != d ==>
      w.issued[c].external != w.issued[d].external && w.issued[c].entry.channel != w.issued[d].entry.channel
  }

  /** Every joined pair is an external connection and the stream delivered for its own identifier. */
  predicate JoinedRight(w: World) {
    forall j :: j in w.joined ==>
      && j.delivery in w.deliveries && j.delivery.hello.connection in w.issued
      && w.issued[j.delivery.hello.connection].external == j.external
      && w.issued[j.delivery.hello.connection].entry.channel == j.channel
      && j.channel !in w.relays
  }

  predicate JoinedOnce(w: World) {
    forall i, j :: 0 <= i < j < |w.joined| ==> w.joined[i].channel != w.joined[j].channel
  }

  // ----- steps that only take away

  /** The same Sessions or fewer, with the same entries or fewer. */
  predicate Fewer(a: map<SessionId, Session>, b: map<SessionId, Session>) {
    forall s :: s in a ==>
      && s in b && a[s].principal == b[s].principal
      && forall c :: c in a[s].pending ==> c in b[s].pending && a[s].pending[c] == b[s].pending[c]
  }

  lemma {:induction false} FewerSelf(m: map<SessionId, Session>)
    ensures Fewer(m, m)
  {
  }

  lemma {:induction false} StoreFewer(w: World, s: SessionId, t: Table, counter: int)
    requires s in w.sessions && forall c :: c in t ==> c in w.sessions[s].pending && t[c] == w.sessions[s].pending[c]
    ensures Fewer(Store(w, s, t, counter).sessions, w.sessions)
      && Store(w, s, t, counter).sessions.Keys == w.sessions.Keys
  {
  }

  lemma {:induction false} RemoveOneFewer(w: World, s: SessionId, c: ConnectionId)
    requires s in w.sessions
    ensures Fewer(RemoveOne(w, s, c).sessions, w.sessions) && RemoveOne(w, s, c).sessions.Keys == w.sessions.Keys
    ensures RemoveOne(w, s, c) == w.(sessions := RemoveOne(w, s, c).sessions, counter := RemoveOne(w, s, c).counter)
    ensures c !in RemoveOne(w, s, c).sessions[s].pending
  {
    hide Fewer;
    FewerSelf(w.sessions);
    var t := w.sessions[s].pending;
    if c in t { StoreFewer(w, s, t - {c}, w.counter - 1); }
  }

  /** Except for accepting and connecting, no step adds an entry, changes one, or issues an identifier. */
  lemma {:induction false} TablesShrink(p: Policy, w: World, step: Step)
    requires Possible(w, step) && !step.Accept? && !step.Connect?
    ensures Fewer(Apply(p, w, step).sessions, w.sessions)
    ensures Apply(p, w, step).issued == w.issued
    ensures !step.DropContext? ==> Apply(p, w, step).sessions.Keys == w.sessions.Keys
  {
    hide Unused, Fresh, NeverIssued, Honours, Receives, Fewer, Store, RemoveOne;
    FewerSelf(w.sessions);
    match step
    case DropContext(s) => assert Fewer(w.sessions - {s}, w.sessions) by { DropFewer(w.sessions, s); }
    case OpenFailed(ch) => RemoveOneFewer(w, w.relays[ch].session, w.relays[ch].connection);
    case Clean(ch) => RemoveOneFewer(w, w.relays[ch].session, w.relays[ch].connection);
    case Take(k) => RemoveOneFewer(w, w.claims[k].hello.session, w.claims[k].hello.connection);
    case OpenReject(s, c) => RemoveOneFewer(w, s, c);
    case RemoveService(s, service) =>
      var t := w.sessions[s].pending;
      StoreFewer(w, s, Retained(t, service), w.counter - (|t| - |Retained(t, service)|));
      StoreRest(w, s, Retained(t, service), w.counter - (|t| - |Retained(t, service)|));
    case RemoveAll(s) =>
      StoreFewer(w, s, map[], w.counter - |w.sessions[s].pending|);
      StoreRest(w, s, map[], w.counter - |w.sessions[s].pending|);
    case _ =>
  }

  lemma {:induction false} DropFewer(m: map<SessionId, Session>, s: SessionId)
    ensures Fewer(m - {s}, m)
  {
  }

  lemma {:induction false} StoreRest(w: World, s: SessionId, t: Table, counter: int)
    requires s in w.sessions
    ensures Store(w, s, t, counter) == w.(sessions := Store(w, s, t, counter).sessions, counter := counter)
  {
  }

  // ----- each invariant over one step

  lemma {:induction false} StepTables(p: Policy, w: World, step: Step)
    requires Possible(w, step) && TablesIssued(w)
    ensures TablesIssued(Apply(p, w, step))
  {
    if step.Accept? {
      AcceptTables(p, w, step.session, step.service, step.connection, step.external, step.channel);
    } else if step.Connect? {
    } else {
      TablesShrink(p, w, step);
      hide Apply, Possible;
    }
  }

  lemma {:induction false} AcceptTables(p: Policy, w: World, s: SessionId, service: ServiceId, c: ConnectionId,
                                        x: External, ch: Channel)
    requires s in w.sessions && Fresh(w, c, x, ch) && TablesIssued(w)
    ensures TablesIssued(Accepted(p, w, s, service, c, x, ch))
  {
  }

  /** What each step leaves alone. */
  lemma {:induction false} ClaimsUntouched(p: Policy, w: World, step: Step)
    requires Possible(w, step) && !step.Resolve? && !step.Take? && !step.Send? && !step.AbortClaim?
    ensures Apply(p, w, step).claims == w.claims
  {
    hide Unused, Fresh, NeverIssued, Honours, Receives, Retained;
  }

  lemma {:induction false} DeliveriesUntouched(p: Policy, w: World, step: Step)
    requires Possible(w, step) && !step.Send?
    ensures Apply(p, w, step).deliveries == w.deliveries
  {
    hide Unused, Fresh, NeverIssued, Honours, Receives, Retained;
  }

  lemma {:induction false} JoinedUntouched(p: Policy, w: World, step: Step)
    requires Possible(w, step) && !step.Clean?
    ensures Apply(p, w, step).joined == w.joined
  {
    hide Unused, Fresh, NeverIssued, Honours, Receives, Retained;
  }

  predicate Extends<K, V(==)>(a: map<K, V>, b: map<K, V>) {
    forall k :: k in b ==> k in a && a[k] == b[k]
  }

  lemma {:induction false} IssuedExtends(p: Policy, w: World, step: Step)
    requires Possible(w, step)
    ensures Extends(Apply(p, w, step).issued, w.issued)
  {
    hide Unused, NeverIssued, Honours, Receives, Retained;
    if !step.Accept? && !step.Connect? {
      TablesShrink(p, w, step);
      hide Apply, Possible;
    }
  }

  lemma {:induction false} ClaimsKept(w: World, v: World)
    requires ClaimsGood(w) && Extends(w.claims, v.claims) && Extends(v.issued, w.issued)
    requires forall k :: k in v.claims ==>
      v.claims[k].hello.session in v.sessions && v.claims[k].hello.session in w.sessions
      && v.sessions[v.claims[k].hello.session].principal == w.sessions[v.claims[k].hello.session].principal
    ensures ClaimsGood(v)
  {
  }

  lemma {:induction false} StepClaims(p: Policy, w: World, step: Step)
    requires Possible(w, step) && TablesIssued(w) && ClaimsGood(w)
    ensures ClaimsGood(Apply(p, w, step))
  {
    if step.Resolve? {
    } else if step.Take? {
      TakeClaims(w, step.task);
    } else if step.Accept? || step.Connect? {
      IssuedExtends(p, w, step);
      ClaimsKept(w, Apply(p, w, step));
    } else {
      ShrinkClaims(p, w, step);
    }
  }

  lemma {:induction false} ShrinkClaims(p: Policy, w: World, step: Step)
    requires !step.Resolve? && !step.Take? && !step.Accept? && !step.Connect? && Possible(w, step) && ClaimsGood(w)
    ensures ClaimsGood(Apply(p, w, step))
  {
    var v := Apply(p, w, step);
    TablesShrink(p, w, step);
    assert Extends(w.claims, v.claims) by {
      if !step.Send? && !step.AbortClaim? { ClaimsUntouched(p, w, step); }
    }
    assert step.DropContext? ==>
      Unused(w, step.session) && v.claims == w.claims && v.sessions == w.sessions - {step.session};
    hide Apply, Possible;
    ClaimsKept(w, v);
  }

  lemma {:induction false} TakeClaims(w: World, k: nat)
    requires k in w.claims && w.claims[k].hello.session in w.sessions && TablesIssued(w) && ClaimsGood(w)
    ensures ClaimsGood(Taken(w, k))
  {
    RemoveOneFewer(w, w.claims[k].hello.session, w.claims[k].hello.connection);
    hide RemoveOne;
  }

  // ----- one sender for each identifier

  lemma {:induction false} SingleKept(w: World, v: World)
    requires Single(w) && Fewer(v.sessions, w.sessions) && Extends(w.claims, v.claims) && v.deliveries == w.deliveries
    requires forall k :: k in v.claims ==> v.claims[k].hello.session in v.sessions
    ensures Single(v)
  {
    hide Delivered;
  }

  lemma {:induction false} StepSingle(p: Policy, w: World, step: Step)
    requires Possible(w, step) && TablesIssued(w) && ClaimsGood(w) && AllEarned(w) && Single(w)
    ensures Single(Apply(p, w, step))
  {
    if step.Accept? {
      AcceptSingle(p, w, step.session, step.service, step.connection, step.external, step.channel);
    } else if step.Take? {
      TakeSingle(w, step.task);
    } else if step.Send? {
      SendSingle(w, step.task);
    } else {
      hide Apply, Possible, TablesIssued, ClaimsGood, AllEarned, Single;
      if step.Connect? || step.Resolve? { GrowSingle(p, w, step); } else { ShrinkSingle(p, w, step); }
    }
  }

  lemma {:induction false} GrowSingle(p: Policy, w: World, step: Step)
    requires (step.Connect? || step.Resolve?) && Possible(w, step) && Single(w)
    ensures Single(Apply(p, w, step))
  {
    hide Delivered;
  }

  lemma {:induction false} ShrinkSingle(p: Policy, w: World, step: Step)
    requires !step.Accept? && !step.Take? && !step.Send? && !step.Connect? && !step.Resolve?
    requires Possible(w, step) && TablesIssued(w) && ClaimsGood(w) && Single(w)
    ensures Single(Apply(p, w, step))
  {
    var v := Apply(p, w, step);
    assert Extends(w.claims, v.claims) by {
      if !step.AbortClaim? { ClaimsUntouched(p, w, step); }
    }
    hide Apply, Possible;
    TablesShrink(p, w, step);
    DeliveriesUntouched(p, w, step);
    StepClaims(p, w, step);
    SingleKept(w, v);
  }

  lemma {:induction false} NotYetDelivered(w: World, c: ConnectionId)
    requires AllEarned(w) && c !in w.issued
    ensures !Delivered(w.deliveries, c)
  {
    forall i | 0 <= i < |w.deliveries| ensures w.deliveries[i].hello.connection != c {
      assert w.deliveries[i] in w.deliveries;
    }
  }

  lemma {:induction false} AcceptSingle(p: Policy, w: World, s: SessionId, service: ServiceId, c: ConnectionId,
                                        x: External, ch: Channel)
    requires s in w.sessions && Fresh(w, c, x, ch) && ClaimsGood(w) && AllEarned(w) && Single(w)
    ensures Single(Accepted(p, w, s, service, c, x, ch))
  {
    hide Delivered;
    NotYetDelivered(w, c);
  }

  lemma {:induction false} NobodyElseHolds(w: World, s: SessionId, c: ConnectionId, k: nat)
    requires s in w.sessions && c in w.sessions[s].pending && TablesIssued(w) && ClaimsGood(w) && Single(w)
    requires k in w.claims && w.claims[k].Holding?
    ensures w.claims[k].hello.connection != c
  {
    hide Delivered;
    assert HeldAsIssued(w, w.claims[k]);
  }

  lemma {:induction false} TakeSingle(w: World, k: nat)
    requires k in w.claims && w.claims[k].Resolved? && w.claims[k].hello.session in w.sessions
    requires TablesIssued(w) && ClaimsGood(w) && Single(w)
    ensures Single(Taken(w, k))
  {
    hide Delivered, TablesIssued;
    var q := w.claims[k];
    RemoveOneFewer(w, q.hello.session, q.hello.connection);
    hide RemoveOne;
    if q.hello.connection in w.sessions[q.hello.session].pending {
      forall j | j in w.claims && w.claims[j].Holding? ensures w.claims[j].hello.connection != q.hello.connection {
        NobodyElseHolds(w, q.hello.session, q.hello.connection, j);
      }
    }
  }

  lemma {:induction false} DeliveredMore(ds: seq<Delivery>, d: Delivery, c: ConnectionId)
    ensures Delivered(ds + [d], c) <==> Delivered(ds, c) || d.hello.connection == c
  {
    var es := ds + [d];
    if Delivered(ds, c) {
      var i :| 0 <= i < |ds| && ds[i].hello.connection == c;
      assert es[i].hello.connection == c;
    }
    if d.hello.connection == c { assert es[|ds|].hello.connection == c; }
    if Delivered(es, c) && d.hello.connection != c {
      var i :| 0 <= i < |es| && es[i].hello.connection == c;
      assert ds[i].hello.connection == c;
    }
  }

  lemma {:induction false} SendSingle(w: World, k: nat)
    requires k in w.claims && w.claims[k].Holding? && TablesIssued(w) && ClaimsGood(w) && Single(w)
    ensures Single(Sent(w, k))
  {
    hide Delivered, Honours;
    var v := Sent(w, k);
    var q := w.claims[k];
    var d := Delivery(q.hello, q.principal, q.stream, w.now);
    assert HeldAsIssued(w, q);
    if v.deliveries != w.deliveries {
      assert v.deliveries == w.deliveries + [d];
      forall c ensures Delivered(v.deliveries, c) <==> Delivered(w.deliveries, c) || q.hello.connection == c {
        DeliveredMore(w.deliveries, d, c);
      }
    }
  }

  lemma {:induction false} StepOnce(p: Policy, w: World, step: Step)
    requires Possible(w, step) && Single(w) && DeliveredOnce(w)
    ensures DeliveredOnce(Apply(p, w, step))
  {
    if step.Send? {
      var q := w.claims[step.task];
      assert !Delivered(w.deliveries, q.hello.connection);
    } else {
      DeliveriesUntouched(p, w, step);
      hide Apply, Possible;
    }
  }

  // ----- deliveries are earned

  lemma {:induction false} StepEarned(p: Policy, w: World, step: Step)
    requires Possible(w, step) && ClaimsGood(w) && AllEarned(w)
    ensures AllEarned(Apply(p, w, step))
  {
    IssuedExtends(p, w, step);
    if step.Send? {
      var q := w.claims[step.task];
      assert HeldAsIssued(w, q);
    } else {
      DeliveriesUntouched(p, w, step);
      hide Apply, Possible;
    }
  }

  lemma {:induction false} StepApart(p: Policy, w: World, step: Step)
    requires Possible(w, step) && IssuedApart(w)
    ensures IssuedApart(Apply(p, w, step))
  {
    if !step.Accept? && !step.Connect? {
      TablesShrink(p, w, step);
      hide Apply, Possible;
    }
  }

  // ----- streams meet their own external connection

  /** A relay's facts survive any step that keeps its Session, what was issued, and what was delivered. */
  lemma {:induction false} RelayKept(w: World, v: World, ch: Channel, r: Relay)
    requires RelayGood(w, ch, r) && r.session in v.sessions && Extends(v.issued, w.issued)
    requires forall d :: d in w.deliveries ==> d in v.deliveries
    ensures RelayGood(v, ch, r)
  {
  }

  predicate Moves(step: Step) {
    step.Accept? || step.OpenFailed? || step.OpenSent? || step.Wake? || step.Clean? || step.Abort? || step.Send?
  }

  lemma {:induction false} RelaysUntouched(p: Policy, w: World, step: Step)
    requires Possible(w, step) && !Moves(step)
    ensures Apply(p, w, step).relays == w.relays
  {
    hide Unused, Fresh, NeverIssued, Honours, Receives, Retained;
  }

  lemma {:induction false} StepRelays(p: Policy, w: World, step: Step)
    requires Possible(w, step) && ClaimsGood(w) && IssuedApart(w) && RelaysGood(w)
    ensures RelaysGood(Apply(p, w, step))
  {
    if step.Accept? {
      AcceptRelays(p, w, step.session, step.service, step.connection, step.external, step.channel);
    } else if step.Send? {
      SendRelays(w, step.task);
    } else if Moves(step) {
      MoveRelays(p, w, step);
    } else {
      IdleRelays(p, w, step);
    }
  }

  lemma {:induction false} IdleRelays(p: Policy, w: World, step: Step)
    requires Possible(w, step) && !Moves(step) && RelaysGood(w)
    ensures RelaysGood(Apply(p, w, step))
  {
    hide RelayGood;
    var v := Apply(p, w, step);
    RelaysUntouched(p, w, step);
    IssuedExtends(p, w, step);
    DeliveriesUntouched(p, w, step);
    if !step.Connect? { TablesShrink(p, w, step); }
    assert step.DropContext? ==> Unused(w, step.session) && v.sessions == w.sessions - {step.session};
    assert step.Connect? ==> w.sessions.Keys <= v.sessions.Keys;
    hide Apply, Possible;
    forall ch | ch in v.relays ensures RelayGood(v, ch, v.relays[ch]) {
      SessionOf(w, ch);
      RelayKept(w, v, ch, w.relays[ch]);
    }
  }

  lemma {:induction false} SessionOf(w: World, ch: Channel)
    requires RelaysGood(w) && ch in w.relays
    ensures w.relays[ch].session in w.sessions && RelayGood(w, ch, w.relays[ch])
  {
  }

  lemma {:induction false} MoveRelays(p: Policy, w: World, step: Step)
    requires step.OpenFailed? || step.OpenSent? || step.Wake? || step.Clean? || step.Abort?
    requires Possible(w, step) && RelaysGood(w)
    ensures RelaysGood(Apply(p, w, step))
  {
    var v := Apply(p, w, step);
    TablesShrink(p, w, step);
    DeliveriesUntouched(p, w, step);
    RelaysMoved(p, w, step);
    hide Apply, Possible;
    forall ch | ch in v.relays ensures RelayGood(v, ch, v.relays[ch]) {
      SessionOf(w, ch);
    }
  }

  /** Other relays are as they were; this one is gone, or has only changed phase. */
  lemma {:induction false} RelaysMoved(p: Policy, w: World, step: Step)
    requires step.OpenFailed? || step.OpenSent? || step.Wake? || step.Clean? || step.Abort?
    requires Possible(w, step)
    ensures var after := Apply(p, w, step).relays; forall ch :: ch in after ==>
      && ch in w.relays && (ch != step.channel ==> after[ch] == w.relays[ch])
      && after[ch] == w.relays[ch].(phase := after[ch].phase)
      && (after[ch].phase.Cleaning? ==>
        after[ch].phase == w.relays[ch].phase || after[ch].phase.outcome == w.relays[ch].inbox
          || after[ch].phase.outcome == None)
  {
    hide Store, RemoveOne;
  }

  lemma {:induction false} AcceptRelays(p: Policy, w: World, s: SessionId, service: ServiceId, c: ConnectionId,
                                        x: External, ch: Channel)
    requires s in w.sessions && Fresh(w, c, x, ch) && RelaysGood(w)
    ensures RelaysGood(Accepted(p, w, s, service, c, x, ch))
  {
  }

  /** A held sender reaches the relay of the identifier it was issued with. */
  lemma {:induction false} SendReaches(w: World, k: nat)
    requires k in w.claims && w.claims[k].Holding? && ClaimsGood(w) && IssuedApart(w) && RelaysGood(w)
    requires w.claims[k].entry.channel in w.relays
    ensures w.relays[w.claims[k].entry.channel].connection == w.claims[k].hello.connection
  {
    assert HeldAsIssued(w, w.claims[k]);
    SessionOf(w, w.claims[k].entry.channel);
  }

  lemma {:induction false} SendRelays(w: World, k: nat)
    requires k in w.claims && w.claims[k].Holding? && ClaimsGood(w) && IssuedApart(w) && RelaysGood(w)
    ensures RelaysGood(Sent(w, k))
  {
    var v := Sent(w, k);
    if v.deliveries != w.deliveries { SendReaches(w, k); }
    hide ClaimsGood, IssuedApart, Honours;
    forall d | d in w.deliveries ensures d in v.deliveries {
      assert v.deliveries == w.deliveries || v.deliveries == w.deliveries + [v.deliveries[|w.deliveries|]];
    }
    forall ch | ch in v.relays ensures RelayGood(v, ch, v.relays[ch]) {
      SessionOf(w, ch);
    }
  }

  lemma {:induction false} StepJoined(p: Policy, w: World, step: Step)
    requires Possible(w, step) && RelaysGood(w) && JoinedRight(w) && JoinedOnce(w)
    ensures JoinedRight(Apply(p, w, step)) && JoinedOnce(Apply(p, w, step))
  {
    if step.Clean? {
      CleanJoined(w, step.channel);
    } else if step.Accept? {
      AcceptJoined(p, w, step.session, step.service, step.connection, step.external, step.channel);
    } else {
      OtherJoined(p, w, step);
    }
  }

  lemma {:induction false} AcceptJoined(p: Policy, w: World, s: SessionId, service: ServiceId, c: ConnectionId,
                                        x: External, ch: Channel)
    requires s in w.sessions && Fresh(w, c, x, ch) && JoinedRight(w) && JoinedOnce(w)
    ensures JoinedRight(Accepted(p, w, s, service, c, x, ch)) && JoinedOnce(Accepted(p, w, s, service, c, x, ch))
  {
  }

  lemma {:induction false} CleanJoined(w: World, ch: Channel)
    requires ch in w.relays && w.relays[ch].session in w.sessions && w.relays[ch].phase.Cleaning?
    requires RelaysGood(w) && JoinedRight(w) && JoinedOnce(w)
    ensures JoinedRight(Cleaned(w, ch)) && JoinedOnce(Cleaned(w, ch))
  {
    var r := w.relays[ch];
    SessionOf(w, ch);
    RemoveOneFewer(w, r.session, r.connection);
    hide RemoveOne, RelaysGood;
    assert forall i :: 0 <= i < |w.joined| ==> w.joined[i] in w.joined;
  }

  lemma {:induction false} RelayKeysShrink(p: Policy, w: World, step: Step)
    requires Possible(w, step) && !step.Accept?
    ensures Apply(p, w, step).relays.Keys <= w.relays.Keys
  {
    hide Unused, Fresh, NeverIssued, Honours, Retained;
    if !Moves(step) { RelaysUntouched(p, w, step); }
  }

  lemma {:induction false} OtherJoined(p: Policy, w: World, step: Step)
    requires Possible(w, step) && !step.Clean? && !step.Accept? && JoinedRight(w) && JoinedOnce(w)
    ensures JoinedRight(Apply(p, w, step)) && JoinedOnce(Apply(p, w, step))
  {
    var v := Apply(p, w, step);
    JoinedUntouched(p, w, step);
    IssuedExtends(p, w, step);
    RelayKeysShrink(p, w, step);
    assert forall d :: d in w.deliveries ==> d in v.deliveries by {
      if !step.Send? { DeliveriesUntouched(p, w, step); }
    }
    hide Apply, Possible;
  }

  // ----- every run

  ghost predicate Sound(p: Policy, w: World) {
    && Counted(w) && Bounded(p, w)
    && TablesIssued(w) && ClaimsGood(w) && Single(w) && DeliveredOnce(w) && AllEarned(w)
    && IssuedApart(w) && RelaysGood(w) && JoinedRight(w) && JoinedOnce(w)
  }

  lemma {:induction false} StepSound(p: Policy, w: World, step: Step)
    requires Possible(w, step) && Sound(p, w)
    ensures Sound(p, Apply(p, w, step))
  {
    hide Possible, Apply, Counted, Bounded, TablesIssued, ClaimsGood, Single, DeliveredOnce, AllEarned, IssuedApart,
      RelaysGood, JoinedRight, JoinedOnce;
    StepCounts(p, w, step);
    StepTables(p, w, step);
    StepClaims(p, w, step);
    StepSingle(p, w, step);
    StepOnce(p, w, step);
    StepEarned(p, w, step);
    StepApart(p, w, step);
    StepRelays(p, w, step);
    StepJoined(p, w, step);
  }

  lemma {:induction false} RunSound(p: Policy, w: World, steps: seq<Step>)
    requires Sound(p, w)
    ensures Sound(p, Run(p, w, steps))
    decreases |steps|
  {
    hide Possible, Apply, Sound;
    if steps == [] {
    } else {
      if Possible(w, steps[0]) {
        StepSound(p, w, steps[0]);
        RunSound(p, Apply(p, w, steps[0]), steps[1..]);
      } else {
        RunSound(p, w, steps[1..]);
      }
    }
  }

  /** The shared counter is the sum of all tables, so it never goes below zero, and no table outgrows its limit. */
  lemma {:induction false} CounterIsExact(p: Policy, steps: seq<Step>)
    ensures var w := Run(p, START, steps);
      && w.counter == Sum(Sizes(w.sessions)) >= 0
      && (forall s :: s in w.sessions ==> |w.sessions[s].pending| <= p.pendingPerSession)
      && (w.sessions == map[] ==> w.counter == 0)
  {
    StartSound(p);
    RunSound(p, START, steps);
    hide Run;
  }

  lemma {:induction false} StartSound(p: Policy)
    ensures Sound(p, START)
  {
    assert Sizes(START.sessions) == map[];
  }

  /**
   No identifier is served twice; a stream is delivered only to a DataHello that named the identifier's own Session,
   Principal and Service before it expired; and it is joined to the external connection the identifier was issued for,
   which is joined at most once.
   */
  lemma {:induction false} StreamsMatchTheirIssue(p: Policy, steps: seq<Step>)
    ensures var w := Run(p, START, steps);
      && (forall i, j :: 0 <= i < j < |w.deliveries| ==>
        w.deliveries[i].hello.connection != w.deliveries[j].hello.connection)
      && (forall d :: d in w.deliveries ==>
        && d.hello.connection in w.issued
        && var it := w.issued[d.hello.connection];
           it.session == d.hello.session && it.principal == d.principal
           && it.entry.service == d.hello.service && d.at < it.entry.expires)
      && (forall j :: j in w.joined ==>
        && j.delivery in w.deliveries && j.delivery.hello.connection in w.issued
        && w.issued[j.delivery.hello.connection].external == j.external)
      && (forall i, j :: 0 <= i < j < |w.joined| ==> w.joined[i].external != w.joined[j].external)
  {
    StartSound(p);
    RunSound(p, START, steps);
    var w := Run(p, START, steps);
    hide Run;
    forall i, j | 0 <= i < j < |w.joined| ensures w.joined[i].external != w.joined[j].external {
      JoinedApart(w, i, j);
    }
  }

  lemma {:induction false} JoinedApart(w: World, i: nat, j: nat)
    requires i < j < |w.joined| && JoinedRight(w) && JoinedOnce(w) && IssuedApart(w)
    ensures w.joined[i].external != w.joined[j].external
  {
    assert w.joined[i] in w.joined && w.joined[j] in w.joined;
  }

  predicate Known(w: World, hello: Hello, principal: Principal) {
    hello.session in w.registry && hello.session in w.sessions && w.sessions[hello.session].principal == principal
  }

  /** A DataHello handled with nothing in between. */
  function Handled(w: World, k: nat, hello: Hello, principal: Principal, stream: Stream): World
    requires k !in w.claims
  {
    if !Known(w, hello, principal) then w
    else
      var u := Taken(w.(claims := w.claims[k := Resolved(hello, principal, stream)]), k);
      if k in u.claims then Sent(u, k) else u
  }

  lemma {:induction false} RunFirst(p: Policy, w: World, step: Step, rest: seq<Step>)
    ensures Run(p, w, [step] + rest) == if Possible(w, step) then Run(p, Apply(p, w, step), rest) else Run(p, w, rest)
  {
    hide Possible, Apply;
    assert ([step] + rest)[1..] == rest;
  }

  lemma {:induction false} ResolveFirst(p: Policy, w: World, k: nat, hello: Hello, principal: Principal, stream: Stream,
                                        rest: seq<Step>)
    requires k !in w.claims
    ensures
      var known := w.(claims := w.claims[k := Resolved(hello, principal, stream)]);
      Run(p, w, [Resolve(k, hello, principal, stream)] + rest) ==
        Run(p, if Known(w, hello, principal) then known else w, rest)
  {
    RunFirst(p, w, Resolve(k, hello, principal, stream), rest);
    hide Run;
  }

  lemma {:induction false} TakeFirst(p: Policy, w: World, k: nat, rest: seq<Step>)
    requires k in w.claims ==> w.claims[k].Resolved? && w.claims[k].hello.session in w.sessions
    ensures Run(p, w, [Take(k)] + rest) == Run(p, if k in w.claims then Taken(w, k) else w, rest)
  {
    RunFirst(p, w, Take(k), rest);
    hide Run, Taken;
  }

  lemma {:induction false} SendFirst(p: Policy, w: World, k: nat, rest: seq<Step>)
    requires k in w.claims ==> w.claims[k].Holding?
    ensures Run(p, w, [Send(k)] + rest) == Run(p, if k in w.claims then Sent(w, k) else w, rest)
  {
    RunFirst(p, w, Send(k), rest);
    hide Run, Sent;
  }

  lemma {:induction false} HandledIsARun(p: Policy, w: World, k: nat, hello: Hello, principal: Principal,
                                         stream: Stream)
    requires k !in w.claims
    ensures Run(p, w, [Resolve(k, hello, principal, stream), Take(k), Send(k)]) ==
      Handled(w, k, hello, principal, stream)
  {
    hide Possible, Apply, Sent, RemoveOne;
    var a := Resolve(k, hello, principal, stream);
    assert [a, Take(k), Send(k)] == [a] + ([Take(k)] + ([Send(k)] + []));
    ResolveFirst(p, w, k, hello, principal, stream, [Take(k)] + ([Send(k)] + []));
    var w1 := if Known(w, hello, principal) then w.(claims := w.claims[k := Resolved(hello, principal, stream)]) else w;
    TakeFirst(p, w1, k, [Send(k)] + []);
    var w2 := if k in w1.claims then Taken(w1, k) else w1;
    SendFirst(p, w2, k, []);
  }

  /**
   A wrong Session or Principal changes nothing at all; a wrong Service, or coming too late, still costs the entry.
   */
  lemma {:induction false} RefusedHello(w: World, k: nat, hello: Hello, principal: Principal, stream: Stream)
    requires k !in w.claims
    ensures
      var v := Handled(w, k, hello, principal, stream);
      && v.claims == w.claims
      && (!Known(w, hello, principal) ==> v == w)
      && (Known(w, hello, principal) ==>
        hello.session in v.sessions && hello.connection !in v.sessions[hello.session].pending)
      && (forall s :: s in w.sessions && s != hello.session ==> s in v.sessions && v.sessions[s] == w.sessions[s])
      && (v.deliveries != w.deliveries ==>
        && Known(w, hello, principal) && hello.connection in w.sessions[hello.session].pending
        && Honours(w.sessions[hello.session].pending[hello.connection], hello, w.now))
  {
    hide Honours, Receives;
    assert w.claims[k := Resolved(hello, principal, stream)] - {k} == w.claims;
  }
}
