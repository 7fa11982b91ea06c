/** The Session registry, the guards that keep it honest, and the shutdown drain that walks it. */
module Registry {
  import opened Wire

  /** Registering first forgets entries whose Session is gone, then refuses at the ceiling. */
  function Live(entries: set<SessionId>, alive: set<SessionId>): set<SessionId> {
    entries * alive
  }

  function Registered(entries: set<SessionId>, alive: set<SessionId>, s: SessionId, max: nat): set<SessionId> {
    var live := Live(entries, alive);
    if |live| >= max then live else live + {s}
  }

  class SessionRegistry {
    /** Weak references: an entry says nothing about whether its Session still lives. */
    var entries: set<SessionId>
    var notifications: nat

    constructor ()
      ensures entries == {} && notifications == 0
    {
      entries, notifications := {}, 0;
    }

    method Register(s: SessionId, alive: set<SessionId>, max: nat) returns (ok: bool)
      modifies this
      ensures entries == Registered(old(entries), alive, s, max)
      ensures ok <==> |Live(old(entries), alive)| < max
      ensures notifications == old(notifications) + if ok then 1 else 0
    {
      var todo := entries;
      while todo != {}
        invariant todo <= entries <= old(entries) && notifications == old(notifications)
        invariant forall r :: r in old(entries) - todo ==> (r in entries <==> r in alive)
        decreases |todo|
      {
        var r :| r in todo;
        todo := todo - {r};
        if r !in alive { entries := entries - {r}; }
      }
      assert entries == Live(old(entries), alive);
      if |entries| >= max { return false; }
      entries := entries + {s};
      notifications := notifications + 1;
      ok := true;
    }
  }

  /** One pass of the drain over the Sessions it found: each one not yet told is told, once. */
  method Visit(active: seq<SessionId>, told: set<SessionId>) returns (now: set<SessionId>, visits: seq<SessionId>)
    ensures now == told + (set i | 0 <= i < |active| :: active[i])
    ensures forall i, j :: 0 <= i < j < |visits| ==> visits[i] != visits[j]
    ensures forall s :: s in visits <==> s in active && s !in told
  {
    now, visits := told, [];
    for i := 0 to |active|
      invariant forall s :: s in now <==> s in told || s in active[..i]
      invariant forall j, k :: 0 <= j < k < |visits| ==> visits[j] != visits[k]
      invariant forall s :: s in visits <==> s in active[..i] && s !in told
    {
      assert active[..i + 1] == active[..i] + [active[i]];
      if active[i] !in now {
        visits := visits + [active[i]];
        now := now + {active[i]};
      }
    }
    assert active[..|active|] == active;
  }

  // ----- the server around it

  /** How far a control task has come: in the registry, having said so, guarded, counted off, out of the registry. */
  datatype Stage = Created | Inserted | Notified | Guarded | Leaving | Gone

  /** `sender` is set once the control loop has its queue; `alive` while anyone holds the Session. */
  datatype Session = Session(stage: Stage, sender: bool, alive: bool)

  /** The drain: before each pass it takes an interest in registrations, then enumerates, visits and waits. */
  datatype Drain = Resting | Interested | Visiting(todo: set<SessionId>) | Waiting | Finished

  datatype World = World(
    sessions: map<SessionId, Session>,
    entries: set<SessionId>,
    counter: int,
    drain: Drain,
    signalled: bool,
    told: set<SessionId>,
    visits: seq<SessionId>,
    queued: set<SessionId>)

  const START := World(map[], {}, 0, Resting, false, {}, [], {})

  datatype Step =
    | Create(session: SessionId)
    | Insert(session: SessionId)
    | Notify(session: SessionId)
    | Guard(session: SessionId)
    | SetSender(session: SessionId)
    | CountOff(session: SessionId)
    | Remove(session: SessionId)
    | Release(session: SessionId)
    | TakeInterest
    | Enumerate
    | VisitOne(session: SessionId, room: bool)
    | Wait
    | Wake
    | Deadline

  function Alive(w: World): set<SessionId> {
    set s | s in w.sessions && w.sessions[s].alive
  }

  predicate At(w: World, s: SessionId, stage: Stage) {
    s in w.sessions && w.sessions[s].alive && w.sessions[s].stage == stage
  }

  predicate Possible(w: World, step: Step) {
    match step
    case Create(s) => s !in w.sessions
    case Insert(s) => At(w, s, Created)
    case Notify(s) => At(w, s, Inserted)
    case Guard(s) => At(w, s, Notified)
    case SetSender(s) => At(w, s, Guarded)
    case CountOff(s) => At(w, s, Guarded)
    case Remove(s) => At(w, s, Leaving)
    case Release(s) => s in w.sessions && w.sessions[s].stage != Guarded && w.sessions[s].stage != Leaving
    case TakeInterest => w.drain == Resting
    case Enumerate => w.drain == Interested
    case VisitOne(s, _) => w.drain.Visiting? && s in w.drain.todo
    case Wait => w.drain == Visiting({})
    case Wake => w.drain == Waiting && w.signalled
    case Deadline => w.drain == Waiting
  }

  function Move(w: World, s: SessionId, stage: Stage): World
    requires s in w.sessions
  {
    w.(sessions := w.sessions[s := w.sessions[s].(stage := stage)])
  }

  function Apply(max: nat, w: World, step: Step): World
    requires Possible(w, step)
  {
    match step
    case Create(s) => w.(sessions := w.sessions[s := Session(Created, false, true)])
    case Insert(s) =>
      var entries := Registered(w.entries, Alive(w), s, max);
      // A refused Session is never registered, and its task returns.
      Move(w, s, if |Live(w.entries, Alive(w))| >= max then Gone else Inserted).(entries := entries)
    case Notify(s) =>
      var heard := w.drain.Interested? || w.drain.Visiting? || w.drain.Waiting?;
      Move(w, s, Notified).(signalled := w.signalled || heard)
    case Guard(s) => Move(w, s, Guarded).(counter := w.counter + 1)
    case SetSender(s) => w.(sessions := w.sessions[s := w.sessions[s].(sender := true)])
    case CountOff(s) => Move(w, s, Leaving).(counter := w.counter - 1)
    case Remove(s) => Move(w, s, Gone).(entries := w.entries - {s})
    case Release(s) => w.(sessions := w.sessions[s := w.sessions[s].(alive := false)])
    case TakeInterest => w.(drain := Interested, signalled := false)
    case Enumerate => w.(drain := Visiting(Live(w.entries, Alive(w))))
    case VisitOne(s, room) =>
      var v := w.(drain := Visiting(w.drain.todo - {s}));
      if s in w.told then v
      else
        v.(told := w.told + {s}, visits := w.visits + [s],
           queued := if s in w.sessions && w.sessions[s].sender && room then w.queued + {s} else w.queued)
    case Wait => w.(drain := Waiting)
    case Wake => w.(drain := Resting)
    case Deadline => w.(drain := Finished)
  }

  function Run(max: nat, w: World, steps: seq<Step>): World
    decreases |steps|
  {
    if steps == [] then w
    else if Possible(w, steps[0]) then Run(max, Apply(max, w, steps[0]), steps[1..])
    else Run(max, w, steps[1..])
  }
}
