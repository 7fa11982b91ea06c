/** The server-wide bind table and services counter, shared by every Session. */
module Accounts {
  import opened Wire
  import ServerControl

  datatype Bind = Bind(session: SessionId, service: ServiceId, effective: EffectiveBind)

  /** `retain`, keeping everything but one Service of one Session, or but one Session. */
  function WithoutService(binds: seq<Bind>, s: SessionId, id: ServiceId): seq<Bind> {
    if binds == [] then []
    else
      var b := binds[|binds| - 1];
      WithoutService(binds[..|binds| - 1], s, id) + (if b.session != s || b.service != id then [b] else [])
  }

  function WithoutSession(binds: seq<Bind>, s: SessionId): (kept: seq<Bind>)
    ensures |kept| <= |binds|
  {
    if binds == [] then []
    else
      var b := binds[|binds| - 1];
      WithoutSession(binds[..|binds| - 1], s) + (if b.session != s then [b] else [])
  }

  class Counters {
    var services: int
    var binds: seq<Bind>

    constructor ()
      ensures services == 0 && binds == []
    {
      services, binds := 0, [];
    }
  }

  /** One control loop's own tables, beside the shared ones. */
  class ControlSession {
    const id: SessionId
    const counters: Counters
    var services: map<ServiceId, Text>
    var names: set<Text>

    constructor (id: SessionId, counters: Counters)
      ensures this.id == id && this.counters == counters && services == map[] && names == {}
    {
      this.id, this.counters, services, names := id, counters, map[], {};
    }

    ghost function Table(): ServerControl.Table
      reads this
    {
      ServerControl.Table(services, names)
    }

    method Register(maxServices: nat, correlated: bool, service: ServiceId, name: Text,
                    listener: ServerControl.Listener, diagnostic: Text) returns (answer: Message)
      modifies this, counters
      ensures (Table(), answer) ==
        ServerControl.Register(old(Table()), maxServices, correlated, service, name, listener, diagnostic)
      ensures answer.RegisterAck? ==>
        && counters.binds == old(counters.binds) + [Bind(id, service, answer.effectiveBind)]
        && counters.services == old(counters.services) + 1
      ensures !answer.RegisterAck? ==>
        counters.binds == old(counters.binds) && counters.services == old(counters.services)
    {
      if |services| >= maxServices {
        return ServerControl.Refusal(correlated, service, ServerControl.ERROR_ADMISSION, diagnostic);
      }
      if service in services || name in names {
        return ServerControl.Refusal(correlated, service, ServerControl.ERROR_DUPLICATE, diagnostic);
      }
      match listener {
        case BindRefused => return ServerControl.Refusal(correlated, service, ServerControl.ERROR_BIND, diagnostic);
        case ListenFailed => {
          return ServerControl.Refusal(correlated, service, ServerControl.ERROR_LISTENER, diagnostic);
        }
        case Listening(effective) => {
          counters.binds := counters.binds + [Bind(id, service, effective)];
          names := names + {name};
          services := services[service := name];
          counters.services := counters.services + 1;
          return RegisterAck(service, effective);
        }
      }
    }

    method Unregister(service: ServiceId)
      modifies this, counters
      ensures Table() == ServerControl.Removed(old(Table()), service)
      ensures service in old(services) ==>
        && counters.binds == WithoutService(old(counters.binds), id, service)
        && counters.services == old(counters.services) - 1
      ensures service !in old(services) ==>
        counters.binds == old(counters.binds) && counters.services == old(counters.services)
    {
      if service !in services { return; }
      var name := services[service];
      services := services - {service};
      names := names - {name};
      var kept: seq<Bind> := [];
      for i := 0 to |counters.binds|
        invariant kept == WithoutService(counters.binds[..i], id, service)
      {
        assert counters.binds[..i + 1][..i] == counters.binds[..i];
        var b := counters.binds[i];
        if b.session != id || b.service != service { kept := kept + [b]; }
      }
      assert counters.binds[..|counters.binds|] == counters.binds;
      counters.binds := kept;
      counters.services := counters.services - 1;
    }

    /** What the Session guard does on every way out of the control loop. */
    method DropGuard()
      modifies counters
      ensures counters.binds == WithoutSession(old(counters.binds), id)
      ensures counters.services == old(counters.services) - (|old(counters.binds)| - |counters.binds|)
    {
      var before := |counters.binds|;
      var kept: seq<Bind> := [];
      for i := 0 to |counters.binds|
        invariant kept == WithoutSession(counters.binds[..i], id)
      {
        assert counters.binds[..i + 1][..i] == counters.binds[..i];
        if counters.binds[i].session != id { kept := kept + [counters.binds[i]]; }
      }
      assert counters.binds[..|counters.binds|] == counters.binds;
      counters.binds := kept;
      counters.services := counters.services - (before - |kept|);
    }
  }

  // ----- all Sessions at once, one shared access at a time

  /**
   Where a control loop is between its accesses to the shared tables: a bind pushed but not yet counted, a bind removed
   but still counted, or a dropped guard that has removed `owed` binds and has yet to count them off.
   */
  datatype Phase = Idle | Pushed(id: ServiceId, name: Text) | Unbound | Closing(owed: nat)

  datatype Session = Session(table: ServerControl.Table, phase: Phase)

  datatype World = World(counter: int, binds: seq<Bind>, sessions: map<SessionId, Session>)

  const START := World(0, [], map[])

  datatype Step =
    | Open(session: SessionId)
    | Push(session: SessionId, maxServices: nat, id: ServiceId, name: Text, listener: ServerControl.Listener)
    | CountUp(session: SessionId)
    | Unbind(session: SessionId, id: ServiceId)
    | CountDown(session: SessionId)
    | Close(session: SessionId)
    | Settle(session: SessionId)

  predicate Possible(w: World, step: Step) {
    match step
    case Open(s) => s !in w.sessions
    case Push(s, _, _, _, _) => s in w.sessions && w.sessions[s].phase.Idle?
    case CountUp(s) => s in w.sessions && w.sessions[s].phase.Pushed?
    case Unbind(s, _) => s in w.sessions && w.sessions[s].phase.Idle?
    case CountDown(s) => s in w.sessions && w.sessions[s].phase.Unbound?
    case Close(s) => s in w.sessions && w.sessions[s].phase.Idle?
    case Settle(s) => s in w.sessions && w.sessions[s].phase.Closing?
  }

  function Put(w: World, s: SessionId, x: Session): World {
    w.(sessions := w.sessions[s := x])
  }

  function Apply(w: World, step: Step): World
    requires Possible(w, step)
  {
    match step
    case Open(s) => Put(w, s, Session(ServerControl.Table(map[], {}), Idle))
    case Push(s, max, id, name, listener) =>
      (match ServerControl.Admit(w.sessions[s].table, max, id, name, listener)
       case Rejected(_) => w
       case Admitted(effective) =>
         Put(w, s, w.sessions[s].(phase := Pushed(id, name))).(binds := w.binds + [Bind(s, id, effective)]))
    case CountUp(s) =>
      var x := w.sessions[s];
      Put(w, s, Session(ServerControl.Inserted(x.table, x.phase.id, x.phase.name), Idle)).(counter := w.counter + 1)
    case Unbind(s, id) =>
      var x := w.sessions[s];
      if id !in x.table.services then w
      else Put(w, s, Session(ServerControl.Removed(x.table, id), Unbound)).(binds := WithoutService(w.binds, s, id))
    case CountDown(s) => Put(w, s, w.sessions[s].(phase := Idle)).(counter := w.counter - 1)
    case Close(s) =>
      var kept := WithoutSession(w.binds, s);
      Put(w, s, w.sessions[s].(phase := Closing(|w.binds| - |kept|))).(binds := kept)
    case Settle(s) => w.(sessions := w.sessions - {s}, counter := w.counter - w.sessions[s].phase.owed)
  }

  function Run(w: World, steps: seq<Step>): World
    decreases |steps|
  {
    if steps == [] then w
    else if Possible(w, steps[0]) then Run(Apply(w, steps[0]), steps[1..])
    else Run(w, steps[1..])
  }
}
