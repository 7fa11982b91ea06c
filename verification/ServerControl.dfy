/**
 One Session of the server's control loop: its Service table, and what it does with
 a registration or an unregistration.
 */
module ServerControl {
  import opened Wire

  const ERROR_DUPLICATE: u16 := 1
  const ERROR_BIND: u16 := 2
  const ERROR_LISTENER: u16 := 3
  const ERROR_ADMISSION: u16 := 5

  /** `services` gives the name each registered id was registered under. */
  datatype Table = Table(services: map<ServiceId, Text>, names: set<Text>)

  /** What lies outside the table: whether the bind policy admits the request, and the bound address if any. */
  datatype Listener = BindRefused | ListenFailed | Listening(bind: EffectiveBind)

  datatype Admission = Admitted(bind: EffectiveBind) | Rejected(code: u16)

  function Admit(t: Table, maxServices: nat, id: ServiceId, name: Text, listener: Listener): Admission {
    if |t.services| >= maxServices then Rejected(ERROR_ADMISSION)
    else if id in t.services || name in t.names then Rejected(ERROR_DUPLICATE)
    else
      match listener
      case BindRefused => Rejected(ERROR_BIND)
      case ListenFailed => Rejected(ERROR_LISTENER)
      case Listening(bind) => Admitted(bind)
  }

  function Inserted(t: Table, id: ServiceId, name: Text): Table {
    Table(t.services[id := name], t.names + {name})
  }

  function Removed(t: Table, id: ServiceId): Table {
    if id in t.services then Table(t.services - {id}, t.names - {t.services[id]}) else t
  }

  /** The correlated reject is used exactly when it was negotiated. */
  function Refusal(correlated: bool, id: ServiceId, code: u16, diagnostic: Text): Message {
    if correlated then RegisterReject(id, code, diagnostic) else Error(code, diagnostic)
  }

  function Register(t: Table, maxServices: nat, correlated: bool, id: ServiceId, name: Text, listener: Listener,
                    diagnostic: Text): (Table, Message) {
    match Admit(t, maxServices, id, name, listener)
    case Admitted(bind) => (Inserted(t, id, name), RegisterAck(id, bind))
    case Rejected(code) => (t, Refusal(correlated, id, code, diagnostic))
  }

  /** The name set is exactly the names of the table, and no two ids share a name. */
  ghost predicate Consistent(t: Table) {
    && (forall id :: id in t.services ==> t.services[id] in t.names)
    && (forall n :: n in t.names ==> exists id :: id in t.services && t.services[id] == n)
    && (forall a, b :: a in t.services && b in t.services && t.services[a] == t.services[b] ==> a == b)
  }

  lemma {:induction false} InsertedConsistent(t: Table, id: ServiceId, name: Text)
    requires Consistent(t) && id !in t.services && name !in t.names
    ensures Consistent(Inserted(t, id, name))
  {
    var u := Inserted(t, id, name);
    forall n | n in u.names ensures exists k :: k in u.services && u.services[k] == n {
      if n == name {
        assert u.services[id] == n;
      } else {
        var k :| k in t.services && t.services[k] == n;
        assert u.services[k] == n;
      }
    }
  }

  lemma {:induction false} RemovedConsistent(t: Table, id: ServiceId)
    requires Consistent(t)
    ensures Consistent(Removed(t, id))
  {
    var u := Removed(t, id);
    forall n | n in u.names ensures exists k :: k in u.services && u.services[k] == n {
      var k :| k in t.services && t.services[k] == n;
      assert id in t.services ==> k in u.services;
    }
  }

  /** There is room, and neither the id nor any Service's name is taken. */
  predicate Free(t: Table, maxServices: nat, id: ServiceId, name: Text) {
    |t.services| < maxServices && id !in t.services && forall k :: k in t.services ==> t.services[k] != name
  }

  /** A registration keeps the table consistent and within its bound, and the answer tells what happened to it. */
  lemma {:induction false} RegisterMeaning(t: Table, maxServices: nat, correlated: bool, id: ServiceId, name: Text,
                                           listener: Listener, diagnostic: Text)
    requires Consistent(t) && |t.services| <= maxServices
    ensures
      var (u, answer) := Register(t, maxServices, correlated, id, name, listener, diagnostic);
      && Consistent(u) && |u.services| <= maxServices
      && (answer.RegisterAck? <==> u != t)
      && (answer.RegisterAck? ==> id !in t.services && answer.serviceId == id && u.services == t.services[id := name])
      && (answer.RegisterReject? ==> correlated && answer.serviceId == id)
      && (answer.RegisterAck? || answer.RegisterReject? || (answer.Error? && !correlated))
      && (answer.RegisterAck? <==> Free(t, maxServices, id, name) && listener.Listening?)
      && (answer.RegisterAck? ==> listener == Listening(answer.effectiveBind))
      && (!answer.RegisterAck? ==> answer.diagnostic == diagnostic)
      && (!answer.RegisterAck? && |t.services| == maxServices ==> answer.code == 5)
      && (!answer.RegisterAck? && |t.services| < maxServices && !Free(t, maxServices, id, name) ==> answer.code == 1)
      && (!answer.RegisterAck? && Free(t, maxServices, id, name) ==>
        answer.code == if listener.BindRefused? then 2 else 3)
  {
    if Admit(t, maxServices, id, name, listener).Admitted? {
      InsertedConsistent(t, id, name);
      assert id in Inserted(t, id, name).services;
    }
    hide Consistent;
  }
}
