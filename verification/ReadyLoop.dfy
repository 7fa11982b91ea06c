/**
 The handlers of the client's ready loop: what one caller command, one incoming
 control message or one deadline does to the client, what it sends, and whether
 the loop goes on.
 */
module ReadyLoop {
  import opened Wire
  import opened ServiceStore

  datatype BindEntry = BindEntry(session: SessionId, service: ServiceId, bind: EffectiveBind)

  /** The registration store with the bind table and the services counter shown to the embedder. */
  datatype Client = Client(store: Store, binds: seq<BindEntry>, services: nat)

  datatype Verdict = Continue | Break(timedOut: bool) | Return(error: TunnelError)

  datatype Handled = Handled(client: Client, sent: seq<Message>, verdict: Verdict)

  /** A bounded write completes, fails, or runs out of budget with or without having reached the peer. */
  datatype Write = Written(deadline: nat) | WriteFailed | WriteTimedOut(delivered: bool)

  function Registration(service: Service): Message {
    RegisterService(service.id, service.name, service.requestedBind, service.target)
  }

  function RegistrationErrorCode(code: u16): TunnelError {
    match code
    case 1 => ServiceAlreadyExists
    case 5 => ResourceExhausted
    case _ => Authorization
  }

  function OnRegister(c: Client, generation: nat, limit: nat, service: Service, reply: Reply, closed: set<Reply>,
                      write: Write): Handled {
    var s := c.store;
    if |s.desired| + Unacknowledged(s) >= limit then
      Handled(c.(store := Answer(s, Some(reply), Failed(ResourceExhausted))), [], Continue)
    else if reply in closed then
      Handled(c.(store := Answer(s, Some(reply), Dropped)), [], Continue)
    else
      var (s1, accepted) := AnswerBegin(s, service, generation, reply);
      if !accepted then Handled(c.(store := s1), [], Continue)
      else
        match write
        case Written(deadline) =>
          Handled(c.(store := ArmDeadline(s1, service.id, deadline)), [Registration(service)], Continue)
        case WriteFailed => Handled(c.(store := s1), [], Return(Io))
        case WriteTimedOut(delivered) =>
          var sent := if delivered then [Registration(service)] else [];
          if s1.mode.LegacySerial? then Handled(c.(store := FailLegacyWrite(s1)), sent, Break(true))
          else Handled(c.(store := Abandon(s1, service.id)), sent, Continue)
  }

  function BindsWithout(binds: seq<BindEntry>, id: ServiceId): seq<BindEntry> {
    if binds == [] then []
    else (if binds[0].service == id then [] else [binds[0]]) + BindsWithout(binds[1..], id)
  }

  /** A failed write ends the Session only when the Service was active. */
  function OnUnregister(c: Client, id: ServiceId, written: bool): Handled {
    var s := Unregister(c.store, id);
    var sent := if written then [UnregisterService(id)] else [];
    if id in c.store.active then
      Handled(Client(s, BindsWithout(c.binds, id), |s.active|), sent, if written then Continue else Return(Timeout))
    else Handled(c.(store := s), sent, Continue)
  }

  function OnAck(c: Client, session: SessionId, generation: nat, id: ServiceId, bind: EffectiveBind, closed: set<Reply>,
                 written: bool): Handled {
    var (s, d) := AnswerAck(c.store, id, generation, closed, bind);
    match d
    case Unexpected => Handled(c.(store := s), [], Return(Protocol))
    case AckStale(_) => Handled(c.(store := s), [], Continue)
    case AckAbandoned => Handled(c.(store := s), if written then [UnregisterService(id)] else [], Continue)
    case Commit(service, _) =>
      Handled(Client(s, c.binds + [BindEntry(session, service.id, bind)], |s.active|), [], Continue)
  }

  function OnError(c: Client, code: u16): Handled {
    var (s, found) := AnswerError(c.store, RegistrationErrorCode(code));
    Handled(c.(store := s), [], if found then Continue else Return(Authorization))
  }

  /** Without the negotiated capability the message itself is a violation. */
  function OnReject(c: Client, generation: nat, id: ServiceId, code: u16): Handled {
    if c.store.mode.LegacySerial? then Handled(c, [], Return(Protocol))
    else
      var (s, d) := AnswerReject(c.store, id, generation, RegistrationErrorCode(code));
      Handled(c.(store := s), [], if d.Unknown? then Return(Protocol) else Continue)
  }

  /** Open and heartbeat traffic does not touch the registration store. */
  function OnMessage(c: Client, session: SessionId, generation: nat, m: Message, closed: set<Reply>,
                     written: bool): Handled {
    match m
    case RegisterAck(id, bind) => OnAck(c, session, generation, id, bind, closed, written)
    case Error(code, _) => OnError(c, code)
    case RegisterReject(id, code, _) => OnReject(c, generation, id, code)
    case Open(_, _) => Handled(c, [], Continue)
    case Ping(_) => Handled(c, [], Continue)
    case Pong(_) => Handled(c, [], Continue)
    case Drain(_) => Handled(c, [], Break(false))
    case _ => Handled(c, [], Return(Protocol))
  }

  function OnDeadline(c: Client, now: nat): Handled {
    var (s, expiry) := ExpireOverdue(c.store, now);
    Handled(c.(store := s), [], if expiry.LegacyExpired? then Break(true) else Continue)
  }
}
