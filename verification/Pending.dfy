/** Pending Connections: each issued identifier waits in its Session's table for one Data Connection. */
module Pending {
  import opened Wire

  type Instant = nat
  /** The sending half of a one-use channel, named by the channel. */
  type Channel = nat

  datatype Entry = Entry(service: ServiceId, expires: Instant, channel: Channel)
  type Table = map<ConnectionId, Entry>

  datatype Hello = Hello(session: SessionId, service: ServiceId, connection: ConnectionId)
  type Principal = Option<Bytes>

  function Retained(t: Table, service: ServiceId): Table {
    map c | c in t && t[c].service != service :: t[c]
  }

  /** Whether a claimed entry is for the Service named and still in time. */
  predicate Honours(e: Entry, hello: Hello, now: Instant) {
    e.service == hello.service && now < e.expires
  }

  class Counters {
    var pending: int
    var rejected: nat

    constructor ()
      ensures pending == 0 && rejected == 0
    {
      pending, rejected := 0, 0;
    }
  }

  class SessionContext {
    const id: SessionId
    const principal: Principal
    const counters: Counters
    var pending: Table

    constructor (id: SessionId, principal: Principal, counters: Counters)
      ensures this.id == id && this.principal == principal && this.counters == counters && pending == map[]
    {
      this.id, this.principal, this.counters, pending := id, principal, counters, map[];
    }

    /** Admit one issued identifier, unless the table is full. */
    method Issue(c: ConnectionId, e: Entry, limit: nat) returns (admitted: bool)
      modifies this`pending, counters
      ensures admitted <==> |old(pending)| < limit
      ensures admitted ==> pending == old(pending)[c := e] && counters.pending == old(counters.pending) + 1
      ensures admitted ==> counters.rejected == old(counters.rejected)
      ensures !admitted ==> pending == old(pending) && counters.pending == old(counters.pending)
      ensures !admitted ==> counters.rejected == old(counters.rejected) + 1
    {
      if |pending| >= limit {
        counters.rejected := counters.rejected + 1;
        return false;
      }
      counters.pending := counters.pending + 1;
      pending := pending[c := e];
      admitted := true;
    }

    /** Take one entry out, whoever asks. */
    method Remove(c: ConnectionId) returns (e: Option<Entry>)
      modifies this`pending, counters`pending
      ensures pending == old(pending) - {c}
      ensures e == if c in old(pending) then Some(old(pending)[c]) else None
      ensures old(counters.pending) - counters.pending == |old(pending)| - |pending|
      ensures old(counters.pending) - counters.pending == if e.Some? then 1 else 0
    {
      if c !in pending {
        assert pending - {c} == pending;
        return None;
      }
      e := Some(pending[c]);
      ghost var before := pending;
      pending := pending - {c};
      counters.pending := counters.pending - 1;
      assert before == pending[c := e.value];
    }

    method RemoveService(service: ServiceId)
      modifies this`pending, counters`pending
      ensures pending == Retained(old(pending), service)
      ensures old(counters.pending) - counters.pending == |old(pending)| - |pending|
    {
      var before := pending;
      var todo := pending.Keys;
      while todo != {}
        invariant todo <= pending.Keys <= before.Keys && counters.pending == old(counters.pending)
        invariant forall c :: c in pending ==> pending[c] == before[c]
        invariant forall c :: c in before.Keys - todo ==> (c in pending <==> before[c].service != service)
        decreases |todo|
      {
        var c :| c in todo;
        todo := todo - {c};
        if pending[c].service == service { pending := pending - {c}; }
      }
      var removed := |before| - |pending|;
      counters.pending := counters.pending - removed;
    }

    method RemoveAll()
      modifies this`pending, counters`pending
      ensures pending == map[]
      ensures old(counters.pending) - counters.pending == |old(pending)|
    {
      var len := |pending|;
      pending := map[];
      counters.pending := counters.pending - len;
    }
  }

  datatype Verdict = Deliver(channel: Channel) | Unauthenticated | Unauthorized

  /**
   Resolve a DataHello with nothing in between. A stream goes to a channel only if the Session is
   registered, the Principal is the Session's own, and the identifier was pending there for that Service
   and in time. A wrong Session or Principal changes no table; anything later costs the entry.
   */
  method AcceptDataHello(registry: map<SessionId, SessionContext>, counters: Counters, hello: Hello,
                         principal: Principal, now: Instant) returns (v: Verdict)
    requires forall s :: s in registry ==> registry[s].id == s && registry[s].counters == counters
    modifies registry.Values, counters
    ensures forall s :: s in registry && s != hello.session ==> registry[s].pending == old(registry[s].pending)
    ensures v == Unauthenticated <==> hello.session !in registry || registry[hello.session].principal != principal
    ensures v == Unauthenticated ==> forall s :: s in registry ==> registry[s].pending == old(registry[s].pending)
    ensures v != Unauthenticated ==>
      registry[hello.session].pending == old(registry[hello.session].pending) - {hello.connection}
    ensures v.Deliver? <==>
      && v != Unauthenticated && hello.connection in old(registry[hello.session].pending)
      && Honours(old(registry[hello.session].pending)[hello.connection], hello, now)
    ensures v.Deliver? ==> v.channel == old(registry[hello.session].pending)[hello.connection].channel
    ensures counters.rejected == old(counters.rejected) + if v.Deliver? then 0 else 1
    ensures counters.pending == old(counters.pending) -
      if v != Unauthenticated && hello.connection in old(registry[hello.session].pending) then 1 else 0
  {
    if hello.session !in registry || registry[hello.session].principal != principal {
      counters.rejected := counters.rejected + 1;
      return Unauthenticated;
    }
    var session := registry[hello.session];
    var entry := session.Remove(hello.connection);
    if entry.None? || !Honours(entry.value, hello, now) {
      counters.rejected := counters.rejected + 1;
      return Unauthorized;
    }
    v := Deliver(entry.value.channel);
  }
}
