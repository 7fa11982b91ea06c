/**
 The wire layout as a grammar: which byte strings spell which message. Nothing here reads a byte string from the front;
 the decoder and the encoder are both measured against it.
 */
module Grammar {
  import opened Wire
  import opened Postcard
  import opened Frames
  import opened FrameProofs
  import Capability

  // ----- integers

  /** Seven bits a byte, low bits first. */
  function Base128(w: Bytes): nat {
    if w == [] then 0 else w[0] % 128 + 128 * Base128(w[1..])
  }

  /** A varint spelling `n`: any length up to `width`, zeros in front allowed, the top bit marking all but the last. */
  ghost predicate Number(w: Bytes, width: nat, top: byte, n: nat) {
    && 1 <= |w| <= width && (forall i :: 0 <= i < |w| - 1 ==> 128 <= w[i]) && w[|w| - 1] < 128
    && (|w| == width ==> w[|w| - 1] <= top) && n == Base128(w)
  }

  ghost predicate Spell16(w: Bytes, n: u16) {
    Number(w, 3, 3, n)
  }

  ghost predicate Spell32(w: Bytes, n: u32) {
    Number(w, 5, 15, n)
  }

  ghost predicate Spell64(w: Bytes, n: u64) {
    Number(w, 10, 1, n)
  }

  lemma {:induction false} NumberRead(b: Bytes, width: nat, top: byte) returns (w: Bytes)
    requires TakeVarint(b, width, top).Took?
    ensures b == w + TakeVarint(b, width, top).rest && Number(w, width, top, TakeVarint(b, width, top).value)
  {
    if b[0] < 128 {
      w := [b[0]];
      assert w[1..] == [];
    } else {
      var v := NumberRead(b[1..], width - 1, top);
      w := [b[0]] + v;
      assert w[1..] == v;
    }
  }

  lemma {:induction false} NumberTaken(w: Bytes, width: nat, top: byte, n: nat, rest: Bytes)
    requires Number(w, width, top, n)
    ensures TakeVarint(w + rest, width, top) == Took(n, rest)
    decreases |w|
  {
    var b := w + rest;
    assert b[0] == w[0];
    if |w| == 1 {
      assert b[1..] == rest && Base128(w[1..]) == 0;
    } else {
      assert b[1..] == w[1..] + rest;
      NumberTaken(w[1..], width - 1, top, Base128(w[1..]), rest);
    }
  }

  /** The decoder takes a varint off the front exactly where one is spelled there. */
  lemma {:induction false} VarintExact(b: Bytes, width: nat, top: byte, n: nat, rest: Bytes)
    ensures TakeVarint(b, width, top) == Took(n, rest) <==> exists w :: Number(w, width, top, n) && b == w + rest
  {
    if TakeVarint(b, width, top) == Took(n, rest) {
      var w := NumberRead(b, width, top);
      assert Number(w, width, top, n) && b == w + rest;
    }
    if w :| Number(w, width, top, n) && b == w + rest {
      NumberTaken(w, width, top, n, rest);
    }
  }

  lemma {:induction false} Read16(b: Bytes) returns (w: Bytes)
    requires TakeU16(b).Took?
    ensures b == w + TakeU16(b).rest && Spell16(w, TakeU16(b).value)
  {
    w := NumberRead(b, 3, 3);
    hide Number;
  }

  lemma {:induction false} Read32(b: Bytes) returns (w: Bytes)
    requires TakeU32(b).Took?
    ensures b == w + TakeU32(b).rest && Spell32(w, TakeU32(b).value)
  {
    w := NumberRead(b, 5, 15);
    hide Number;
  }

  lemma {:induction false} Read64(b: Bytes) returns (w: Bytes)
    requires TakeU64(b).Took?
    ensures b == w + TakeU64(b).rest && Spell64(w, TakeU64(b).value)
  {
    w := NumberRead(b, 10, 1);
    hide Number;
  }

  lemma {:induction false} Taken16(w: Bytes, n: u16, rest: Bytes)
    requires Spell16(w, n)
    ensures TakeU16(w + rest) == Took(n, rest)
  {
    NumberTaken(w, 3, 3, n, rest);
    hide Number;
  }

  lemma {:induction false} Taken32(w: Bytes, n: u32, rest: Bytes)
    requires Spell32(w, n)
    ensures TakeU32(w + rest) == Took(n, rest)
  {
    NumberTaken(w, 5, 15, n, rest);
    hide Number;
  }

  lemma {:induction false} Taken64(w: Bytes, n: u64, rest: Bytes)
    requires Spell64(w, n)
    ensures TakeU64(w + rest) == Took(n, rest)
  {
    NumberTaken(w, 10, 1, n, rest);
    hide Number;
  }

  // ----- text and lists

  /** A length, then that many bytes. */
  ghost predicate SpellText(w: Bytes, x: Bytes) {
    |x| <= U64_MAX && exists a :: Spell64(a, |x|) && w == a + x
  }

  lemma {:induction false} ReadText(b: Bytes) returns (w: Bytes)
    requires TakeLengthPrefixed(b).Took?
    ensures b == w + TakeLengthPrefixed(b).rest && SpellText(w, TakeLengthPrefixed(b).value)
  {
    hide TakeU64, Spell64;
    var a := Read64(b);
    var x := TakeLengthPrefixed(b).value;
    w := a + x;
    assert TakeU64(b).rest == x + TakeLengthPrefixed(b).rest;
  }

  lemma {:induction false} TakenText(w: Bytes, x: Bytes, rest: Bytes)
    requires SpellText(w, x)
    ensures TakeLengthPrefixed(w + rest) == Took(x, rest)
  {
    hide TakeU64, Spell64;
    var a :| Spell64(a, |x|) && w == a + x;
    Taken64(a, |x|, x + rest);
    assert w + rest == a + (x + rest);
    assert (x + rest)[..|x|] == x && (x + rest)[|x|..] == rest;
  }

  ghost predicate SpellAll(w: Bytes, xs: seq<u16>)
    decreases |xs|
  {
    if xs == [] then w == [] else exists a, b :: Spell16(a, xs[0]) && SpellAll(b, xs[1..]) && w == a + b
  }

  lemma {:induction false} ReadAll(b: Bytes, n: nat) returns (w: Bytes)
    requires TakeU16s(b, n).Took?
    ensures |TakeU16s(b, n).value| == n
    ensures b == w + TakeU16s(b, n).rest && SpellAll(w, TakeU16s(b, n).value)
    decreases n
  {
    hide TakeU16, Spell16;
    if n == 0 {
      w := [];
    } else {
      var a := Read16(b);
      var r := TakeU16(b).rest;
      var c := ReadAll(r, n - 1);
      w := a + c;
      var xs := TakeU16s(b, n).value;
      assert xs[1..] == TakeU16s(r, n - 1).value;
      assert Spell16(a, xs[0]) && SpellAll(c, xs[1..]) && w == a + c;
    }
  }

  lemma {:induction false} TakenAll(w: Bytes, xs: seq<u16>, rest: Bytes)
    requires SpellAll(w, xs)
    ensures TakeU16s(w + rest, |xs|) == Took(xs, rest)
    decreases |xs|
  {
    hide TakeU16, Spell16;
    if xs == [] {
      assert w + rest == rest;
    } else {
      var a, b :| Spell16(a, xs[0]) && SpellAll(b, xs[1..]) && w == a + b;
      assert w + rest == a + (b + rest);
      Taken16(a, xs[0], b + rest);
      TakenAll(b, xs[1..], rest);
      assert [xs[0]] + xs[1..] == xs;
    }
  }

  // ----- the parts of a payload

  /** At most thirty-two numbers in any order and with repeats; what is received is their set, in order. */
  ghost predicate SpellHello(w: Bytes, version: Version, caps: seq<u16>) {
    exists a, b, c, d, ids ::
      && Spell16(a, version.major) && Spell16(b, version.minor) && |ids| <= 32 && Spell64(c, |ids|) && SpellAll(d, ids)
      && w == a + b + c + d && caps == Capability.Normalize(ids)
  }

  ghost predicate SpellBind(w: Bytes, bind: RequestedBind) {
    match bind
    case Loopback(port) => exists a, b :: Spell32(a, 0) && Spell16(b, port) && w == a + b
    case Ip(address, port) => exists a, b :: Spell32(a, 1) && Spell16(b, port) && w == a + address + b
  }

  lemma {:induction false} ReadHello(b: Bytes) returns (w: Bytes)
    requires TakeHello(b).Took?
    ensures b == w + TakeHello(b).rest && SpellHello(w, TakeHello(b).value.0, TakeHello(b).value.1)
  {
    hide TakeU16, TakeU64, TakeU16s, Spell16, Spell64, SpellAll, Capability.Normalize;
    var w1 := Read16(b);
    var b1 := TakeU16(b).rest;
    var w2 := Read16(b1);
    var b2 := TakeU16(b1).rest;
    var w3 := Read64(b2);
    var b3 := TakeU64(b2).rest;
    var w4 := ReadAll(b3, TakeU64(b2).value);
    w := w1 + w2 + w3 + w4;
  }

  lemma {:induction false} TakenHello(w: Bytes, version: Version, caps: seq<u16>, rest: Bytes)
    requires SpellHello(w, version, caps)
    ensures TakeHello(w + rest) == Took((version, caps), rest)
  {
    hide TakeU16, TakeU64, TakeU16s, Spell16, Spell64, SpellAll, Capability.Normalize;
    var a, b, c, d, ids :|
      && Spell16(a, version.major) && Spell16(b, version.minor) && |ids| <= 32 && Spell64(c, |ids|) && SpellAll(d, ids)
      && w == a + b + c + d && caps == Capability.Normalize(ids);
    assert w + rest == a + (b + (c + (d + rest)));
    Taken16(a, version.major, b + (c + (d + rest)));
    Taken16(b, version.minor, c + (d + rest));
    Taken64(c, |ids|, d + rest);
    TakenAll(d, ids, rest);
  }

  lemma {:induction false} ReadBind(b: Bytes) returns (w: Bytes)
    requires TakeBind(b).Took?
    ensures b == w + TakeBind(b).rest && SpellBind(w, TakeBind(b).value)
  {
    hide TakeU16, TakeU32, Spell16, Spell32;
    var w1 := Read32(b);
    var b1 := TakeU32(b).rest;
    if TakeU32(b).value == 0 {
      var w2 := Read16(b1);
      w := w1 + w2;
    } else {
      var w2 := Read16(b1[16..]);
      w := w1 + b1[..16] + w2;
    }
  }

  lemma {:induction false} TakenBind(w: Bytes, bind: RequestedBind, rest: Bytes)
    requires SpellBind(w, bind)
    ensures TakeBind(w + rest) == Took(bind, rest)
  {
    hide TakeU16, TakeU32, Spell16, Spell32, TakeOctets16;
    match bind
    case Loopback(port) =>
      var a, b :| Spell32(a, 0) && Spell16(b, port) && w == a + b;
      assert w + rest == a + (b + rest);
      Taken32(a, 0, b + rest);
      Taken16(b, port, rest);
    case Ip(address, port) =>
      var a, b :| Spell32(a, 1) && Spell16(b, port) && w == a + address + b;
      assert w + rest == a + (address + (b + rest));
      Taken32(a, 1, address + (b + rest));
      OctetsRoundTrip(address, b + rest);
      Taken16(b, port, rest);
  }

  // ----- payloads

  /** The fields of a message, one after the other, with nothing between or behind them. */
  ghost predicate Spells(p: Bytes, m: Message) {
    match m
    case ClientHello(version, caps) => SpellHello(p, version, caps)
    case ServerHello(version, caps) => SpellHello(p, version, caps)
    case Auth(token) => SpellText(p, token)
    case AuthOk(session) => p == session
    case RegisterService(id, name, bind, target) =>
      exists a, b, c, d, e ::
        && Spell64(a, id) && SpellText(b, name) && SpellBind(c, bind) && SpellText(d, target.host)
        && Spell16(e, target.port) && p == a + b + c + d + e
    case RegisterAck(id, bind) =>
      exists a, b :: Spell64(a, id) && Spell16(b, bind.port) && p == a + bind.address + b
    case UnregisterService(id) => Spell64(p, id)
    case Open(id, connection) => exists a :: Spell64(a, id) && p == a + connection
    case OpenReject(connection, code) => exists a :: Spell16(a, code) && p == connection + a
    case Ping(nonce) => Spell64(p, nonce)
    case Pong(nonce) => Spell64(p, nonce)
    case Drain(deadline) => Spell32(p, deadline)
    case Error(code, text) => exists a, b :: Spell16(a, code) && SpellText(b, text) && p == a + b
    case DataHello(session, id, connection) => exists a :: Spell64(a, id) && p == session + a + connection
    case RegisterReject(id, code, text) =>
      exists a, b, c :: Spell64(a, id) && Spell16(b, code) && SpellText(c, text) && p == a + b + c
  }

  lemma {:induction false} ReadRegisterService(rules: TextRules, p: Bytes)
    requires TakeRegisterService(rules, p).Took? && TakeRegisterService(rules, p).rest == []
    ensures Spells(p, TakeRegisterService(rules, p).value)
  {
    hide TakeU64, TakeU16, TakeLengthPrefixed, TakeBind, Spell64, Spell16, SpellText, SpellBind, ValidName, ValidTarget;
    var a := Read64(p);
    var p1 := TakeU64(p).rest;
    var b := ReadText(p1);
    var p2 := TakeLengthPrefixed(p1).rest;
    var c := ReadBind(p2);
    var p3 := TakeBind(p2).rest;
    var d := ReadText(p3);
    var p4 := TakeLengthPrefixed(p3).rest;
    var e := Read16(p4);
    assert p == a + b + c + d + e;
  }

  lemma {:induction false} TakenRegisterService(rules: TextRules, p: Bytes, m: Message)
    requires m.RegisterService? && Constructible(rules, m) && Spells(p, m)
    ensures TakeRegisterService(rules, p) == Took(m, [])
  {
    hide TakeU64, TakeU16, TakeLengthPrefixed, TakeBind, Spell64, Spell16, SpellText, SpellBind, ValidName, ValidTarget;
    var a, b, c, d, e :|
      && Spell64(a, m.serviceId) && SpellText(b, m.name) && SpellBind(c, m.requestedBind)
      && SpellText(d, m.target.host) && Spell16(e, m.target.port) && p == a + b + c + d + e;
    assert p == a + (b + (c + (d + (e + []))));
    Taken64(a, m.serviceId, b + (c + (d + (e + []))));
    TakenText(b, m.name, c + (d + (e + [])));
    TakenBind(c, m.requestedBind, d + (e + []));
    TakenText(d, m.target.host, e + []);
    Taken16(e, m.target.port, []);
  }

  /** Identifiers and addresses among the fields. */
  predicate Fixed(m: Message) {
    m.AuthOk? || m.RegisterAck? || m.Open? || m.OpenReject? || m.DataHello?
  }

  predicate Textual(m: Message) {
    m.Auth? || m.Error? || m.RegisterReject?
  }

  lemma {:induction false} ReadAck(p: Bytes)
    requires TakeRegisterAck(p).Took? && TakeRegisterAck(p).rest == []
    ensures Spells(p, TakeRegisterAck(p).value)
  {
    hide TakeU64, TakeU16, Spell64, Spell16;
    var a := Read64(p);
    var p1 := TakeU64(p).rest;
    var b := Read16(p1[16..]);
    assert p == a + p1[..16] + b;
  }

  lemma {:induction false} ReadDataHello(p: Bytes)
    requires TakeDataHello(p).Took? && TakeDataHello(p).rest == []
    ensures Spells(p, TakeDataHello(p).value)
  {
    hide TakeU64, Spell64;
    var a := Read64(p[16..]);
    assert p == p[..16] + a + TakeDataHello(p).value.connectionId;
  }

  lemma {:induction false} ReadFixed(rules: TextRules, kind: u16, p: Bytes)
    requires TakePayload(rules, kind, p).Took? && TakePayload(rules, kind, p).rest == []
    requires Fixed(TakePayload(rules, kind, p).value)
    ensures Spells(p, TakePayload(rules, kind, p).value)
  {
    hide Constructible, TakeRegisterAck, TakeDataHello, TakeU64, TakeU16, Spell64, Spell16;
    DecodedIsConstructible(rules, kind, p);
    var m := TakePayload(rules, kind, p).value;
    if kind == 4 {
      assert p == m.sessionId;
    } else if kind == 6 {
      ReadAck(p);
    } else if kind == 8 {
      var a := Read64(p);
      assert p == a + m.connectionId;
    } else if kind == 9 {
      var a := Read16(p[16..]);
      assert p == m.connectionId + a;
    } else {
      ReadDataHello(p);
    }
  }

  lemma {:induction false} TakenFixed(rules: TextRules, p: Bytes, m: Message)
    requires Fixed(m) && Spells(p, m)
    ensures TakePayload(rules, Kind(m), p) == Took(m, [])
  {
    hide TakeU64, TakeU16, Spell64, Spell16, TakeOctets16;
    match m
    case AuthOk(session) =>
      assert p == session + [];
      OctetsRoundTrip(session, []);
    case RegisterAck(id, bind) =>
      var a, b :| Spell64(a, id) && Spell16(b, bind.port) && p == a + bind.address + b;
      assert p == a + (bind.address + (b + []));
      Taken64(a, id, bind.address + (b + []));
      OctetsRoundTrip(bind.address, b + []);
      Taken16(b, bind.port, []);
    case Open(id, connection) =>
      var a :| Spell64(a, id) && p == a + connection;
      assert p == a + (connection + []);
      Taken64(a, id, connection + []);
      OctetsRoundTrip(connection, []);
    case OpenReject(connection, code) =>
      var a :| Spell16(a, code) && p == connection + a;
      assert p == connection + (a + []);
      OctetsRoundTrip(connection, a + []);
      Taken16(a, code, []);
    case DataHello(session, id, connection) =>
      var a :| Spell64(a, id) && p == session + a + connection;
      assert p == session + (a + (connection + []));
      OctetsRoundTrip(session, a + (connection + []));
      Taken64(a, id, connection + []);
      OctetsRoundTrip(connection, []);
  }

  lemma {:induction false} ReadAuth(rules: TextRules, p: Bytes)
    requires TakePayload(rules, 3, p).Took? && TakePayload(rules, 3, p).rest == []
    ensures Spells(p, TakePayload(rules, 3, p).value)
  {
    hide TakeLengthPrefixed, SpellText;
    var a := ReadText(p);
    assert a == p;
  }

  lemma {:induction false} ReadError(rules: TextRules, p: Bytes)
    requires TakePayload(rules, 13, p).Took? && TakePayload(rules, 13, p).rest == []
    ensures Spells(p, TakePayload(rules, 13, p).value)
  {
    hide TakeU16, Spell16, TakeLengthPrefixed, SpellText, ValidDiagnostic;
    var a := Read16(p);
    var b := ReadText(TakeU16(p).rest);
    assert p == a + b;
  }

  lemma {:induction false} ReadRejection(rules: TextRules, p: Bytes)
    requires TakeRegisterReject(rules, p).Took? && TakeRegisterReject(rules, p).rest == []
    ensures Spells(p, TakeRegisterReject(rules, p).value)
  {
    hide TakeU64, TakeU16, Spell64, Spell16, TakeLengthPrefixed, SpellText, ValidDiagnostic;
    var a := Read64(p);
    var p1 := TakeU64(p).rest;
    var b := Read16(p1);
    var c := ReadText(TakeU16(p1).rest);
    assert p == a + b + c;
  }

  lemma {:induction false} ReadTextual(rules: TextRules, kind: u16, p: Bytes)
    requires TakePayload(rules, kind, p).Took? && TakePayload(rules, kind, p).rest == []
    requires Textual(TakePayload(rules, kind, p).value)
    ensures Spells(p, TakePayload(rules, kind, p).value)
  {
    hide Spells, Constructible, TakeRegisterReject;
    DecodedIsConstructible(rules, kind, p);
    if kind == 3 {
      ReadAuth(rules, p);
    } else if kind == 13 {
      ReadError(rules, p);
    } else {
      ReadRejection(rules, p);
    }
  }

  lemma {:induction false} TakenTextual(rules: TextRules, p: Bytes, m: Message)
    requires Textual(m) && Constructible(rules, m) && Spells(p, m)
    ensures TakePayload(rules, Kind(m), p) == Took(m, [])
  {
    hide TakeU64, TakeU16, Spell64, Spell16, TakeLengthPrefixed, SpellText, ValidDiagnostic;
    match m
    case Auth(token) =>
      assert p == p + [];
      TakenText(p, token, []);
    case Error(code, text) =>
      var a, b :| Spell16(a, code) && SpellText(b, text) && p == a + b;
      assert p == a + (b + []);
      Taken16(a, code, b + []);
      TakenText(b, text, []);
    case RegisterReject(id, code, text) =>
      var a, b, c :| Spell64(a, id) && Spell16(b, code) && SpellText(c, text) && p == a + b + c;
      assert p == a + (b + (c + []));
      Taken64(a, id, b + (c + []));
      Taken16(b, code, c + []);
      TakenText(c, text, []);
  }

  predicate Simple(m: Message) {
    m.ClientHello? || m.ServerHello? || m.UnregisterService? || m.Ping? || m.Pong? || m.Drain?
  }

  lemma {:induction false} ReadSimple(rules: TextRules, kind: u16, p: Bytes)
    requires TakePayload(rules, kind, p).Took? && TakePayload(rules, kind, p).rest == []
    requires Simple(TakePayload(rules, kind, p).value)
    ensures Spells(p, TakePayload(rules, kind, p).value)
  {
    DecodedIsConstructible(rules, kind, p);
    hide TakeU64, TakeU16, TakeU32, Spell64, Spell16, Spell32, TakeHello, TakeRegisterService, TakeLengthPrefixed,
         TakeOctets16, SpellHello, TakeDiagnostic;
    match TakePayload(rules, kind, p).value
    case ClientHello(_, _) => var w := ReadHello(p); assert w == p;
    case ServerHello(_, _) => var w := ReadHello(p); assert w == p;
    case UnregisterService(_) => var w := Read64(p); assert w == p;
    case Ping(_) => var w := Read64(p); assert w == p;
    case Pong(_) => var w := Read64(p); assert w == p;
    case Drain(_) => var w := Read32(p); assert w == p;
  }

  lemma {:induction false} TakenSimple(rules: TextRules, p: Bytes, m: Message)
    requires Simple(m) && Spells(p, m)
    ensures TakePayload(rules, Kind(m), p) == Took(m, [])
  {
    hide TakeU64, TakeU16, TakeU32, Spell64, Spell16, Spell32, TakeHello, SpellHello;
    assert p == p + [];
    match m
    case ClientHello(version, caps) => TakenHello(p, version, caps, []);
    case ServerHello(version, caps) => TakenHello(p, version, caps, []);
    case UnregisterService(id) => Taken64(p, id, []);
    case Ping(nonce) => Taken64(p, nonce, []);
    case Pong(nonce) => Taken64(p, nonce, []);
    case Drain(deadline) => Taken32(p, deadline, []);
  }
}
