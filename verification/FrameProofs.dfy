/** Every constructible message survives the wire, whatever bytes follow it. */
module FrameProofs {
  import opened Wire
  import opened Postcard
  import opened Frames
  import Capability

  // ----- payloads

  lemma {:induction false} HelloRoundTrip(version: Version, caps: seq<u16>, rest: Bytes)
    requires Capability.StrictlyIncreasing(caps) && |caps| <= Capability.MAX_CAPABILITIES
    ensures TakeHello(EncodeHello(version, caps) + rest) == Took((version, caps), rest)
    ensures 1 <= |EncodeHello(version, caps)| <= 112
  {
    hide Varint, TakeU16, TakeU64, Varints, TakeU16s, Capability.StrictlyIncreasing, Capability.Normalize;
    var list := Varints(caps) + rest;
    var counted := Varint(|caps|) + list;
    var minor := Varint(version.minor) + counted;
    assert EncodeHello(version, caps) + rest == Varint(version.major) + minor;
    U16RoundTrip(version.major, minor);
    U16RoundTrip(version.minor, counted);
    U64RoundTrip(|caps|, list);
    U16sRoundTrip(caps, rest);
    Capability.NormalizeFixed(caps);
  }

  lemma {:induction false} BindRoundTrip(bind: RequestedBind, rest: Bytes)
    ensures TakeBind(EncodeBind(bind) + rest) == Took(bind, rest)
    ensures |EncodeBind(bind)| <= 24
  {
    hide Varint, TakeU16, TakeU32, TakeOctets16;
    match bind
    case Loopback(port) =>
      assert EncodeBind(bind) + rest == Varint(0) + (Varint(port) + rest);
      U32RoundTrip(0, Varint(port) + rest);
      U16RoundTrip(port, rest);
    case Ip(address, port) =>
      assert EncodeBind(bind) + rest == Varint(1) + (address + (Varint(port) + rest));
      U32RoundTrip(1, address + (Varint(port) + rest));
      OctetsRoundTrip(address, Varint(port) + rest);
      U16RoundTrip(port, rest);
  }

  lemma {:induction false} PrefixedLength(x: Bytes)
    requires |x| <= MAX_AUTH_TOKEN_BYTES
    ensures 1 <= |LengthPrefixed(x)| <= |x| + 2
  {
    VarintLength(|x|);
  }

  lemma {:induction false} RegisterServiceRoundTrip(rules: TextRules, m: Message, rest: Bytes)
    requires m.RegisterService? && Constructible(rules, m)
    ensures TakeRegisterService(rules, EncodePayload(m) + rest) == Took(m, rest)
    ensures 1 <= |EncodePayload(m)| <= 500
  {
    hide Varint, TakeU16, TakeU64, TakeBind, EncodeBind, LengthPrefixed, TakeLengthPrefixed;
    var host := m.target.host;
    var port := Varint(m.target.port) + rest;
    var target := LengthPrefixed(host) + port;
    var bind := EncodeBind(m.requestedBind) + target;
    var name := LengthPrefixed(m.name) + bind;
    assert EncodePayload(m) + rest == Varint(m.serviceId) + name;
    U64RoundTrip(m.serviceId, name);
    LengthPrefixedRoundTrip(m.name, bind);
    BindRoundTrip(m.requestedBind, target);
    LengthPrefixedRoundTrip(host, port);
    U16RoundTrip(m.target.port, rest);
    PrefixedLength(m.name);
    PrefixedLength(host);
  }

  lemma {:induction false} RegisterAckRoundTrip(m: Message, rest: Bytes)
    requires m.RegisterAck?
    ensures TakeRegisterAck(EncodePayload(m) + rest) == Took(m, rest)
    ensures 1 <= |EncodePayload(m)| <= 500
  {
    hide Varint, TakeU16, TakeU64, TakeOctets16;
    var port := Varint(m.effectiveBind.port) + rest;
    assert EncodePayload(m) + rest == Varint(m.serviceId) + (m.effectiveBind.address + port);
    U64RoundTrip(m.serviceId, m.effectiveBind.address + port);
    OctetsRoundTrip(m.effectiveBind.address, port);
    U16RoundTrip(m.effectiveBind.port, rest);
  }

  lemma {:induction false} DataHelloRoundTrip(m: Message, rest: Bytes)
    requires m.DataHello?
    ensures TakeDataHello(EncodePayload(m) + rest) == Took(m, rest)
    ensures 1 <= |EncodePayload(m)| <= 500
  {
    hide Varint, TakeU64, TakeOctets16;
    assert EncodePayload(m) + rest == m.sessionId + (Varint(m.serviceId) + (m.connectionId + rest));
    OctetsRoundTrip(m.sessionId, Varint(m.serviceId) + (m.connectionId + rest));
    U64RoundTrip(m.serviceId, m.connectionId + rest);
    OctetsRoundTrip(m.connectionId, rest);
  }

  lemma {:induction false} RegisterRejectRoundTrip(rules: TextRules, m: Message, rest: Bytes)
    requires m.RegisterReject? && Constructible(rules, m)
    ensures TakeRegisterReject(rules, EncodePayload(m) + rest) == Took(m, rest)
    ensures 1 <= |EncodePayload(m)| <= 500
  {
    hide Varint, TakeU16, TakeU64, LengthPrefixed, TakeLengthPrefixed;
    var text := LengthPrefixed(m.diagnostic) + rest;
    assert EncodePayload(m) + rest == Varint(m.serviceId) + (Varint(m.code) + text);
    U64RoundTrip(m.serviceId, Varint(m.code) + text);
    U16RoundTrip(m.code, text);
    LengthPrefixedRoundTrip(m.diagnostic, rest);
    PrefixedLength(m.diagnostic);
  }

  lemma {:induction false} ShortRoundTrip(rules: TextRules, m: Message, rest: Bytes)
    requires m.AuthOk? || m.UnregisterService? || m.Open? || m.OpenReject? || m.Ping? || m.Pong? || m.Drain?
    ensures TakePayload(rules, Kind(m), EncodePayload(m) + rest) == Took(m, rest)
    ensures 1 <= |EncodePayload(m)| <= 500
  {
    hide Varint, TakeU16, TakeU32, TakeU64, TakeOctets16, TakeHello, TakeLengthPrefixed, TakeRegisterService,
      TakeRegisterAck, TakeDataHello, TakeRegisterReject, TakeDiagnostic;
    match m
    case AuthOk(session) => OctetsRoundTrip(session, rest);
    case UnregisterService(id) => U64RoundTrip(id, rest);
    case Open(id, connection) =>
      assert EncodePayload(m) + rest == Varint(id) + (connection + rest);
      U64RoundTrip(id, connection + rest);
      OctetsRoundTrip(connection, rest);
    case OpenReject(connection, code) =>
      assert EncodePayload(m) + rest == connection + (Varint(code) + rest);
      OctetsRoundTrip(connection, Varint(code) + rest);
      U16RoundTrip(code, rest);
    case Ping(nonce) => U64RoundTrip(nonce, rest);
    case Pong(nonce) => U64RoundTrip(nonce, rest);
    case Drain(deadline) => U32RoundTrip(deadline, rest);
  }

  lemma {:induction false} HandshakeRoundTrip(rules: TextRules, m: Message, rest: Bytes)
    requires (m.ClientHello? || m.ServerHello? || m.Auth?) && Constructible(rules, m)
    ensures TakePayload(rules, Kind(m), EncodePayload(m) + rest) == Took(m, rest)
    ensures 1 <= |EncodePayload(m)| <= MAX_AUTH_TOKEN_BYTES + 2
  {
    hide TakeHello, EncodeHello, LengthPrefixed, TakeLengthPrefixed;
    match m
    case ClientHello(version, caps) => HelloRoundTrip(version, caps, rest);
    case ServerHello(version, caps) => HelloRoundTrip(version, caps, rest);
    case Auth(token) => LengthPrefixedRoundTrip(token, rest); PrefixedLength(token);
  }

  lemma {:induction false} ErrorRoundTrip(rules: TextRules, m: Message, rest: Bytes)
    requires m.Error? && Constructible(rules, m)
    ensures TakePayload(rules, Kind(m), EncodePayload(m) + rest) == Took(m, rest)
    ensures 1 <= |EncodePayload(m)| <= 500
  {
    hide Varint, TakeU16, LengthPrefixed, TakeLengthPrefixed;
    var text := LengthPrefixed(m.diagnostic) + rest;
    assert EncodePayload(m) + rest == Varint(m.code) + text;
    U16RoundTrip(m.code, text);
    LengthPrefixedRoundTrip(m.diagnostic, rest);
    PrefixedLength(m.diagnostic);
  }

  lemma {:induction false} LongRoundTrip(rules: TextRules, m: Message, rest: Bytes)
    requires (m.RegisterService? || m.RegisterAck? || m.DataHello? || m.RegisterReject?) && Constructible(rules, m)
    ensures TakePayload(rules, Kind(m), EncodePayload(m) + rest) == Took(m, rest)
    ensures 1 <= |EncodePayload(m)| <= 500
  {
    hide EncodePayload, Constructible, TakeRegisterService, TakeRegisterAck, TakeDataHello, TakeRegisterReject;
    match m
    case RegisterService(_, _, _, _) => RegisterServiceRoundTrip(rules, m, rest);
    case RegisterAck(_, _) => RegisterAckRoundTrip(m, rest);
    case DataHello(_, _, _) => DataHelloRoundTrip(m, rest);
    case RegisterReject(_, _, _) => RegisterRejectRoundTrip(rules, m, rest);
  }

  lemma {:induction false} PayloadRoundTrip(rules: TextRules, m: Message, rest: Bytes)
    requires Constructible(rules, m)
    ensures TakePayload(rules, Kind(m), EncodePayload(m) + rest) == Took(m, rest)
    ensures 1 <= |EncodePayload(m)| <= MAX_AUTH_TOKEN_BYTES + 2
  {
    hide TakePayload, EncodePayload, Constructible, Kind;
    if m.ClientHello? || m.ServerHello? || m.Auth? {
      HandshakeRoundTrip(rules, m, rest);
    } else if m.RegisterService? || m.RegisterAck? || m.DataHello? || m.RegisterReject? {
      LongRoundTrip(rules, m, rest);
    } else if m.Error? {
      ErrorRoundTrip(rules, m, rest);
    } else {
      ShortRoundTrip(rules, m, rest);
    }
  }

  /** Whatever the decoder accepts, the checked constructors could have built. */
  lemma {:induction false} DecodedIsConstructible(rules: TextRules, kind: u16, b: Bytes)
    requires TakePayload(rules, kind, b).Took?
    ensures Constructible(rules, TakePayload(rules, kind, b).value) && Kind(TakePayload(rules, kind, b).value) == kind
  {
    hide TakeU16, TakeU32, TakeU64, TakeOctets16, TakeBind, TakeLengthPrefixed, TakeU16s, Capability.Normalize,
      Capability.StrictlyIncreasing;
    if kind == 1 || kind == 2 {
      DecodedHello(b);
    }
  }

  lemma {:induction false} DecodedHello(b: Bytes)
    requires TakeHello(b).Took?
    ensures Capability.StrictlyIncreasing(TakeHello(b).value.1)
    ensures |TakeHello(b).value.1| <= Capability.MAX_CAPABILITIES
  {
    hide TakeU16, TakeU64, TakeU16s, Capability.Normalize, Capability.StrictlyIncreasing;
    var (major, b1) := TakeU16(b).Extract();
    var (minor, b2) := TakeU16(b1).Extract();
    var (n, b3) := TakeU64(b2).Extract();
    Capability.NormalizeMeaning(TakeU16s(b3, n).value, 0);
  }

  lemma {:induction false} NoMessageIsEmpty(rules: TextRules, kind: u16)
    ensures TakePayload(rules, kind, []).Bad?
  {
    assert TakeU16([]).Bad? && TakeU32([]).Bad? && TakeU64([]).Bad?;
    hide TakeU16, TakeU32, TakeU64;
  }

  // ----- frames

  lemma {:induction false} HeaderRoundTrip(kind: u16, len: u32, rest: Bytes)
    requires 1 <= kind <= 15 && len <= MAX_FRAME_BYTES
    ensures |Header(kind, len)| == HEADER_LEN
    ensures DecodeHeader(Header(kind, len) + rest) == Ok((kind, len))
  {
    var input := Header(kind, len) + rest;
    assert input[..4] == MAGIC;
    assert input[4] == 0 && input[5] == 1 && input[6] == 0 && input[7] == 1;
    assert input[8] == kind / 0x100 && input[9] == kind % 0x100;
    assert input[10..14] == Be32(len);
    assert [input[10], input[11], input[12], input[13]] == input[10..14];
    Be32RoundTrip(len);
  }

  lemma {:induction false} Be32RoundTrip(n: u32)
    ensures var b := Be32(n); ToU32(b[0], b[1], b[2], b[3]) == n
  {
    var m := n / 0x100;
    assert n == m * 0x100 + n % 0x100;
    assert m == m / 0x100 * 0x100 + m % 0x100;
  }

  /** Encoding a constructible message never fails, and decoding takes off exactly that frame. */
  lemma {:induction false} FrameRoundTrip(rules: TextRules, m: Message, rest: Bytes)
    requires Constructible(rules, m)
    ensures EncodeFrame(m).Ok?
    ensures DecodeFrame(rules, EncodeFrame(m).value + rest) == Ok((m, |EncodeFrame(m).value|))
  {
    hide EncodePayload, TakePayload, Constructible, Header, DecodeHeader, Kind;
    assert 1 <= Kind(m) <= 15 by { KindRange(m); }
    var payload := EncodePayload(m);
    PayloadRoundTrip(rules, m, []);
    assert payload + [] == payload;
    HeaderRoundTrip(Kind(m), |payload|, payload + rest);
    var frame := Header(Kind(m), |payload|) + payload;
    assert frame + rest == Header(Kind(m), |payload|) + (payload + rest);
    assert (frame + rest)[HEADER_LEN..HEADER_LEN + |payload|] == payload;
  }

  lemma {:induction false} KindRange(m: Message)
    ensures 1 <= Kind(m) <= 15
  {
  }

  /** Cut anywhere, a frame asks for more bytes and is never mistaken for another one. */
  lemma {:induction false} CutFrameIsTruncated(rules: TextRules, m: Message, n: nat)
    requires Constructible(rules, m) && EncodeFrame(m).Ok? && n < |EncodeFrame(m).value|
    ensures DecodeFrame(rules, EncodeFrame(m).value[..n]) == Err(TruncatedFrame)
  {
    hide EncodePayload, TakePayload, Constructible, Header, DecodeHeader, Kind;
    var payload := EncodePayload(m);
    var header := Header(Kind(m), |payload|);
    KindRange(m);
    HeaderRoundTrip(Kind(m), |payload|, []);
    if n < HEADER_LEN {
      ShortHeader((header + payload)[..n]);
    } else {
      assert (header + payload)[..n] == header + payload[..n - HEADER_LEN];
      HeaderRoundTrip(Kind(m), |payload|, payload[..n - HEADER_LEN]);
    }
  }

  lemma {:induction false} ShortHeader(input: Bytes)
    requires |input| < HEADER_LEN
    ensures DecodeHeader(input) == Err(TruncatedFrame)
  {
  }

  /** A header is judged the same with or without what follows it. */
  lemma {:induction false} HeaderIsLocal(input: Bytes, rest: Bytes)
    requires |input| >= HEADER_LEN
    ensures DecodeHeader(input + rest) == DecodeHeader(input)
  {
    assert (input + rest)[..4] == input[..4];
  }

  // ----- streams

  function EncodeAll(ms: seq<Message>): Bytes {
    if ms == [] then []
    else (match EncodeFrame(ms[0]) case Ok(frame) => frame case Err(_) => []) + EncodeAll(ms[1..])
  }

  /** Decode frame after frame until one does not decode. */
  function DecodeAll(rules: TextRules, input: Bytes): (seq<Message>, ProtocolError)
    decreases |input|
  {
    match DecodeFrame(rules, input)
    case Err(e) => ([], e)
    case Ok((m, n)) =>
      var (ms, e) := DecodeAll(rules, input[n..]);
      ([m] + ms, e)
  }

  /** Any list of messages, then any cut-off frame: the list comes back, and then a request for more. */
  lemma {:induction false} StreamRoundTrip(rules: TextRules, ms: seq<Message>, next: Message, n: nat)
    requires forall i :: 0 <= i < |ms| ==> Constructible(rules, ms[i])
    requires Constructible(rules, next) && EncodeFrame(next).Ok? && n < |EncodeFrame(next).value|
    ensures DecodeAll(rules, EncodeAll(ms) + EncodeFrame(next).value[..n]) == (ms, TruncatedFrame)
    decreases |ms|
  {
    hide EncodeFrame, DecodeFrame, Constructible;
    var tail := EncodeFrame(next).value[..n];
    if ms == [] {
      assert EncodeAll(ms) + tail == tail;
      CutFrameIsTruncated(rules, next, n);
    } else {
      FrameRoundTrip(rules, ms[0], EncodeAll(ms[1..]) + tail);
      StreamRoundTrip(rules, ms[1..], next, n);
      var frame := EncodeFrame(ms[0]).value;
      assert EncodeAll(ms) + tail == frame + (EncodeAll(ms[1..]) + tail);
      assert (frame + (EncodeAll(ms[1..]) + tail))[|frame|..] == EncodeAll(ms[1..]) + tail;
      assert [ms[0]] + ms[1..] == ms;
    }
  }
}
