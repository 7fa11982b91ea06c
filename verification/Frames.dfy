/** Frames: a fourteen-byte header and one payload. */
module Frames {
  import opened Wire
  import opened Postcard
  import Capability

  const MAGIC: Bytes := [0x45, 0x54, 0x55, 0x4e]
  const HEADER_LEN := 14
  const MAX_FRAME_BYTES := 0x10_0000
  const MAX_NAME_BYTES := 128
  const MAX_DIAGNOSTIC_BYTES := 256
  const MAX_TARGET_HOST_BYTES := 253
  const MAX_AUTH_TOKEN_BYTES := 4096
  const PROTOCOL_MAJOR: u16 := 1
  const PROTOCOL_MINOR: u16 := 1

  /** Which bytes are text, and which texts are acceptable hosts and diagnostics. */
  datatype TextRules = TextRules(utf8: Bytes -> bool, host: Bytes -> bool, diagnostic: Bytes -> bool)

  datatype ProtocolError =
    | InvalidMagic
    | UnsupportedVersion(major: u16, minor: u16)
    | UnknownMessage(kind: u16)
    | TruncatedFrame
    | FrameTooLarge
    | InvalidPayload

  datatype Result<+T> = Ok(value: T) | Err(error: ProtocolError)

  // ----- what can be constructed

  predicate NameByte(b: byte) {
    'a' as int <= b <= 'z' as int || 'A' as int <= b <= 'Z' as int || '0' as int <= b <= '9' as int
    || b == '-' as int || b == '_' as int || b == '.' as int
  }

  predicate ValidName(name: Text) {
    0 < |name| <= MAX_NAME_BYTES && forall i :: 0 <= i < |name| ==> NameByte(name[i])
  }

  predicate ValidTarget(rules: TextRules, target: TcpTarget) {
    0 < |target.host| <= MAX_TARGET_HOST_BYTES && rules.host(target.host) && target.port != 0
  }

  predicate ValidDiagnostic(rules: TextRules, text: Text) {
    |text| <= MAX_DIAGNOSTIC_BYTES && rules.diagnostic(text)
  }

  /** The messages the checked constructors can produce; every string they hold is UTF-8. */
  predicate Constructible(rules: TextRules, m: Message) {
    match m
    case ClientHello(_, caps) => Capability.StrictlyIncreasing(caps) && |caps| <= Capability.MAX_CAPABILITIES
    case ServerHello(_, caps) => Capability.StrictlyIncreasing(caps) && |caps| <= Capability.MAX_CAPABILITIES
    case Auth(token) => |token| <= MAX_AUTH_TOKEN_BYTES
    case RegisterService(_, name, _, target) =>
      rules.utf8(name) && ValidName(name) && rules.utf8(target.host) && ValidTarget(rules, target)
    case Error(_, text) => rules.utf8(text) && ValidDiagnostic(rules, text)
    case RegisterReject(_, _, text) => rules.utf8(text) && ValidDiagnostic(rules, text)
    case _ => true
  }

  // ----- payloads

  function Kind(m: Message): u16 {
    match m
    case ClientHello(_, _) => 1
    case ServerHello(_, _) => 2
    case Auth(_) => 3
    case AuthOk(_) => 4
    case RegisterService(_, _, _, _) => 5
    case RegisterAck(_, _) => 6
    case UnregisterService(_) => 7
    case Open(_, _) => 8
    case OpenReject(_, _) => 9
    case Ping(_) => 10
    case Pong(_) => 11
    case Drain(_) => 12
    case Error(_, _) => 13
    case DataHello(_, _, _) => 14
    case RegisterReject(_, _, _) => 15
  }

  function EncodeHello(version: Version, caps: seq<u16>): Bytes {
    Varint(version.major) + (Varint(version.minor) + (Varint(|caps|) + Varints(caps)))
  }

  function EncodeBind(bind: RequestedBind): Bytes {
    match bind
    case Loopback(port) => Varint(0) + Varint(port)
    case Ip(address, port) => Varint(1) + (address + Varint(port))
  }

  function EncodePayload(m: Message): Bytes {
    match m
    case ClientHello(version, caps) => EncodeHello(version, caps)
    case ServerHello(version, caps) => EncodeHello(version, caps)
    case Auth(token) => LengthPrefixed(token)
    case AuthOk(session) => session
    case RegisterService(id, name, bind, target) =>
      Varint(id) + (LengthPrefixed(name) + (EncodeBind(bind) + (LengthPrefixed(target.host) + Varint(target.port))))
    case RegisterAck(id, bind) => Varint(id) + (bind.address + Varint(bind.port))
    case UnregisterService(id) => Varint(id)
    case Open(id, connection) => Varint(id) + connection
    case OpenReject(connection, code) => connection + Varint(code)
    case Ping(nonce) => Varint(nonce)
    case Pong(nonce) => Varint(nonce)
    case Drain(deadline) => Varint(deadline)
    case Error(code, text) => Varint(code) + LengthPrefixed(text)
    case DataHello(session, id, connection) => session + (Varint(id) + connection)
    case RegisterReject(id, code, text) => Varint(id) + (Varint(code) + LengthPrefixed(text))
  }

  /** A received list is normalised like a constructed one. */
  function TakeHello(b: Bytes): Parsed<(Version, seq<u16>)> {
    var (major, b1) :- TakeU16(b);
    var (minor, b2) :- TakeU16(b1);
    var (n, b3) :- TakeU64(b2);
    var (ids, b4) :- TakeU16s(b3, n);
    if |ids| > Capability.MAX_CAPABILITIES then Bad else Took((Version(major, minor), Capability.Normalize(ids)), b4)
  }

  function TakeBind(b: Bytes): Parsed<RequestedBind> {
    var (variant, b1) :- TakeU32(b);
    if variant == 0 then
      var (port, b2) :- TakeU16(b1);
      Took(Loopback(port), b2)
    else if variant == 1 then
      var (address, b2) :- TakeOctets16(b1);
      var (port, b3) :- TakeU16(b2);
      Took(Ip(address, port), b3)
    else Bad
  }

  function TakeName(rules: TextRules, b: Bytes): Parsed<Text> {
    var (name, b1) :- TakeLengthPrefixed(b);
    if rules.utf8(name) && ValidName(name) then Took(name, b1) else Bad
  }

  function TakeTarget(rules: TextRules, b: Bytes): Parsed<TcpTarget> {
    var (host, b1) :- TakeLengthPrefixed(b);
    if !rules.utf8(host) then Bad
    else
      var (port, b2) :- TakeU16(b1);
      if ValidTarget(rules, TcpTarget(host, port)) then Took(TcpTarget(host, port), b2) else Bad
  }

  function TakeDiagnostic(rules: TextRules, b: Bytes): Parsed<Text> {
    var (text, b1) :- TakeLengthPrefixed(b);
    if rules.utf8(text) && ValidDiagnostic(rules, text) then Took(text, b1) else Bad
  }

  function TakeRegisterService(rules: TextRules, b: Bytes): Parsed<Message> {
    var (id, b1) :- TakeU64(b);
    var (name, b2) :- TakeName(rules, b1);
    var (bind, b3) :- TakeBind(b2);
    var (target, b4) :- TakeTarget(rules, b3);
    Took(RegisterService(id, name, bind, target), b4)
  }

  function TakeRegisterAck(b: Bytes): Parsed<Message> {
    var (id, b1) :- TakeU64(b);
    var (address, b2) :- TakeOctets16(b1);
    var (port, b3) :- TakeU16(b2);
    Took(RegisterAck(id, EffectiveBind(address, port)), b3)
  }

  function TakeDataHello(b: Bytes): Parsed<Message> {
    var (session, b1) :- TakeOctets16(b);
    var (id, b2) :- TakeU64(b1);
    var (connection, b3) :- TakeOctets16(b2);
    Took(DataHello(session, id, connection), b3)
  }

  function TakeRegisterReject(rules: TextRules, b: Bytes): Parsed<Message> {
    var (id, b1) :- TakeU64(b);
    var (code, b2) :- TakeU16(b1);
    var (text, b3) :- TakeDiagnostic(rules, b2);
    Took(RegisterReject(id, code, text), b3)
  }

  function TakePayload(rules: TextRules, kind: u16, b: Bytes): Parsed<Message> {
    match kind
    case 1 => var (hello, r) :- TakeHello(b); Took(ClientHello(hello.0, hello.1), r)
    case 2 => var (hello, r) :- TakeHello(b); Took(ServerHello(hello.0, hello.1), r)
    case 3 =>
      var (token, r) :- TakeLengthPrefixed(b);
      if |token| <= MAX_AUTH_TOKEN_BYTES then Took(Auth(token), r) else Bad
    case 4 => var (session, r) :- TakeOctets16(b); Took(AuthOk(session), r)
    case 5 => TakeRegisterService(rules, b)
    case 6 => TakeRegisterAck(b)
    case 7 => var (id, r) :- TakeU64(b); Took(UnregisterService(id), r)
    case 8 => var (id, r) :- TakeU64(b); var (connection, r2) :- TakeOctets16(r); Took(Open(id, connection), r2)
    case 9 =>
      var (connection, r) :- TakeOctets16(b);
      var (code, r2) :- TakeU16(r);
      Took(OpenReject(connection, code), r2)
    case 10 => var (nonce, r) :- TakeU64(b); Took(Ping(nonce), r)
    case 11 => var (nonce, r) :- TakeU64(b); Took(Pong(nonce), r)
    case 12 => var (deadline, r) :- TakeU32(b); Took(Drain(deadline), r)
    case 13 => var (code, r) :- TakeU16(b); var (text, r2) :- TakeDiagnostic(rules, r); Took(Error(code, text), r2)
    case 14 => TakeDataHello(b)
    case 15 => TakeRegisterReject(rules, b)
    case _ => Bad
  }

  // ----- frames

  function Be16(n: u16): Bytes {
    [n / 0x100, n % 0x100]
  }

  function Be32(n: u32): Bytes {
    [n / 0x100 / 0x100 / 0x100, n / 0x100 / 0x100 % 0x100, n / 0x100 % 0x100, n % 0x100]
  }

  function ToU16(a: byte, b: byte): u16 {
    a * 0x100 + b
  }

  function ToU32(a: byte, b: byte, c: byte, d: byte): u32 {
    ((a * 0x100 + b) * 0x100 + c) * 0x100 + d
  }

  function Header(kind: u16, len: u32): Bytes {
    MAGIC + Be16(PROTOCOL_MAJOR) + Be16(PROTOCOL_MINOR) + Be16(kind) + Be32(len)
  }

  function EncodeFrame(m: Message): Result<Bytes> {
    var payload := EncodePayload(m);
    if |payload| > MAX_FRAME_BYTES then Err(FrameTooLarge) else Ok(Header(Kind(m), |payload|) + payload)
  }

  /** The frame is built up in one buffer, field by field. */
  method Encode(m: Message) returns (r: Result<Bytes>)
    ensures r == EncodeFrame(m)
  {
    var payload := EncodePayload(m);
    if |payload| > MAX_FRAME_BYTES { return Err(FrameTooLarge); }
    var out: Bytes := MAGIC;
    out := out + Be16(PROTOCOL_MAJOR);
    out := out + Be16(PROTOCOL_MINOR);
    out := out + Be16(Kind(m));
    out := out + Be32(|payload|);
    out := out + payload;
    r := Ok(out);
  }

  /** What the fixed part of a frame says, before any payload is looked at. */
  function DecodeHeader(input: Bytes): Result<(u16, nat)> {
    if |input| < HEADER_LEN then Err(TruncatedFrame)
    else if input[..4] != MAGIC then Err(InvalidMagic)
    else
      var major := ToU16(input[4], input[5]);
      var minor := ToU16(input[6], input[7]);
      var kind := ToU16(input[8], input[9]);
      var len := ToU32(input[10], input[11], input[12], input[13]);
      if major != PROTOCOL_MAJOR then Err(UnsupportedVersion(major, minor))
      else if !(1 <= kind <= 15) then Err(UnknownMessage(kind))
      else if len > MAX_FRAME_BYTES then Err(FrameTooLarge)
      else Ok((kind, len))
  }

  /** Exactly one frame; bytes after it are left for the caller. */
  function DecodeFrame(rules: TextRules, input: Bytes): Result<(Message, nat)> {
    match DecodeHeader(input)
    case Err(e) => Err(e)
    case Ok((kind, len)) =>
      if |input| < HEADER_LEN + len then Err(TruncatedFrame)
      else
        match TakePayload(rules, kind, input[HEADER_LEN..HEADER_LEN + len])
        case Bad => Err(InvalidPayload)
        case Took(m, rest) => if rest == [] then Ok((m, HEADER_LEN + len)) else Err(InvalidPayload)
  }
}
