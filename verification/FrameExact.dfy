/** Frames byte by byte: exactly what is sent, exactly what is accepted, and exactly why the rest is refused. */
module FrameExact {
  import opened Wire
  import opened Postcard
  import opened Frames
  import opened FrameProofs
  import opened Grammar
  import Capability

  // ----- payloads

  /** A payload is decoded as a message exactly when it spells that message, of that kind and within its limits. */
  lemma {:induction false} PayloadExact(rules: TextRules, kind: u16, p: Bytes, m: Message)
    ensures TakePayload(rules, kind, p) == Took(m, []) <==> kind == Kind(m) && Constructible(rules, m) && Spells(p, m)
  {
    hide Constructible, Spells;
    if TakePayload(rules, kind, p) == Took(m, []) {
      DecodedIsConstructible(rules, kind, p);
      PayloadRead(rules, kind, p);
    }
    if kind == Kind(m) && Constructible(rules, m) && Spells(p, m) {
      hide TakePayload;
      if Fixed(m) {
        TakenFixed(rules, p, m);
      } else if Textual(m) {
        TakenTextual(rules, p, m);
      } else if Simple(m) {
        TakenSimple(rules, p, m);
      } else {
        TakenRegister(rules, p, m);
      }
    }
  }

  lemma {:induction false} TakenRegister(rules: TextRules, p: Bytes, m: Message)
    requires m.RegisterService? && Constructible(rules, m) && Spells(p, m)
    ensures TakePayload(rules, Kind(m), p) == Took(m, [])
  {
    hide Constructible, Spells;
    TakenRegisterService(rules, p, m);
    hide TakeRegisterService;
  }

  lemma {:induction false} PayloadRead(rules: TextRules, kind: u16, p: Bytes)
    requires TakePayload(rules, kind, p).Took? && TakePayload(rules, kind, p).rest == []
    ensures Spells(p, TakePayload(rules, kind, p).value)
  {
    hide Constructible, Spells;
    DecodedIsConstructible(rules, kind, p);
    var m := TakePayload(rules, kind, p).value;
    if Fixed(m) {
      ReadFixed(rules, kind, p);
    } else if Textual(m) {
      ReadTextual(rules, kind, p);
    } else if Simple(m) {
      ReadSimple(rules, kind, p);
    } else {
      hide TakeRegisterService;
      assert kind == 5;
      ReadRegisterService(rules, p);
    }
  }

  /** What the limits come to, for each message that has any. */
  lemma {:induction false} LimitsExact(rules: TextRules, m: Message)
    ensures Constructible(rules, m) <==>
      && (m.Auth? ==> |m.token| <= 4096)
      && (m.ClientHello? || m.ServerHello? ==>
        |m.capabilities| <= 32
        && forall i, j :: 0 <= i < j < |m.capabilities| ==> m.capabilities[i] < m.capabilities[j])
      && (m.RegisterService? ==>
        && 1 <= |m.name| <= 128 && rules.utf8(m.name)
        && (forall i :: 0 <= i < |m.name| ==>
          0x61 <= m.name[i] <= 0x7a || 0x41 <= m.name[i] <= 0x5a || 0x30 <= m.name[i] <= 0x39
          || m.name[i] in [0x2d, 0x5f, 0x2e])
        && 1 <= |m.target.host| <= 253 && rules.utf8(m.target.host) && rules.host(m.target.host)
        && m.target.port != 0)
      && (m.Error? || m.RegisterReject? ==>
        |m.diagnostic| <= 256 && rules.utf8(m.diagnostic) && rules.diagnostic(m.diagnostic))
  {
    if m.ClientHello? || m.ServerHello? { IncreasingPairs(m.capabilities); }
  }

  lemma {:induction false} IncreasingPairs(xs: seq<u16>)
    ensures Capability.StrictlyIncreasing(xs) <==> forall i, j :: 0 <= i < j < |xs| ==> xs[i] < xs[j]
  {
  }

  // ----- the encoder

  lemma {:induction false} OneMoreByte(b: byte, w: Bytes, width: nat, top: byte, n: nat)
    requires 128 <= b && Number(w, width, top, n)
    ensures Number([b] + w, width + 1, top, b - 128 + 128 * n)
  {
    assert ([b] + w)[1..] == w;
  }

  lemma {:induction false} OneByte(n: byte, width: nat, top: byte)
    requires n < 128 && width >= 1 && (width == 1 ==> n <= top)
    ensures Number([n], width, top, n)
  {
    assert Base128([n]) == n % 128 + 128 * Base128([n][1..]);
  }

  lemma {:induction false} HighPart(n: nat, c: nat)
    requires n < 128 * c
    ensures n / 128 < c && n == n % 128 + 128 * (n / 128)
  {
  }

  lemma {:induction false} VarintIsNumber(n: nat, width: nat, top: byte)
    requires width >= 1 && top < 128 && n < Capacity(width, top)
    ensures Number(Varint(n), width, top, n)
    decreases width
  {
    hide Number;
    if n < 128 {
      OneByte(n, width, top);
    } else {
      assert width > 1 && n < 128 * Capacity(width - 1, top);
      HighPart(n, Capacity(width - 1, top));
      hide Capacity;
      VarintIsNumber(n / 128, width - 1, top);
      OneMoreByte(128 + n % 128, Varint(n / 128), width - 1, top, n / 128);
      assert Varint(n) == [128 + n % 128] + Varint(n / 128);
    }
  }

  lemma {:induction false} VarintSpells(n: u64)
    ensures Spell64(Varint(n), n)
    ensures n < 0x1_0000_0000 ==> Spell32(Varint(n), n)
    ensures n < 0x1_0000 ==> Spell16(Varint(n), n)
  {
    hide Varint, Number;
    TenBytes();
    VarintIsNumber(n, 10, 1);
    FiveBytes();
    if n < 0x1_0000_0000 { VarintIsNumber(n, 5, 15); }
    assert Capacity(3, 3) == 0x1_0000;
    if n < 0x1_0000 { VarintIsNumber(n, 3, 3); }
  }

  lemma {:induction false} VarintsSpell(xs: seq<u16>)
    ensures SpellAll(Varints(xs), xs)
  {
    hide Varint, Spell16;
    if xs == [] {
    } else {
      VarintSpells(xs[0]);
      VarintsSpell(xs[1..]);
    }
  }

  lemma {:induction false} PrefixedSpells(x: Bytes)
    requires |x| <= U64_MAX
    ensures SpellText(LengthPrefixed(x), x)
  {
    hide Varint, Spell64;
    VarintSpells(|x|);
  }

  lemma {:induction false} HelloSpells(version: Version, caps: seq<u16>)
    requires Capability.StrictlyIncreasing(caps) && |caps| <= 32
    ensures SpellHello(EncodeHello(version, caps), version, caps)
  {
    hide Varint, Spell64, Spell16, Varints, SpellAll;
    VarintSpells(version.major);
    VarintSpells(version.minor);
    VarintSpells(|caps|);
    VarintsSpell(caps);
    Capability.NormalizeFixed(caps);
    var a, b, c, d := Varint(version.major), Varint(version.minor), Varint(|caps|), Varints(caps);
    assert EncodeHello(version, caps) == a + b + c + d;
  }

  lemma {:induction false} BindSpells(bind: RequestedBind)
    ensures SpellBind(EncodeBind(bind), bind)
  {
    hide Varint, Spell32, Spell16;
    VarintSpells(0);
    VarintSpells(1);
    VarintSpells(bind.port);
    match bind
    case Loopback(port) =>
    case Ip(address, port) =>
      assert EncodeBind(bind) == Varint(1) + address + Varint(port);
  }

  lemma {:induction false} RegisterSpells(rules: TextRules, m: Message)
    requires m.RegisterService? && Constructible(rules, m)
    ensures Spells(EncodePayload(m), m)
  {
    hide Varint, Spell64, Spell16, SpellText, SpellBind, LengthPrefixed, EncodeBind;
    VarintSpells(m.serviceId);
    PrefixedSpells(m.name);
    BindSpells(m.requestedBind);
    PrefixedSpells(m.target.host);
    VarintSpells(m.target.port);
    var a, b, c := Varint(m.serviceId), LengthPrefixed(m.name), EncodeBind(m.requestedBind);
    var d, e := LengthPrefixed(m.target.host), Varint(m.target.port);
    assert EncodePayload(m) == a + b + c + d + e;
  }

  /** What the encoder writes spells its message. */
  lemma {:induction false} EncodedSpells(rules: TextRules, m: Message)
    requires Constructible(rules, m)
    ensures Spells(EncodePayload(m), m)
  {
    hide Varint, Spell64, Spell32, Spell16, SpellText, SpellHello, LengthPrefixed, EncodeHello;
    match m
    case ClientHello(version, caps) => HelloSpells(version, caps);
    case ServerHello(version, caps) => HelloSpells(version, caps);
    case Auth(token) => PrefixedSpells(token);
    case AuthOk(session) =>
    case RegisterService(_, _, _, _) => RegisterSpells(rules, m);
    case RegisterAck(id, bind) =>
      VarintSpells(id);
      VarintSpells(bind.port);
      assert EncodePayload(m) == Varint(id) + bind.address + Varint(bind.port);
    case UnregisterService(id) => VarintSpells(id);
    case Open(id, connection) => VarintSpells(id);
    case OpenReject(connection, code) => VarintSpells(code);
    case Ping(nonce) => VarintSpells(nonce);
    case Pong(nonce) => VarintSpells(nonce);
    case Drain(deadline) => VarintSpells(deadline);
    case Error(code, text) =>
      VarintSpells(code);
      PrefixedSpells(text);
    case DataHello(session, id, connection) =>
      VarintSpells(id);
      assert EncodePayload(m) == session + Varint(id) + connection;
    case RegisterReject(id, code, text) =>
      VarintSpells(id);
      VarintSpells(code);
      PrefixedSpells(text);
      assert EncodePayload(m) == Varint(id) + Varint(code) + LengthPrefixed(text);
  }

  /** The number each kind of message goes by on the wire. */
  ghost predicate Numbered(n: nat, m: Message) {
    && (m.ClientHello? <==> n == 1) && (m.ServerHello? <==> n == 2) && (m.Auth? <==> n == 3)
    && (m.AuthOk? <==> n == 4) && (m.RegisterService? <==> n == 5) && (m.RegisterAck? <==> n == 6)
    && (m.UnregisterService? <==> n == 7) && (m.Open? <==> n == 8) && (m.OpenReject? <==> n == 9)
    && (m.Ping? <==> n == 10) && (m.Pong? <==> n == 11) && (m.Drain? <==> n == 12)
    && (m.Error? <==> n == 13) && (m.DataHello? <==> n == 14) && (m.RegisterReject? <==> n == 15)
  }

  lemma {:induction false} KindIsNumber(n: nat, m: Message)
    ensures n == Kind(m) <==> Numbered(n, m)
  {
  }

  function BigEndian(w: Bytes): nat {
    if w == [] then 0 else 0x100 * BigEndian(w[..|w| - 1]) + w[|w| - 1]
  }

  lemma {:induction false} BigEndianTwo(w: Bytes)
    requires |w| == 2
    ensures BigEndian(w) == ToU16(w[0], w[1])
  {
    assert w[..1][..0] == [];
    assert BigEndian(w[..1]) == w[0];
  }

  lemma {:induction false} BigEndianFour(w: Bytes)
    requires |w| == 4
    ensures BigEndian(w) == ToU32(w[0], w[1], w[2], w[3])
  {
    BigEndianTwo(w[..2]);
    assert w[..3][..2] == w[..2];
    assert BigEndian(w[..3]) == 0x100 * BigEndian(w[..2]) + w[2];
  }

  /** The kind and the length a header announces. */
  function KindField(input: Bytes): nat
    requires |input| >= 14
  {
    BigEndian(input[8..10])
  }

  function LengthField(input: Bytes): nat
    requires |input| >= 14
  {
    BigEndian(input[10..14])
  }

  lemma {:induction false} HeaderSays(kind: u16, payload: Bytes)
    requires |payload| <= 1_048_576
    ensures
      var f := Header(kind, |payload|) + payload;
      && |f| == 14 + |payload| && f[..8] == [0x45, 0x54, 0x55, 0x4e, 0, 1, 0, 1]
      && KindField(f) == kind && LengthField(f) == |payload| && f[14..] == payload
  {
    var f := Header(kind, |payload|) + payload;
    assert f[8..10] == Be16(kind) && f[10..14] == Be32(|payload|);
    BigEndianTwo(f[8..10]);
    BigEndianFour(f[10..14]);
    Be32RoundTrip(|payload|);
    hide BigEndian;
  }

  /** A frame as sent: ETUN, version 1.1, the number of the kind, the length of the payload, and the payload. */
  lemma {:induction false} EncodedBytes(rules: TextRules, m: Message)
    requires Constructible(rules, m)
    ensures EncodeFrame(m).Ok?
    ensures
      var f := EncodeFrame(m).value;
      && |f| >= 14 && f[..8] == [0x45, 0x54, 0x55, 0x4e, 0, 1, 0, 1] && Numbered(KindField(f), m)
      && LengthField(f) == |f| - 14 && Spells(f[14..], m)
  {
    hide Constructible, Spells, Kind, Numbered, Header, KindField, LengthField, DecodeFrame, EncodePayload;
    FrameRoundTrip(rules, m, []);
    EncodedSpells(rules, m);
    HeaderSays(Kind(m), EncodePayload(m));
    KindIsNumber(Kind(m), m);
  }

  /** Nothing but a payload over the frame limit keeps a message from being sent. */
  lemma {:induction false} EncodeDecides(m: Message)
    ensures EncodeFrame(m) == Err(FrameTooLarge) <==> |EncodePayload(m)| > 1_048_576
    ensures EncodeFrame(m).Err? ==> EncodeFrame(m) == Err(FrameTooLarge)
  {
    hide EncodePayload;
  }

  // ----- the decoder

  /** The first of these that applies to a header is what is said of it. */
  lemma {:induction false} HeaderMeans(input: Bytes)
    requires |input| >= 14
    ensures
      var r := DecodeHeader(input);
      if input[..4] != [0x45, 0x54, 0x55, 0x4e] then r == Err(InvalidMagic)
      else if input[4..6] != [0, 1]
      then r.Err? && r.error.UnsupportedVersion? && r.error.major == BigEndian(input[4..6])
           && r.error.minor == BigEndian(input[6..8])
      else if KindField(input) == 0 || KindField(input) > 15
      then r.Err? && r.error.UnknownMessage? && r.error.kind == KindField(input)
      else if LengthField(input) > 1_048_576 then r == Err(FrameTooLarge)
      else r.Ok? && r.value.0 == KindField(input) && r.value.1 == LengthField(input)
  {
    BigEndianTwo(input[4..6]);
    BigEndianTwo(input[6..8]);
    BigEndianTwo(input[8..10]);
    BigEndianFour(input[10..14]);
    hide BigEndian;
    assert input[4..6] == [input[4], input[5]];
  }

  /**
   A frame is accepted exactly if it starts with ETUN and major version 1, the kind is that of the message, the
   whole payload is there and of allowed length, and the payload spells the message within its limits, to the last byte.
   */
  lemma {:induction false} DecodedExactly(rules: TextRules, input: Bytes, m: Message, n: nat)
    ensures DecodeFrame(rules, input) == Ok((m, n)) <==>
      && 14 <= n <= |input| && input[..4] == [0x45, 0x54, 0x55, 0x4e] && input[4..6] == [0, 1]
      && Numbered(KindField(input), m) && LengthField(input) == n - 14 && n - 14 <= 1_048_576
      && Constructible(rules, m) && Spells(input[14..n], m)
  {
    hide Constructible, Spells, TakePayload, Numbered, Kind, KindField, LengthField;
    if |input| < 14 {
      ShortHeader(input);
    } else {
      HeaderMeans(input);
      KindIsNumber(KindField(input), m);
      KindRange(m);
      hide DecodeHeader;
      if DecodeHeader(input).Ok? && LengthField(input) <= |input| - 14 {
        PayloadExact(rules, KindField(input), input[14..14 + LengthField(input)], m);
      }
    }
  }

  /** Why a frame is refused: the first of these that applies, and only for these reasons. */
  lemma {:induction false} RefusedExactly(rules: TextRules, input: Bytes)
    ensures
      var r := DecodeFrame(rules, input);
      if |input| < 14 then r == Err(TruncatedFrame)
      else if input[..4] != [0x45, 0x54, 0x55, 0x4e] then r == Err(InvalidMagic)
      else if input[4..6] != [0, 1]
      then r.Err? && r.error.UnsupportedVersion? && r.error.major == BigEndian(input[4..6])
           && r.error.minor == BigEndian(input[6..8])
      else if KindField(input) == 0 || KindField(input) > 15
      then r.Err? && r.error.UnknownMessage? && r.error.kind == KindField(input)
      else if LengthField(input) > 1_048_576 then r == Err(FrameTooLarge)
      else if |input| < 14 + LengthField(input) then r == Err(TruncatedFrame)
      else if forall m :: Constructible(rules, m) && Spells(input[14..14 + LengthField(input)], m) ==>
        !Numbered(KindField(input), m)
      then r == Err(InvalidPayload)
      else r.Ok?
  {
    hide Constructible, Spells, TakePayload, Numbered, Kind, KindField, LengthField, BigEndian;
    if |input| >= 14 {
      HeaderMeans(input);
      hide DecodeHeader;
      if DecodeHeader(input).Ok? && |input| >= 14 + LengthField(input) {
        PayloadVerdict(rules, KindField(input), input[14..14 + LengthField(input)]);
      }
    }
  }

  lemma {:induction false} PayloadVerdict(rules: TextRules, kind: u16, p: Bytes)
    ensures
      var taken := TakePayload(rules, kind, p);
      taken.Took? && taken.rest == [] <==>
        exists m :: Constructible(rules, m) && Spells(p, m) && Numbered(kind, m)
  {
    hide Constructible, Spells, TakePayload, Numbered, Kind;
    var taken := TakePayload(rules, kind, p);
    if m :| Constructible(rules, m) && Spells(p, m) && Numbered(kind, m) {
      KindIsNumber(kind, m);
      PayloadExact(rules, kind, p, m);
    }
    if taken.Took? && taken.rest == [] {
      PayloadExact(rules, kind, p, taken.value);
      KindIsNumber(kind, taken.value);
    }
  }
}
