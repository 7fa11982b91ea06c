/**
 The Postcard wire format for the few shapes Eggtunnel sends: varint integers, raw
 bytes, and length-prefixed byte and integer sequences. A decoder takes one value off
 the front of its input and returns the rest.
 */
module Postcard {
  import opened Wire

  datatype Parsed<+T> = Bad | Took(value: T, rest: Bytes) {
    predicate IsFailure() { Bad? }
    function PropagateFailure<U>(): Parsed<U>
      requires Bad?
    {
      Bad
    }
    function Extract(): (T, Bytes)
      requires Took?
    {
      (value, rest)
    }
  }

  // ----- varints

  /** Seven bits a byte, low bits first, the top bit set on every byte but the last. */
  function Varint(n: nat): Bytes {
    if n < 128 then [n] else [128 + n % 128] + Varint(n / 128)
  }

  /** At most `width` bytes are read, and a value that fills them may not exceed `top` in its last byte. */
  function TakeVarint(b: Bytes, width: nat, top: byte): Parsed<nat> {
    if width == 0 || b == [] then Bad
    else if b[0] < 128 then
      if width == 1 && b[0] > top then Bad else Took(b[0], b[1..])
    else
      var (high, rest) :- TakeVarint(b[1..], width - 1, top);
      Took(b[0] - 128 + 128 * high, rest)
  }

  /** One more than the largest value `width` bytes with last byte `top` can hold. */
  function Capacity(width: nat, top: byte): nat
    requires width >= 1
  {
    if width == 1 then top + 1 else 128 * Capacity(width - 1, top)
  }

  lemma {:induction false} TakenFits(b: Bytes, width: nat, top: byte)
    requires width >= 1 && TakeVarint(b, width, top).Took? && top < 128
    ensures TakeVarint(b, width, top).value < Capacity(width, top)
    ensures |TakeVarint(b, width, top).rest| < |b|
  {
    if b[0] < 128 {
      SevenBitsFit(width, top, b[0]);
    } else {
      TakenFits(b[1..], width - 1, top);
    }
  }

  lemma {:induction false} SevenBitsFit(width: nat, top: byte, x: byte)
    requires width >= 1 && x < 128 && (width == 1 ==> x <= top)
    ensures x < Capacity(width, top)
  {
    if width > 1 { CapacityPositive(width - 1, top); }
  }

  lemma {:induction false} CapacityPositive(width: nat, top: byte)
    requires width >= 1
    ensures Capacity(width, top) >= 1
  {
    if width == 1 {
    } else {
      CapacityPositive(width - 1, top);
    }
  }

  lemma {:induction false} VarintRoundTrip(n: nat, width: nat, top: byte, rest: Bytes)
    requires width >= 1 && top < 128 && n < Capacity(width, top)
    ensures TakeVarint(Varint(n) + rest, width, top) == Took(n, rest)
    ensures 1 <= |Varint(n)| <= width
  {
    var b := Varint(n) + rest;
    if n < 128 {
      assert b[0] == n && b[1..] == rest;
    } else {
      assert width > 1;
      assert b[0] == 128 + n % 128 && b[1..] == Varint(n / 128) + rest;
      VarintRoundTrip(n / 128, width - 1, top, rest);
    }
  }

  function TakeU16(b: Bytes): (r: Parsed<u16>)
    ensures r.Took? ==> |r.rest| < |b|
  {
    var p := TakeVarint(b, 3, 3);
    if p.Bad? then Bad
    else
      TakenFits(b, 3, 3); assert Capacity(3, 3) == 0x1_0000;
      Took(p.value, p.rest)
  }

  function TakeU32(b: Bytes): (r: Parsed<u32>)
    ensures r.Took? ==> |r.rest| < |b|
  {
    var p := TakeVarint(b, 5, 15);
    if p.Bad? then Bad
    else
      TakenFits(b, 5, 15); FiveBytes();
      Took(p.value, p.rest)
  }

  function TakeU64(b: Bytes): (r: Parsed<u64>)
    ensures r.Took? ==> |r.rest| < |b|
  {
    var p := TakeVarint(b, 10, 1);
    if p.Bad? then Bad
    else
      TakenFits(b, 10, 1); TenBytes();
      Took(p.value, p.rest)
  }

  lemma {:induction false} FiveBytes()
    ensures Capacity(5, 15) == 0x1_0000_0000
  {
    assert Capacity(3, 15) == 128 * 128 * 16;
  }

  lemma {:induction false} TenBytes()
    ensures Capacity(10, 1) == 0x1_0000_0000_0000_0000
  {
    assert Capacity(2, 1) == 256;
    assert Capacity(4, 1) == 256 * 128 * 128;
    assert Capacity(6, 1) == 256 * 128 * 128 * 128 * 128;
    assert Capacity(8, 1) == 256 * 128 * 128 * 128 * 128 * 128 * 128;
  }

  lemma {:induction false} U16RoundTrip(n: u16, rest: Bytes)
    ensures TakeU16(Varint(n) + rest) == Took(n, rest) && 1 <= |Varint(n)| <= 3
  {
    assert Capacity(3, 3) == 0x1_0000;
    VarintRoundTrip(n, 3, 3, rest);
  }

  lemma {:induction false} U32RoundTrip(n: u32, rest: Bytes)
    ensures TakeU32(Varint(n) + rest) == Took(n, rest) && 1 <= |Varint(n)| <= 5
  {
    FiveBytes();
    VarintRoundTrip(n, 5, 15, rest);
  }

  lemma {:induction false} U64RoundTrip(n: u64, rest: Bytes)
    ensures TakeU64(Varint(n) + rest) == Took(n, rest) && 1 <= |Varint(n)| <= 10
  {
    TenBytes();
    VarintRoundTrip(n, 10, 1, rest);
  }

  // ----- bytes

  function TakeRaw(b: Bytes, n: nat): Parsed<Bytes> {
    if |b| < n then Bad else Took(b[..n], b[n..])
  }

  function TakeOctets16(b: Bytes): Parsed<Octets16> {
    if |b| < 16 then Bad else Took(b[..16], b[16..])
  }

  lemma {:induction false} OctetsRoundTrip(x: Octets16, rest: Bytes)
    ensures TakeOctets16(x + rest) == Took(x, rest)
  {
    assert (x + rest)[..16] == x && (x + rest)[16..] == rest;
  }

  /** Strings and byte vectors alike: a length, then that many bytes. */
  function LengthPrefixed(x: Bytes): Bytes {
    Varint(|x|) + x
  }

  function TakeLengthPrefixed(b: Bytes): Parsed<Bytes> {
    var (n, rest) :- TakeU64(b);
    TakeRaw(rest, n)
  }

  lemma {:induction false} LengthPrefixedRoundTrip(x: Bytes, rest: Bytes)
    requires |x| <= U64_MAX
    ensures TakeLengthPrefixed(LengthPrefixed(x) + rest) == Took(x, rest)
  {
    U64RoundTrip(|x|, x + rest);
    assert LengthPrefixed(x) + rest == Varint(|x|) + (x + rest);
    assert (x + rest)[..|x|] == x && (x + rest)[|x|..] == rest;
  }

  lemma {:induction false} VarintLength(n: nat)
    ensures |Varint(n)| >= 1
    ensures n < 0x80 ==> |Varint(n)| == 1
    ensures n < 0x4000 ==> |Varint(n)| <= 2
  {
    if n < 128 {
    } else {
      VarintLength(n / 128);
    }
  }

  // ----- sequences of integers

  function Varints(xs: seq<u16>): Bytes {
    if xs == [] then [] else Varint(xs[0]) + Varints(xs[1..])
  }

  function TakeU16s(b: Bytes, n: nat): Parsed<seq<u16>>
    decreases n
  {
    if n == 0 then Took([], b)
    else
      var (x, rest) :- TakeU16(b);
      var (xs, end) :- TakeU16s(rest, n - 1);
      Took([x] + xs, end)
  }

  lemma {:induction false} U16sRoundTrip(xs: seq<u16>, rest: Bytes)
    ensures TakeU16s(Varints(xs) + rest, |xs|) == Took(xs, rest)
    ensures |Varints(xs)| <= 3 * |xs|
  {
    hide Varint, TakeU16;
    if xs == [] {
      assert Varints(xs) + rest == rest;
    } else {
      U16RoundTrip(xs[0], Varints(xs[1..]) + rest);
      assert Varints(xs) + rest == Varint(xs[0]) + (Varints(xs[1..]) + rest);
      U16sRoundTrip(xs[1..], rest);
      assert [xs[0]] + xs[1..] == xs;
    }
  }
}
