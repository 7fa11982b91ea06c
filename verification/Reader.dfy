/** Reading one message off a byte stream that arrives in pieces. */
module Reader {
  import opened Wire
  import opened Frames
  import opened FrameProofs

  datatype ReadError = Framing(error: ProtocolError) | Transport

  datatype Read<+T> = Got(value: T) | Failed(error: ReadError)

  function Joined(chunks: seq<Bytes>): Bytes {
    if chunks == [] then [] else chunks[0] + Joined(chunks[1..])
  }

  /**
   The bytes still to come, in the pieces they will arrive in. When they have run out the stream
   either ends, or, if `broken`, fails.
   */
  class Stream {
    var chunks: seq<Bytes>
    const broken: bool

    constructor (chunks: seq<Bytes>, broken: bool)
      ensures this.chunks == chunks && this.broken == broken
    {
      this.chunks, this.broken := chunks, broken;
    }

    ghost function Rest(): Bytes
      reads this
    {
      Joined(chunks)
    }

    /** One read: some bytes if any are left, otherwise the end or the failure. Empty pieces are not reported. */
    method Poll(max: nat) returns (r: Read<Bytes>)
      requires max > 0
      modifies this`chunks
      ensures r.Failed? <==> old(Rest()) == [] && broken
      ensures r.Failed? ==> r.error == Transport && Rest() == []
      ensures r.Got? ==> |r.value| <= max && old(Rest()) == r.value + Rest()
      ensures r.Got? ==> (r.value == [] <==> old(Rest()) == [])
    {
      while chunks != [] && chunks[0] == []
        invariant Rest() == old(Rest())
        decreases |chunks|
      {
        chunks := chunks[1..];
      }
      if chunks == [] {
        return if broken then Failed(Transport) else Got([]);
      }
      var first := chunks[0];
      if |first| <= max {
        chunks := chunks[1..];
        return Got(first);
      }
      assert first == first[..max] + first[max..];
      chunks := [first[max..]] + chunks[1..];
      r := Got(first[..max]);
    }

    /** Exactly `n` bytes. An early end is a truncation, and a fault is a transport error. */
    method ReadExact(n: nat) returns (r: Read<Bytes>)
      modifies this`chunks
      ensures r.Got? <==> n <= |old(Rest())|
      ensures r.Got? ==> r.value == old(Rest())[..n] && Rest() == old(Rest())[n..]
      ensures r.Failed? ==> r.error == if broken then Transport else Framing(TruncatedFrame)
    {
      var buffer: Bytes := [];
      while |buffer| < n
        invariant |buffer| <= n && buffer + Rest() == old(Rest())
        decreases n - |buffer|
      {
        var piece := Poll(n - |buffer|);
        if piece.Failed? { return Failed(Transport); }
        if piece.value == [] { return Failed(Framing(TruncatedFrame)); }
        buffer := buffer + piece.value;
      }
      r := Got(buffer);
    }

    /** Up to `n` bytes, stopping early only at the end of the stream. */
    method ReadToEnd(n: nat) returns (r: Read<Bytes>)
      modifies this`chunks
      ensures r.Failed? <==> |old(Rest())| < n && broken
      ensures r.Failed? ==> r.error == Transport
      ensures r.Got? ==> |r.value| <= n && old(Rest()) == r.value + Rest()
      ensures r.Got? && |r.value| < n ==> Rest() == []
    {
      var buffer: Bytes := [];
      while |buffer| < n
        invariant |buffer| <= n && buffer + Rest() == old(Rest())
        decreases n - |buffer|
      {
        var piece := Poll(n - |buffer|);
        if piece.Failed? { return Failed(Transport); }
        if piece.value == [] { break; }
        buffer := buffer + piece.value;
      }
      r := Got(buffer);
    }

    /**
     The header is read and judged first, then as much payload as it announces. However the bytes
     were cut up, the outcome is the one decoding the whole stream would give, and on success exactly
     one frame is gone from it.
     */
    method ReadMessage(rules: TextRules) returns (r: Read<Message>)
      modifies this`chunks
      ensures r == Outcome(rules, old(Rest()), broken)
      ensures r.Got? ==> Rest() == old(Rest())[DecodeFrame(rules, old(Rest())).value.1..]
    {
      hide TakePayload, DecodeHeader;
      ghost var all := Rest();
      var header := ReadExact(HEADER_LEN);
      if header.Failed? {
        ShortHeader(all);
        return Failed(header.error);
      }
      var h := header.value;
      assert h + all[HEADER_LEN..] == all;
      HeaderIsLocal(h, all[HEADER_LEN..]);
      match DecodeFrame(rules, h) {
        case Err(TruncatedFrame) => {}
        case Err(e) => {
          EarlyVerdict(rules, h, all[HEADER_LEN..]);
          return Failed(Framing(e));
        }
        case Ok(_) => {
          HeaderNeverDecodes(rules, h);
          assert false;
        }
      }
      LateVerdict(rules, h);
      var len := ToU32(h[10], h[11], h[12], h[13]);
      if len > MAX_FRAME_BYTES { assert false; }
      var payload := ReadToEnd(len);
      if payload.Failed? { return Failed(Transport); }
      if |payload.value| != len { return Failed(Framing(TruncatedFrame)); }
      var frame := h + payload.value;
      assert all == frame + Rest();
      HeaderIsLocal(h, payload.value);
      FrameIsLocal(rules, frame, Rest());
      match DecodeFrame(rules, frame) {
        case Err(e) => return Failed(Framing(e));
        case Ok((m, consumed)) => {
          if consumed != |frame| { assert false; }
          return Got(m);
        }
      }
    }
  }

  /**
   However the encoding of a list of messages is cut up, reading as many messages gives the list and nothing is left.
   */
  method ReadAll(stream: Stream, rules: TextRules, n: nat, ghost ms: seq<Message>) returns (got: seq<Message>)
    requires n == |ms| && stream.Rest() == EncodeAll(ms) && forall i :: 0 <= i < n ==> Constructible(rules, ms[i])
    modifies stream`chunks
    ensures got == ms && stream.Rest() == []
  {
    hide EncodeFrame, DecodeFrame, Constructible;
    got := [];
    assert ms[0..] == ms;
    for i := 0 to n
      invariant got == ms[..i] && stream.Rest() == EncodeAll(ms[i..])
    {
      ghost var rest := EncodeAll(ms[i + 1..]);
      assert ms[i..][1..] == ms[i + 1..];
      FrameRoundTrip(rules, ms[i], rest);
      var r := stream.ReadMessage(rules);
      ghost var frame := EncodeFrame(ms[i]).value;
      assert (frame + rest)[|frame|..] == rest;
      got := got + [r.value];
    }
  }

  /** What reading must come to, said of the stream as a whole. */
  function Outcome(rules: TextRules, all: Bytes, broken: bool): Read<Message> {
    match DecodeFrame(rules, all)
    case Ok((m, _)) => Got(m)
    case Err(TruncatedFrame) => Failed(if broken then Transport else Framing(TruncatedFrame))
    case Err(e) => Failed(Framing(e))
  }

  /** A bare header is never a whole frame, so the reader's guard against one cannot fire. */
  lemma {:induction false} HeaderNeverDecodes(rules: TextRules, h: Bytes)
    requires |h| == HEADER_LEN
    ensures DecodeFrame(rules, h).Err?
  {
    hide TakePayload, DecodeHeader;
    match DecodeHeader(h)
    case Err(_) =>
    case Ok((kind, len)) =>
      if len == 0 {
        assert h[HEADER_LEN..HEADER_LEN + len] == [];
        NoMessageIsEmpty(rules, kind);
      }
  }

  /** A header refused on its own is refused for the same reason whatever follows it. */
  lemma {:induction false} EarlyVerdict(rules: TextRules, h: Bytes, rest: Bytes)
    requires |h| == HEADER_LEN && DecodeFrame(rules, h).Err? && DecodeFrame(rules, h).error != TruncatedFrame
    ensures DecodeFrame(rules, h + rest) == DecodeFrame(rules, h)
  {
    hide TakePayload, DecodeHeader;
    HeaderIsLocal(h, rest);
    match DecodeHeader(h)
    case Err(_) =>
    case Ok((kind, len)) =>
      assert (h + rest)[HEADER_LEN..HEADER_LEN + len] == h[HEADER_LEN..HEADER_LEN + len];
  }

  /** A header that asks for more bytes is a good one, and says how many. */
  lemma {:induction false} LateVerdict(rules: TextRules, h: Bytes)
    requires |h| == HEADER_LEN && DecodeFrame(rules, h) == Err(TruncatedFrame)
    ensures DecodeHeader(h).Ok? && DecodeHeader(h).value.1 == ToU32(h[10], h[11], h[12], h[13]) <= MAX_FRAME_BYTES
  {
    hide TakePayload;
  }

  lemma {:induction false} FrameIsLocal(rules: TextRules, frame: Bytes, rest: Bytes)
    requires |frame| >= HEADER_LEN && DecodeHeader(frame).Ok? && |frame| == HEADER_LEN + DecodeHeader(frame).value.1
    ensures DecodeFrame(rules, frame + rest) == DecodeFrame(rules, frame)
    ensures DecodeFrame(rules, frame) != Err(TruncatedFrame)
    ensures DecodeFrame(rules, frame).Ok? ==> DecodeFrame(rules, frame).value.1 == |frame|
  {
    hide TakePayload, DecodeHeader;
    HeaderIsLocal(frame, rest);
    assert (frame + rest)[HEADER_LEN..|frame|] == frame[HEADER_LEN..|frame|];
  }
}
