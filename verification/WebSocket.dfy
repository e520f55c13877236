// The hand-written WebSocket client of the runner (RFC 6455, sections 5.2, 5.3, 5.5.2 and 5.5.3):
// frames over a byte stream that arrives in arbitrary chunks.
module WebSocket {
  import opened Rows

  type Byte = b: int | 0 <= b < 256

  type Bytes = seq<Byte>

  type Mask = m: seq<Byte> | |m| == 4 witness [0, 0, 0, 0]

  // ------------------------------------------------------------------ masking

  function Pow2(k: nat): nat {
    if k == 0 then 1 else 2 * Pow2(k - 1)
  }

  /** Exclusive or of the lowest k bits. */
  function XorBits(a: nat, b: nat, k: nat): (x: nat)
    ensures x < Pow2(k)
  {
    if k == 0 then 0
    else 2 * XorBits(a / 2, b / 2, k - 1) + (if a % 2 == b % 2 then 0 else 1)
  }

  lemma {:induction false} XorTwice(a: nat, b: nat, k: nat)
    requires a < Pow2(k)
    ensures XorBits(XorBits(a, b, k), b, k) == a
  {
    if k > 0 {
      var x := XorBits(a, b, k);
      assert x / 2 == XorBits(a / 2, b / 2, k - 1);
      XorTwice(a / 2, b / 2, k - 1);
    }
  }

  lemma ByteIsEightBits()
    ensures Pow2(8) == 256
  {
    assert Pow2(4) == 16;
  }

  function Xor(a: Byte, b: Byte): Byte {
    ByteIsEightBits();
    XorBits(a, b, 8)
  }

  lemma Halved(a: nat, power: nat)
    requires power in {1, 2, 4, 8, 16, 32, 64, 128}
    ensures a / (2 * power) == a / power / 2
  {
  }

  lemma LastBit(a: nat, b: nat, k: nat)
    requires k > 0
    ensures XorBits(a, b, k) % 2 == if a % 2 == b % 2 then 0 else 1
    ensures XorBits(a, b, k) / 2 == XorBits(a / 2, b / 2, k - 1)
  {
  }

  /** From the bit of this power on, x is the exclusive or. */
  predicate XorFrom(a: nat, b: nat, x: nat, k: nat, power: nat)
    requires power > 0
  {
    x / power == XorBits(a / power, b / power, k)
  }

  predicate XorAt(a: nat, b: nat, x: nat, power: nat)
    requires power > 0
  {
    x / power % 2 == if a / power % 2 == b / power % 2 then 0 else 1
  }

  lemma NextBit(a: nat, b: nat, x: nat, k: nat, power: nat)
    requires power in {1, 2, 4, 8, 16, 32, 64, 128} && k > 0 && XorFrom(a, b, x, k, power)
    ensures XorAt(a, b, x, power) && XorFrom(a, b, x, k - 1, 2 * power)
  {
    hide XorBits;
    Halved(a, power);
    Halved(b, power);
    Halved(x, power);
    LastBit(a / power, b / power, k);
  }

  lemma EachBit(a: nat, b: nat, x: nat)
    requires x == XorBits(a, b, 8)
    ensures forall power :: power in {1, 2, 4, 8, 16, 32, 64, 128} ==> XorAt(a, b, x, power)
  {
    assert XorFrom(a, b, x, 8, 1);
    hide XorBits, XorAt, XorFrom;
    NextBit(a, b, x, 8, 1);
    NextBit(a, b, x, 7, 2);
    NextBit(a, b, x, 6, 4);
    NextBit(a, b, x, 5, 8);
    NextBit(a, b, x, 4, 16);
    NextBit(a, b, x, 3, 32);
    NextBit(a, b, x, 2, 64);
    NextBit(a, b, x, 1, 128);
  }

  /** Each of the eight bits is one exactly when the bits of the two bytes differ. */
  lemma XorIsBitwise(a: Byte, b: Byte, power: nat)
    requires power in {1, 2, 4, 8, 16, 32, 64, 128}
    ensures Xor(a, b) / power % 2 == if a / power % 2 == b / power % 2 then 0 else 1
  {
    hide XorBits;
    EachBit(a, b, Xor(a, b));
    assert XorAt(a, b, Xor(a, b), power);
  }

  function Masked(payload: Bytes, mask: Mask): (masked: Bytes)
    ensures |masked| == |payload|
    ensures forall i :: 0 <= i < |payload| ==> masked[i] == Xor(payload[i], mask[i % 4])
  {
    seq(|payload|, i requires 0 <= i < |payload| => Xor(payload[i], mask[i % 4]))
  }

  /** Masking is its own inverse. */
  lemma UnmaskMasked(payload: Bytes, mask: Mask)
    ensures Masked(Masked(payload, mask), mask) == payload
  {
    ByteIsEightBits();
    forall i | 0 <= i < |payload| ensures Masked(Masked(payload, mask), mask)[i] == payload[i] {
      XorTwice(payload[i], mask[i % 4], 8);
    }
  }

  // ------------------------------------------------------------------ lengths

  function BigEndian(n: nat, width: nat): (bytes: Bytes)
    ensures |bytes| == width
  {
    if width == 0 then [] else BigEndian(n / 256, width - 1) + [n % 256]
  }

  function Value(bytes: Bytes): nat {
    if bytes == [] then 0 else Value(bytes[..|bytes| - 1]) * 256 + bytes[|bytes| - 1]
  }

  function Pow256(k: nat): nat {
    if k == 0 then 1 else 256 * Pow256(k - 1)
  }

  lemma {:induction false} ValueOfBigEndian(n: nat, width: nat)
    requires n < Pow256(width)
    ensures Value(BigEndian(n, width)) == n
  {
    if width > 0 {
      ValueOfBigEndian(n / 256, width - 1);
      assert BigEndian(n, width)[..width - 1] == BigEndian(n / 256, width - 1);
    }
  }

  const LIMIT: nat := 0x1_0000_0000_0000_0000

  lemma Widths()
    ensures Pow256(2) == 65536 && Pow256(8) == LIMIT
  {
    assert Pow256(1) == 256 && Pow256(2) == 65536 && Pow256(4) == 0x1_0000_0000;
  }

  /** The second header byte without its mask bit, and the extended length. */
  function LengthField(n: nat): (Byte, Bytes)
    requires n < LIMIT
  {
    if n < 126 then (n, [])
    else if n < 65536 then (126, BigEndian(n, 2))
    else (127, BigEndian(n, 8))
  }

  function ExtendedWidth(short: Byte): nat {
    if short == 126 then 2 else if short == 127 then 8 else 0
  }

  function DecodedLength(short: Byte, extended: Bytes): nat {
    if short == 126 || short == 127 then Value(extended) else short
  }

  lemma ValueOfMore(bytes: Bytes, k: nat)
    requires k < |bytes|
    ensures Value(bytes[..k + 1]) == Value(bytes[..k]) * 256 + bytes[k]
  {
    assert bytes[..k + 1][..k] == bytes[..k];
  }

  /** Whatever the bytes of an extended length, they are read most significant first. */
  lemma DecodedIs(short: Byte, e: Bytes)
    requires short < 128 && |e| == ExtendedWidth(short)
    ensures short == 126 <==> |e| == 2
    ensures short == 127 <==> |e| == 8
    ensures short < 126 ==> e == [] && DecodedLength(short, e) == short
    ensures short == 126 ==> var b: seq<nat> := e; DecodedLength(short, e) == 0x100 * b[0] + b[1]
    ensures short == 127 ==>
              var b: seq<nat> := e;
              DecodedLength(short, e)
              == 0x100_0000_0000_0000 * b[0] + 0x1_0000_0000_0000 * b[1] + 0x100_0000_0000 * b[2] + 0x1_0000_0000 * b[3]
                 + 0x100_0000 * b[4] + 0x1_0000 * b[5] + 0x100 * b[6] + b[7]
  {
    if |e| > 0 {
      assert e[..|e|] == e && e[..0] == [];
      ValueOfMore(e, 0);
      ValueOfMore(e, 1);
    }
    if |e| == 8 {
      ValueOfMore(e, 2);
      ValueOfMore(e, 3);
      ValueOfMore(e, 4);
      ValueOfMore(e, 5);
      ValueOfMore(e, 6);
      ValueOfMore(e, 7);
    }
  }

  /**
   * The length is encoded in the shortest field that can hold it, its most significant byte first, and decoded as
   * it was encoded.
   */
  lemma LengthRoundTrip(n: nat)
    requires n < LIMIT
    ensures var (short, extended) := LengthField(n);
            var b: seq<nat> := extended;
            && short < 128 && |extended| == ExtendedWidth(short) && DecodedLength(short, extended) == n
            && (n < 126 ==> short == n && extended == [])
            && (126 <= n < 65536 ==> short == 126 && |b| == 2 && n == 0x100 * b[0] + b[1])
            && (65536 <= n ==>
                  && short == 127 && |b| == 8
                  && n == 0x100_0000_0000_0000 * b[0] + 0x1_0000_0000_0000 * b[1] + 0x100_0000_0000 * b[2]
                          + 0x1_0000_0000 * b[3] + 0x100_0000 * b[4] + 0x1_0000 * b[5] + 0x100 * b[6] + b[7])
  {
    Widths();
    DecodedIs(LengthField(n).0, LengthField(n).1);
    if 126 <= n < 65536 {
      ValueOfBigEndian(n, 2);
    } else if n >= 65536 {
      ValueOfBigEndian(n, 8);
    }
  }

  // ------------------------------------------------------------------ frames

  const TEXT: Byte := 0x81
  const PING: Byte := 0x89
  const PONG: Byte := 0x8A

  datatype Frame = Frame(first: Byte, mask: Option<Mask>, payload: Bytes)

  function Body(frame: Frame): Bytes {
    if frame.mask.Some? then frame.mask.value + Masked(frame.payload, frame.mask.value) else frame.payload
  }

  function Encode(frame: Frame): Bytes
    requires |frame.payload| < LIMIT
  {
    LengthRoundTrip(|frame.payload|);
    var (short, extended) := LengthField(|frame.payload|);
    [frame.first, if frame.mask.Some? then 128 + short else short] + extended + Body(frame)
  }

  /** Every byte of a frame: opcode, mask bit and length, the extended length, the mask, the payload under it. */
  lemma FrameBytes(frame: Frame)
    requires |frame.payload| < LIMIT
    ensures var bytes: seq<nat>, n := Encode(frame), |frame.payload|;
            var at := if n < 126 then 2 else if n < 65536 then 4 else 10;
            && |bytes| == at + (if frame.mask.Some? then 4 else 0) + n
            && bytes[0] == frame.first
            && bytes[1] == (if frame.mask.Some? then 128 else 0) + (if n < 126 then n else if n < 65536 then 126 else 127)
            && (126 <= n < 65536 ==> n == 0x100 * bytes[2] + bytes[3])
            && (65536 <= n ==>
                  n == 0x100_0000_0000_0000 * bytes[2] + 0x1_0000_0000_0000 * bytes[3] + 0x100_0000_0000 * bytes[4]
                       + 0x1_0000_0000 * bytes[5] + 0x100_0000 * bytes[6] + 0x1_0000 * bytes[7] + 0x100 * bytes[8] + bytes[9])
            && (frame.mask.None? ==> bytes[at..] == frame.payload)
            && (frame.mask.Some? ==>
                  && bytes[at..at + 4] == frame.mask.value
                  && forall i: nat :: i < n ==> bytes[at + 4 + i] == Xor(frame.payload[i], frame.mask.value[i % 4]))
  {
    hide Xor, LengthField, DecodedLength;
    var n := |frame.payload|;
    LengthRoundTrip(n);
    var (short, extended) := LengthField(n);
    var head: Bytes := [frame.first, if frame.mask.Some? then 128 + short else short];
    var bytes := Encode(frame);
    assert bytes == head + extended + Body(frame);
    assert bytes[2..2 + |extended|] == extended && bytes[2 + |extended|..] == Body(frame);
  }

  // ------------------------------------------------------------------ what the reader makes of a stream

  /** The reads of one frame, each all or nothing; `used` is what the finished reads took. */
  datatype Parsed = Parsed(first: Byte, payload: Bytes, used: nat) | Incomplete(used: nat)

  function ParseBody(first: Byte, masked: bool, n: nat, body: Bytes): (parsed: Parsed)
    ensures parsed.used <= |body|
  {
    var at := if masked then 4 else 0;
    if |body| < at then Incomplete(0)
    else if |body| < at + n then Incomplete(at)
    else
      var payload := if masked then var mask: Mask := body[..4]; Masked(body[4..4 + n], mask) else body[..n];
      Parsed(first, payload, at + n)
  }

  function Parse(stream: Bytes): (parsed: Parsed)
    ensures parsed.used <= |stream|
    ensures parsed.Parsed? ==> parsed.used >= 2
  {
    if |stream| < 2 then Incomplete(0)
    else
      var masked, short := stream[1] >= 128, stream[1] % 128;
      var at := 2 + ExtendedWidth(short);
      if |stream| < at then Incomplete(2)
      else
        var body := ParseBody(stream[0], masked, DecodedLength(short, stream[2..at]), stream[at..]);
        body.(used := at + body.used)
  }

  /** The fields of a frame lie one after the other. */
  lemma Layout(head: Bytes, extended: Bytes, mask: Bytes, raw: Bytes, rest: Bytes)
    requires |head| == 2
    ensures var stream := head + extended + mask + raw + rest;
            var extendedAt := 2 + |extended|;
            var bodyAt := extendedAt + |mask|;
            && stream[0] == head[0] && stream[1] == head[1] && stream[2..extendedAt] == extended
            && stream[extendedAt..] == mask + raw + rest && |stream| == bodyAt + |raw| + |rest|
  {
  }

  lemma ParseMasked(first: Byte, short: Byte, extended: Bytes, mask: Mask, raw: Bytes, rest: Bytes)
    requires short < 128 && |extended| == ExtendedWidth(short) && DecodedLength(short, extended) == |raw|
    ensures Parse([first, 128 + short] + extended + mask + raw + rest)
            == Parsed(first, Masked(raw, mask), 2 + |extended| + 4 + |raw|)
  {
    hide ExtendedWidth, DecodedLength;
    Layout([first, 128 + short], extended, mask, raw, rest);
  }

  lemma ParseUnmasked(first: Byte, short: Byte, extended: Bytes, raw: Bytes, rest: Bytes)
    requires short < 128 && |extended| == ExtendedWidth(short) && DecodedLength(short, extended) == |raw|
    ensures Parse([first, short] + extended + raw + rest) == Parsed(first, raw, 2 + |extended| + |raw|)
  {
    hide ExtendedWidth, DecodedLength;
    Layout([first, short], extended, [], raw, rest);
    assert [first, short] + extended + [] + raw + rest == [first, short] + extended + raw + rest;
  }

  /** Decoding an encoded frame gives the frame back, whatever follows it. */
  lemma DecodeEncoded(frame: Frame, rest: Bytes)
    requires |frame.payload| < LIMIT
    ensures Parse(Encode(frame) + rest) == Parsed(frame.first, frame.payload, |Encode(frame)|)
  {
    hide Parse, Masked;
    LengthRoundTrip(|frame.payload|);
    var (short, extended) := LengthField(|frame.payload|);
    if frame.mask.Some? {
      var mask, raw := frame.mask.value, Masked(frame.payload, frame.mask.value);
      assert Encode(frame) + rest == [frame.first, 128 + short] + extended + mask + raw + rest;
      ParseMasked(frame.first, short, extended, mask, raw, rest);
      UnmaskMasked(frame.payload, mask);
    } else {
      assert Encode(frame) + rest == [frame.first, short] + extended + frame.payload + rest;
      ParseUnmasked(frame.first, short, extended, frame.payload, rest);
    }
  }

  // ------------------------------------------------------------------ one call of recv_frame, on what has arrived

  datatype Outcome = Delivered | NeedMore | PeerClosed | PongTooLong

  /** `pings` are the payloads answered on the way; `used` is what left the buffer. */
  datatype Received = Received(outcome: Outcome, payload: Bytes, used: nat, pings: seq<Bytes>)

  function Receive(stream: Bytes): (r: Received)
    ensures r.used <= |stream|
    ensures r.outcome != NeedMore ==> r.used > 0
    decreases |stream|
  {
    var parsed := Parse(stream);
    if parsed.Incomplete? then Received(NeedMore, [], parsed.used, [])
    else if parsed.first % 16 == 9 then
      if |parsed.payload| >= 256 then Received(PongTooLong, [], parsed.used, [])
      else
        var later := Receive(stream[parsed.used..]);
        later.(used := parsed.used + later.used, pings := [parsed.payload] + later.pings)
    else if parsed.first % 16 == 8 then Received(PeerClosed, [], parsed.used, [])
    else Received(Delivered, parsed.payload, parsed.used, [])
  }

  lemma ReceivePing(stream: Bytes)
    requires Parse(stream).Parsed? && Parse(stream).first % 16 == 9 && |Parse(stream).payload| < 256
    ensures var parsed := Parse(stream);
            var later := Receive(stream[parsed.used..]);
            && Receive(stream) == later.(used := parsed.used + later.used, pings := [parsed.payload] + later.pings)
            && stream[parsed.used..][later.used..] == stream[parsed.used + later.used..]
  {
    hide Parse;
  }

  lemma ReceiveOther(stream: Bytes)
    requires Parse(stream).Parsed? ==> Parse(stream).first % 16 != 9 || |Parse(stream).payload| >= 256
    ensures var parsed := Parse(stream);
            Receive(stream) ==
              if parsed.Incomplete? then Received(NeedMore, [], parsed.used, [])
              else if parsed.first % 16 == 9 then Received(PongTooLong, [], parsed.used, [])
              else if parsed.first % 16 == 8 then Received(PeerClosed, [], parsed.used, [])
              else Received(Delivered, parsed.payload, parsed.used, [])
  {
    hide Parse;
  }

  /** What a frame at the front of the stream leads to, by its opcode; a ping leads to the frame after it. */
  lemma ReceiveByOpcode(frame: Frame, rest: Bytes)
    requires |frame.payload| < LIMIT
    ensures var r, used := Receive(Encode(frame) + rest), |Encode(frame)|;
            && (frame.first % 16 == 8 ==> r == Received(PeerClosed, [], used, []))
            && (frame.first % 16 == 9 && |frame.payload| > 255 ==> r == Received(PongTooLong, [], used, []))
            && (frame.first % 16 == 9 && |frame.payload| <= 255 ==>
                  var later := Receive(rest);
                  r == Received(later.outcome, later.payload, used + later.used, [frame.payload] + later.pings))
            && (frame.first % 16 != 8 && frame.first % 16 != 9 ==> r == Received(Delivered, frame.payload, used, []))
  {
    hide Parse, Encode;
    var stream := Encode(frame) + rest;
    DecodeEncoded(frame, rest);
    assert stream[|Encode(frame)|..] == rest;
  }

  /** The pong's length byte is the ping's length with the mask bit set, right only up to 125. */
  function PongBytes(mask: Mask, payload: Bytes): Bytes
    requires |payload| < 256
  {
    [PONG, if |payload| < 128 then 128 + |payload| else |payload|] + mask + Masked(payload, mask)
  }

  /** The answer to a ping is a masked pong frame with the ping's payload exactly up to 125 bytes. */
  lemma PongIsAFrame(mask: Mask, payload: Bytes)
    requires |payload| < 256
    ensures PongBytes(mask, payload) == Encode(Frame(0x8A, Some(mask), payload)) <==> |payload| <= 125
  {
    if |payload| > 125 {
      FrameBytes(Frame(0x8A, Some(mask), payload));
    }
  }

  function Pongs(entropy: nat -> Mask, drawn: nat, pings: seq<Bytes>): Bytes
    decreases |pings|
  {
    if pings == [] || |pings[0]| >= 256 then []
    else PongBytes(entropy(drawn), pings[0]) + Pongs(entropy, drawn + 1, pings[1..])
  }

  lemma PongFirst(entropy: nat -> Mask, drawn: nat, ping: Bytes, later: seq<Bytes>, sent: Bytes)
    requires |ping| < 256
    ensures sent + PongBytes(entropy(drawn), ping) + Pongs(entropy, drawn + 1, later) == sent + Pongs(entropy, drawn, [ping] + later)
  {
    assert ([ping] + later)[1..] == later;
  }

  // ------------------------------------------------------------------ a stream of texts and pings

  /** What the peer sends: text frames, and pings of at most 125 bytes. */
  predicate Sendable(frame: Frame) {
    |frame.payload| < LIMIT && (frame.first == TEXT || (frame.first == PING && |frame.payload| <= 125))
  }

  predicate AllSendable(frames: seq<Frame>) {
    forall i :: 0 <= i < |frames| ==> Sendable(frames[i])
  }

  function EncodeAll(frames: seq<Frame>): Bytes
    requires AllSendable(frames)
  {
    if frames == [] then [] else Encode(frames[0]) + EncodeAll(frames[1..])
  }

  function TextsOf(frames: seq<Frame>): seq<Bytes> {
    if frames == [] then []
    else if frames[0].first == TEXT then [frames[0].payload] + TextsOf(frames[1..]) else TextsOf(frames[1..])
  }

  function PingsOf(frames: seq<Frame>): seq<Bytes> {
    if frames == [] then []
    else if frames[0].first == PING then [frames[0].payload] + PingsOf(frames[1..]) else PingsOf(frames[1..])
  }

  /** The first frame of a stream is received as it was sent. */
  lemma ReceiveFirst(frames: seq<Frame>)
    requires AllSendable(frames) && frames != []
    ensures Parse(EncodeAll(frames)) == Parsed(frames[0].first, frames[0].payload, |Encode(frames[0])|)
    ensures EncodeAll(frames)[|Encode(frames[0])|..] == EncodeAll(frames[1..])
  {
    DecodeEncoded(frames[0], EncodeAll(frames[1..]));
  }

  /** The number of frames one call takes: the leading pings and the text after them. */
  function Taken(frames: seq<Frame>): (n: nat)
    ensures n <= |frames|
  {
    if frames == [] then 0 else if frames[0].first == TEXT then 1 else 1 + Taken(frames[1..])
  }

  predicate AllShort(pings: seq<Bytes>) {
    forall i :: 0 <= i < |pings| ==> |pings[i]| <= 125
  }

  lemma ShortFirst(ping: Bytes, pings: seq<Bytes>)
    requires |ping| <= 125 && AllShort(pings)
    ensures AllShort([ping] + pings)
  {
  }

  /** What one call makes of the frames on the stream. */
  predicate ReceivesNext(frames: seq<Frame>, r: Received)
    requires AllSendable(frames) && r.used <= |EncodeAll(frames)|
  {
    var texts, rest := TextsOf(frames), frames[Taken(frames)..];
    && r.outcome == (if texts == [] then NeedMore else Delivered)
    && (texts != [] ==> r.payload == texts[0] && TextsOf(rest) == texts[1..])
    && EncodeAll(frames)[r.used..] == EncodeAll(rest)
    && r.pings + PingsOf(rest) == PingsOf(frames)
    && AllShort(r.pings)
  }

  lemma PingUnfolds(frames: seq<Frame>)
    requires frames != [] && frames[0].first == PING
    ensures TextsOf(frames) == TextsOf(frames[1..]) && PingsOf(frames) == [frames[0].payload] + PingsOf(frames[1..])
    ensures frames[Taken(frames)..] == frames[1..][Taken(frames[1..])..]
  {
  }

  lemma AfterPing(frames: seq<Frame>, later: Received, used: nat)
    requires AllSendable(frames) && frames != [] && frames[0].first == PING && used + later.used <= |EncodeAll(frames)|
    requires EncodeAll(frames)[used..] == EncodeAll(frames[1..]) && ReceivesNext(frames[1..], later)
    ensures ReceivesNext(frames, later.(used := used + later.used, pings := [frames[0].payload] + later.pings))
  {
    hide Encode, EncodeAll, AllShort, TextsOf, PingsOf, Taken;
    ShortFirst(frames[0].payload, later.pings);
    PingUnfolds(frames);
    assert EncodeAll(frames)[used..][later.used..] == EncodeAll(frames)[used + later.used..];
    var rest := PingsOf(frames[Taken(frames)..]);
    assert ([frames[0].payload] + later.pings) + rest == [frames[0].payload] + (later.pings + rest);
  }

  lemma TextIsNext(frames: seq<Frame>, used: nat)
    requires AllSendable(frames) && frames != [] && frames[0].first == TEXT
    requires used <= |EncodeAll(frames)| && EncodeAll(frames)[used..] == EncodeAll(frames[1..])
    ensures ReceivesNext(frames, Received(Delivered, frames[0].payload, used, []))
  {
    hide Encode, EncodeAll;
    assert [] + PingsOf(frames[1..]) == PingsOf(frames);
  }

  lemma {:induction false} ReceiveNext(frames: seq<Frame>)
    requires AllSendable(frames)
    ensures ReceivesNext(frames, Receive(EncodeAll(frames)))
    decreases |frames|
  {
    hide Parse, Encode, EncodeAll, ReceivesNext, Receive, TextsOf, PingsOf, Taken, AllShort;
    if frames == [] {
      ReceiveNothing();
    } else {
      ReceiveFirst(frames);
      if frames[0].first == PING {
        ReceivePing(EncodeAll(frames));
        ReceiveNext(frames[1..]);
        AfterPing(frames, Receive(EncodeAll(frames[1..])), |Encode(frames[0])|);
      } else {
        ReceiveOther(EncodeAll(frames));
        TextIsNext(frames, |Encode(frames[0])|);
      }
    }
  }

  lemma NothingToParse()
    ensures Parse([]) == Incomplete(0)
  {
  }

  lemma ReceiveNothing()
    ensures ReceivesNext([], Receive(EncodeAll([])))
  {
    NothingToParse();
  }

  lemma {:induction false} PongsOfMore(entropy: nat -> Mask, drawn: nat, a: seq<Bytes>, b: seq<Bytes>)
    requires AllShort(a)
    ensures Pongs(entropy, drawn, a + b) == Pongs(entropy, drawn, a) + Pongs(entropy, drawn + |a|, b)
    decreases |a|
  {
    hide PongBytes;
    if a == [] {
      assert a + b == b;
    } else {
      PongsOfMore(entropy, drawn + 1, a[1..], b);
      assert (a + b)[1..] == a[1..] + b;
    }
  }

  // ------------------------------------------------------------------ the socket

  /** A timeout or an empty chunk, by which the peer closes, ends what arrives, and only what is behind it is left. */
  lemma ArrivedIs(bytes: Bytes, rest: seq<Event>)
    ensures Arrived([TimedOut] + rest) == [] && Beyond([TimedOut] + rest) == rest
    ensures Arrived([Chunk([])] + rest) == [] && Beyond([Chunk([])] + rest) == rest
    ensures bytes != [] ==> Arrived([Chunk(bytes)] + rest) == bytes + Arrived(rest) && Beyond([Chunk(bytes)] + rest) == Beyond(rest)
    ensures Arrived([]) == [] && Beyond([]) == []
  {
    assert ([TimedOut] + rest)[1..] == rest && ([Chunk([])] + rest)[1..] == rest && ([Chunk(bytes)] + rest)[1..] == rest;
  }

  /** What a `recv` of the socket comes back with; an empty chunk means the peer closed. */
  datatype Event = Chunk(bytes: Bytes) | TimedOut

  predicate IsData(event: Event) {
    event.Chunk? && event.bytes != []
  }

  /** The bytes that arrive before the first timeout or close. */
  function Arrived(events: seq<Event>): Bytes {
    if events == [] || !IsData(events[0]) then [] else events[0].bytes + Arrived(events[1..])
  }

  /** What is left once a read ran into the first timeout or close. */
  function Beyond(events: seq<Event>): seq<Event> {
    if events == [] then [] else if !IsData(events[0]) then events[1..] else Beyond(events[1..])
  }

  datatype ReadResult = Got(bytes: Bytes) | Lost

  datatype FrameResult = GotFrame(first: Byte, payload: Bytes) | NoFrame

  datatype RecvResult = Text(payload: Bytes) | RecvTimedOut | CloseFrame | PackError

  class WS {
    var rbuf: Bytes
    var incoming: seq<Event>
    var outgoing: Bytes
    const entropy: nat -> Mask
    var drawn: nat

    constructor (rest: Bytes, events: seq<Event>, random: nat -> Mask)
      ensures rbuf == rest && incoming == events && outgoing == [] && drawn == 0 && entropy == random
    {
      rbuf, incoming, outgoing, drawn, entropy := rest, events, [], 0, random;
    }

    ghost function Stream(): Bytes
      reads this
    {
      rbuf + Arrived(incoming)
    }

    method SendText(payload: Bytes)
      requires |payload| < LIMIT
      modifies this`outgoing, this`drawn
      ensures outgoing == old(outgoing) + Encode(Frame(0x81, Some(entropy(old(drawn))), payload))
      ensures drawn == old(drawn) + 1
    {
      var mask := entropy(drawn);
      drawn := drawn + 1;
      var n := |payload|;
      var header: Bytes;
      if n < 126 {
        header := [TEXT, 128 + n];
      } else if n < 65536 {
        header := [TEXT, 128 + 126] + BigEndian(n, 2);
      } else {
        header := [TEXT, 128 + 127] + BigEndian(n, 8);
      }
      assert header + mask + Masked(payload, mask) == Encode(Frame(TEXT, Some(mask), payload));
      outgoing := outgoing + (header + mask + Masked(payload, mask));
    }

    method Read(n: nat) returns (r: ReadResult)
      modifies this`rbuf, this`incoming
      ensures r.Got? <==> |old(Stream())| >= n
      ensures r.Got? ==> r.bytes == old(Stream())[..n] && Stream() == old(Stream())[n..]
      ensures r.Got? ==> Beyond(incoming) == old(Beyond(incoming))
      ensures r.Lost? ==> rbuf == old(Stream()) && incoming == old(Beyond(incoming))
    {
      while |rbuf| < n
        invariant Stream() == old(Stream()) && Beyond(incoming) == old(Beyond(incoming))
        decreases |incoming|
      {
        if incoming == [] || !IsData(incoming[0]) {
          incoming := if incoming == [] then [] else incoming[1..];
          return Lost;
        }
        var chunk := incoming[0].bytes;
        ghost var before := Stream();
        rbuf, incoming := rbuf + chunk, incoming[1..];
        assert Stream() == before;
      }
      r := Got(rbuf[..n]);
      assert rbuf[n..] + Arrived(incoming) == (rbuf + Arrived(incoming))[n..];
      rbuf := rbuf[n..];
    }

    /** The extended length, if the short one announces it. */
    method ReadLength(short: Byte) returns (n: Option<nat>)
      requires short < 128
      modifies this`rbuf, this`incoming
      ensures var stream, width := old(Stream()), ExtendedWidth(short);
              if |stream| < width then n == None && rbuf == stream && incoming == old(Beyond(incoming))
              else n == Some(DecodedLength(short, stream[..width])) && Stream() == stream[width..]
                   && Beyond(incoming) == old(Beyond(incoming))
    {
      if short != 126 && short != 127 {
        return Some(short);
      }
      var extended := Read(if short == 126 then 2 else 8);
      n := if extended.Lost? then None else Some(Value(extended.bytes));
    }

    /** The mask, if any, and the payload. */
    method ReadBody(first: Byte, masked: bool, n: nat) returns (r: FrameResult)
      modifies this`rbuf, this`incoming
      ensures FrameRead(ParseBody(first, masked, n, old(Stream())), old(Stream()), old(incoming), r)
    {
      var mask: Mask := [0, 0, 0, 0];
      if masked {
        var bytes := Read(4);
        if bytes.Lost? {
          return NoFrame;
        }
        mask := bytes.bytes;
      }
      var payload := Read(n);
      if payload.Lost? {
        return NoFrame;
      }
      r := GotFrame(first, if masked then Masked(payload.bytes, mask) else payload.bytes);
    }

    /** A finished frame leaves the stream behind it; a read that fails leaves what the earlier ones took lost. */
    ghost predicate FrameRead(parsed: Parsed, stream: Bytes, events: seq<Event>, r: FrameResult)
      requires parsed.used <= |stream|
      reads this
    {
      if parsed.Parsed?
      then r == GotFrame(parsed.first, parsed.payload) && Stream() == stream[parsed.used..] && Beyond(incoming) == Beyond(events)
      else r == NoFrame && rbuf == stream[parsed.used..] && incoming == Beyond(events)
    }

    /** The reads of one frame. */
    method ReadFrame() returns (r: FrameResult)
      modifies this`rbuf, this`incoming
      ensures FrameRead(Parse(old(Stream())), old(Stream()), old(incoming), r)
    {
      ghost var stream := Stream();
      var header := Read(2);
      if header.Lost? {
        return NoFrame;
      }
      var masked, short := header.bytes[1] >= 128, header.bytes[1] % 128;
      var n := ReadLength(short);
      ghost var at := 2 + ExtendedWidth(short);
      if n.None? {
        return NoFrame;
      }
      assert stream[2..][..at - 2] == stream[2..at] && stream[2..][at - 2..] == stream[at..];
      r := ReadBody(header.bytes[0], masked, n.value);
    }

    method SendPong(payload: Bytes)
      requires |payload| < 256
      modifies this`outgoing, this`drawn
      ensures outgoing == old(outgoing) + PongBytes(entropy(old(drawn)), payload) && drawn == old(drawn) + 1
    {
      var mask := entropy(drawn);
      drawn := drawn + 1;
      outgoing := outgoing + PongBytes(mask, payload);
    }

    /** One call of recv_frame: pings are answered on the way to the first other frame. */
    method RecvFrame() returns (r: RecvResult)
      modifies this`rbuf, this`incoming, this`outgoing, this`drawn
      ensures var spec := Receive(old(Stream()));
              && (r.Text? <==> spec.outcome.Delivered?) && (r.Text? ==> r.payload == spec.payload)
              && (r.RecvTimedOut? <==> spec.outcome.NeedMore?) && (r.CloseFrame? <==> spec.outcome.PeerClosed?)
              && (if r.RecvTimedOut? then rbuf == old(Stream())[spec.used..] && incoming == old(Beyond(incoming))
                  else Stream() == old(Stream())[spec.used..] && Beyond(incoming) == old(Beyond(incoming)))
              && outgoing == old(outgoing) + Pongs(entropy, old(drawn), spec.pings)
              && drawn == old(drawn) + |spec.pings|
      decreases |Stream()|
    {
      hide Parse, PongBytes, Receive, Pongs;
      ghost var stream, sent := Stream(), outgoing;
      NothingSent(entropy, drawn, sent);
      var frame := ReadFrame();
      if frame.NoFrame? {
        ReceiveOther(stream);
        return RecvTimedOut;
      }
      if frame.first % 16 == 9 {
        if |frame.payload| >= 256 {
          ReceiveOther(stream);
          return PackError;
        }
        SendPong(frame.payload);
        ghost var spec := Receive(Stream());
        ReceivePing(stream);
        PongFirst(entropy, drawn - 1, frame.payload, spec.pings, sent);
        r := RecvFrame();
        return;
      }
      ReceiveOther(stream);
      if frame.first % 16 == 8 {
        return CloseFrame;
      }
      return Text(frame.payload);
    }

    /** One call while the peer's frames are on their way: the next text, and a pong for every ping before it. */
    method RecvNext(ghost frames: seq<Frame>) returns (r: RecvResult, ghost pings: seq<Bytes>)
      requires AllSendable(frames) && Stream() == EncodeAll(frames)
      modifies this`rbuf, this`incoming, this`outgoing, this`drawn
      ensures var texts, rest := TextsOf(frames), frames[Taken(frames)..];
              && (if texts == [] then r == RecvTimedOut && rbuf == [] && rest == []
                  else r == Text(texts[0]) && TextsOf(rest) == texts[1..] && Stream() == EncodeAll(rest))
              && |rest| <= |frames| && (texts != [] ==> |rest| < |frames|) && AllSendable(rest)
              && pings + PingsOf(rest) == PingsOf(frames) && AllShort(pings)
              && outgoing == old(outgoing) + Pongs(entropy, old(drawn), pings) && drawn == old(drawn) + |pings|
    {
      hide Receive, EncodeAll, Pongs;
      pings := Receive(Stream()).pings;
      ReceiveNext(frames);
      TakesSome(frames);
      if TextsOf(frames) == [] {
        NothingLeft(frames[Taken(frames)..]);
      }
      r := RecvFrame();
    }

    /**
     * Texts and small pings, cut into chunks anywhere: successive calls return the texts in order, answer every
     * ping with one masked pong of the same payload, and then time out with nothing left over.
     */
    method Drain(ghost frames: seq<Frame>) returns (texts: seq<Bytes>)
      requires AllSendable(frames) && Stream() == EncodeAll(frames)
      modifies this`rbuf, this`incoming, this`outgoing, this`drawn
      ensures texts == TextsOf(frames) && rbuf == []
      ensures outgoing == old(outgoing) + Pongs(entropy, old(drawn), PingsOf(frames))
    {
      hide EncodeAll, Pongs, TextsOf, PingsOf, Stream;
      texts := [];
      ghost var rest, sent, first, answered := frames, outgoing, drawn, [];
      NothingSent(entropy, first, sent);
      assert [] + TextsOf(frames) == TextsOf(frames);
      while true
        invariant AllSendable(rest) && Stream() == EncodeAll(rest) && texts + TextsOf(rest) == TextsOf(frames)
        invariant drawn == first + |answered| && outgoing == sent + Pongs(entropy, first, answered)
        invariant answered + PingsOf(rest) == PingsOf(frames)
        invariant AllShort(answered)
        decreases |rest|
      {
        var r, pings := RecvNext(rest);
        PongsOfMore(entropy, first, answered, pings);
        assert answered + pings + PingsOf(rest[Taken(rest)..]) == answered + PingsOf(rest);
        answered := answered + pings;
        rest := rest[Taken(rest)..];
        if !r.Text? {
          NothingLeft(rest);
          assert answered + [] == answered && texts + [] == texts;
          return;
        }
        texts := texts + [r.payload];
      }
    }
  }

  lemma {:induction false} TakesSome(frames: seq<Frame>)
    requires AllSendable(frames)
    ensures TextsOf(frames) != [] ==> Taken(frames) > 0
    ensures TextsOf(frames) == [] ==> Taken(frames) == |frames|
  {
    if frames != [] {
      TakesSome(frames[1..]);
    }
  }

  lemma NothingSent(entropy: nat -> Mask, drawn: nat, sent: Bytes)
    ensures sent + Pongs(entropy, drawn, []) == sent
  {
  }

  lemma NothingLeft(frames: seq<Frame>)
    requires frames == []
    ensures EncodeAll(frames) == [] && PingsOf(frames) == []
  {
  }

  // ------------------------------------------------------------------ a timeout in mid-frame

  lemma ParsePrefix(stream: Bytes, k: nat)
    requires Parse(stream).Parsed? && k < Parse(stream).used
    ensures Parse(stream[..k]).Incomplete?
    ensures Parse(stream[..k]).used == 0 <==> k < 2
  {
    var short := stream[1] % 128;
    var at := 2 + ExtendedWidth(short);
    if k >= at {
      assert stream[..k][2..at] == stream[2..at];
    }
  }

  /**
   * A call that times out after k bytes of a frame leaves the frame readable exactly when k < 2: from then on the
   * header is dropped and the rest of the frame is taken for a new one.
   */
  lemma TimeoutKeepsSyncIff(frame: Frame, k: nat)
    requires |frame.payload| < LIMIT && k < |Encode(frame)|
    ensures var seen := Encode(frame)[..k];
            && Receive(seen).outcome == NeedMore
            && (seen[Receive(seen).used..] + Encode(frame)[k..] == Encode(frame) <==> k < 2)
  {
    hide Parse;
    DecodeEncoded(frame, []);
    assert Encode(frame) + [] == Encode(frame);
    ParsePrefix(Encode(frame), k);
    var seen, used := Encode(frame)[..k], Receive(Encode(frame)[..k]).used;
    if k < 2 {
      assert seen[0..] + Encode(frame)[k..] == Encode(frame);
    } else {
      assert |seen[used..] + Encode(frame)[k..]| < |Encode(frame)|;
    }
  }

  lemma TwoTexts()
    ensures Encode(Frame(TEXT, None, [0x81, 1])) + Encode(Frame(TEXT, None, [120])) == [0x81, 2, 0x81, 1, 0x81, 1, 120]
  {
    assert Encode(Frame(TEXT, None, [120])) == [0x81, 1, 120];
  }

  lemma HeaderOnly()
    ensures Receive([0x81, 2]) == Received(NeedMore, [], 2, [])
  {
    assert Parse([0x81, 2]) == Incomplete(2);
  }

  lemma WithoutHeader()
    ensures Receive([0x81, 1, 0x81, 1, 120]) == Received(Delivered, [0x81], 3, [])
  {
    var stream: Bytes := [0x81, 1, 0x81, 1, 120];
    assert stream[2..] == [0x81, 1, 120] && stream[2..][..1] == [0x81];
    assert Parse(stream) == Parsed(0x81, [0x81], 3);
    ReceiveOther(stream);
  }

  lemma CutEvents()
    ensures var later: seq<Event> := [Chunk([0x81, 1, 0x81, 1, 120])];
            && Arrived([Chunk([0x81, 2]), TimedOut] + later) == [0x81, 2]
            && Beyond([Chunk([0x81, 2]), TimedOut] + later) == later
            && Arrived(later) == [0x81, 1, 0x81, 1, 120]
  {
    var later: seq<Event> := [Chunk([0x81, 1, 0x81, 1, 120])];
    var events: seq<Event> := [Chunk([0x81, 2]), TimedOut] + later;
    assert events[1..] == [TimedOut] + later && events[1..][1..] == later;
    assert Arrived(events[1..]) == [] && Beyond(events[1..]) == later;
    assert later[1..] == [];
  }

  /** The header of a two-byte text arrives before a timeout: the next call returns a text nobody sent. */
  method WrongTextAfterTimeout(random: nat -> Mask) returns (first: RecvResult, second: RecvResult)
    ensures Encode(Frame(TEXT, None, [0x81, 1])) + Encode(Frame(TEXT, None, [120])) == [0x81, 2, 0x81, 1, 0x81, 1, 120]
    ensures first == RecvTimedOut && second == Text([0x81])
  {
    hide Receive, Encode, Arrived, Beyond;
    TwoTexts();
    HeaderOnly();
    WithoutHeader();
    CutEvents();
    var ws := new WS([], [Chunk([0x81, 2]), TimedOut] + [Chunk([0x81, 1, 0x81, 1, 120])], random);
    assert ws.Stream() == [0x81, 2];
    first := ws.RecvFrame();
    assert ws.Stream() == [0x81, 1, 0x81, 1, 120];
    second := ws.RecvFrame();
  }
}
