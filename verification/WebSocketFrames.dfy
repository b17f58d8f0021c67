/** Encoding and reading WebSocket frames, byte for byte (app/earnapp_probe.py); the layout is
    sections 5.2 and 5.3 of RFC 6455. */
module WebSocketFrames {
  import opened Wrappers

  /** A byte by its value; `| 0x80`, `& 0x0F` and `& 0x7F` are written as arithmetic on it. */
  type Byte = n: int | 0 <= n < 256 witness 0

  const MAX_PAYLOAD := 2_000_000

  datatype FrameError = BadOpcode | BadKey | TooLong | TooLarge | Incomplete

  datatype Frame = Frame(opcode: Byte, final: bool, payload: seq<Byte>)

  // ----- Integers and masks -----

  function Power256(k: nat): (r: nat)
    ensures r > 0
  {
    if k == 0 then 1 else 256 * Power256(k - 1)
  }

  /** `n.to_bytes(k, "big")`. */
  function ToBytes(n: nat, k: nat): (r: seq<Byte>)
    ensures |r| == k
  {
    if k == 0 then [] else ToBytes(n / 256, k - 1) + [n % 256]
  }

  /** `int.from_bytes(s, "big")`. */
  function FromBytes(s: seq<Byte>): nat {
    if s == [] then 0 else 256 * FromBytes(s[..|s| - 1]) + s[|s| - 1]
  }

  lemma {:induction false} BytesRoundTrip(n: nat, k: nat)
    requires n < Power256(k)
    ensures FromBytes(ToBytes(n, k)) == n
  {
    if k > 0 {
      var s := ToBytes(n, k);
      assert n / 256 < Power256(k - 1);
      BytesRoundTrip(n / 256, k - 1);
      assert s[..k - 1] == ToBytes(n / 256, k - 1);
    }
  }

  function BitXor(a: nat, b: nat): nat {
    if a == b then 0 else 1
  }

  /** Bitwise exclusive or of the low `bits` bits. */
  function XorBits(a: nat, b: nat, bits: nat): (r: nat)
    ensures r < Power2(bits)
  {
    if bits == 0 then 0 else 2 * XorBits(a / 2, b / 2, bits - 1) + BitXor(a % 2, b % 2)
  }

  function Power2(k: nat): (r: nat)
    ensures r > 0
  {
    if k == 0 then 1 else 2 * Power2(k - 1)
  }

  function Xor(a: Byte, b: Byte): Byte {
    assert Power2(8) == 256;
    XorBits(a, b, 8)
  }

  lemma Halves(r: nat, bit: nat)
    requires bit < 2
    ensures (2 * r + bit) / 2 == r && (2 * r + bit) % 2 == bit
  {}

  lemma {:induction false} XorBitsTwice(a: nat, b: nat, bits: nat)
    requires a < Power2(bits)
    ensures XorBits(XorBits(a, b, bits), b, bits) == a
  {
    if bits > 0 {
      XorBitsTwice(a / 2, b / 2, bits - 1);
      Halves(XorBits(a / 2, b / 2, bits - 1), BitXor(a % 2, b % 2));
    }
  }

  function Mask(payload: seq<Byte>, key: seq<Byte>): (r: seq<Byte>)
    requires |key| == 4
    ensures |r| == |payload|
  {
    seq(|payload|, k requires 0 <= k < |payload| => Xor(payload[k], key[k % 4]))
  }

  /** Masking twice with one key gives the payload back. */
  lemma MaskTwice(payload: seq<Byte>, key: seq<Byte>)
    requires |key| == 4
    ensures Mask(Mask(payload, key), key) == payload
  {
    forall k | 0 <= k < |payload|
      ensures Mask(Mask(payload, key), key)[k] == payload[k]
    {
      assert Power2(8) == 256;
      XorBitsTwice(payload[k], key[k % 4], 8);
    }
  }

  // ----- Encoding -----

  function LengthHeader(length: nat): seq<Byte>
    requires length < Power256(8)
  {
    if length < 126 then [0x80 + length]
    else if length <= 0xFFFF then [0xFE] + ToBytes(length, 2)
    else [0xFF] + ToBytes(length, 8)
  }

  /** An empty key counts as none: the random one is used. */
  function KeyFor(maskKey: Option<seq<Byte>>, random: seq<Byte>): seq<Byte> {
    if maskKey.Some? && maskKey.value != [] then maskKey.value else random
  }

  /** `encode_client_frame`, with the operating system's four random bytes as an input. */
  function Encode(payload: seq<Byte>, maskKey: Option<seq<Byte>>, random: seq<Byte>, opcode: int): Result<seq<Byte>, FrameError> {
    if !(0 <= opcode <= 0x0F) then Err(BadOpcode)
    else if |KeyFor(maskKey, random)| != 4 then Err(BadKey)
    else if |payload| >= Power256(8) then Err(TooLong)
    else
      var key := KeyFor(maskKey, random);
      Ok([0x80 + opcode % 16] + LengthHeader(|payload|) + key + Mask(payload, key))
  }

  // ----- Reading -----

  datatype Parsed = Parsed(frame: Frame, rest: seq<Byte>)

  predicate HighBit(b: Byte) {
    b >= 0x80
  }

  /** The bytes of extended length a second header byte asks for. */
  function Extension(head: Byte): nat {
    if head % 0x80 == 126 then 2 else if head % 0x80 == 127 then 8 else 0
  }

  function PayloadLength(head: Byte, extension: seq<Byte>): nat {
    if extension == [] then head % 0x80 else FromBytes(extension)
  }

  function MaskStart(s: seq<Byte>): nat
    requires |s| >= 2
  {
    2 + Extension(s[1])
  }

  function PayloadStart(s: seq<Byte>): nat
    requires |s| >= 2
  {
    MaskStart(s) + (if HighBit(s[1]) then 4 else 0)
  }

  function LengthOf(s: seq<Byte>): nat
    requires |s| >= 2 && |s| >= MaskStart(s)
  {
    PayloadLength(s[1], s[2..MaskStart(s)])
  }

  /** The frame whose bytes are all there. */
  function FrameAt(s: seq<Byte>): Frame
    requires |s| >= 2 && |s| >= MaskStart(s) && |s| >= PayloadStart(s) + LengthOf(s)
  {
    var raw := s[PayloadStart(s)..PayloadStart(s) + LengthOf(s)];
    Frame(s[0] % 16, HighBit(s[0]), if HighBit(s[1]) then Mask(raw, s[MaskStart(s)..PayloadStart(s)]) else raw)
  }

  /** `read_server_frame` on the bytes that are still to come. */
  function Parse(s: seq<Byte>): (r: Result<Parsed, FrameError>)
    ensures r.Ok? ==> |r.value.rest| + 2 <= |s|
  {
    if |s| < 2 || |s| < MaskStart(s) then Err(Incomplete)
    else if LengthOf(s) > MAX_PAYLOAD then Err(TooLarge)
    else if |s| < PayloadStart(s) + LengthOf(s) then Err(Incomplete)
    else Ok(Parsed(FrameAt(s), s[PayloadStart(s) + LengthOf(s)..]))
  }

  lemma SameHeader(s: seq<Byte>, t: seq<Byte>)
    requires |s| >= 2 && |s| >= MaskStart(s)
    ensures MaskStart(s + t) == MaskStart(s) && PayloadStart(s + t) == PayloadStart(s) && LengthOf(s + t) == LengthOf(s)
  {
    hide PayloadLength, Extension, HighBit;
    assert (s + t)[1] == s[1];
    assert (s + t)[2..MaskStart(s)] == s[2..MaskStart(s)];
  }

  /** Bytes that come later change nothing about a frame that can be read. */
  lemma LaterBytesDoNotMatter(s: seq<Byte>, t: seq<Byte>)
    requires Parse(s).Ok?
    ensures Parse(s + t) == Ok(Parsed(Parse(s).value.frame, Parse(s).value.rest + t))
  {
    SameHeader(s, t);
    var mask, start, end := MaskStart(s), PayloadStart(s), PayloadStart(s) + LengthOf(s);
    SameSlice(s, t, mask, start);
    SameSlice(s, t, start, end);
    hide Mask, LengthOf, Extension;
    assert (s + t)[0] == s[0] && (s + t)[1] == s[1];
    assert (s + t)[end..] == s[end..] + t;
  }

  lemma SameSlice(s: seq<Byte>, t: seq<Byte>, from: nat, to: nat)
    requires from <= to <= |s|
    ensures (s + t)[from..to] == s[from..to]
  {}

  /** The header of an encoded length is read back as that length. */
  lemma LengthRoundTrip(length: nat)
    requires length <= MAX_PAYLOAD
    ensures length < Power256(8)
    ensures var h := LengthHeader(length);
            && |h| >= 1 && HighBit(h[0]) && |h| == 1 + Extension(h[0])
            && PayloadLength(h[0], h[1..]) == length
  {
    PowersGrow();
    if length >= 126 && length <= 0xFFFF {
      BytesRoundTrip(length, 2);
      assert LengthHeader(length)[1..] == ToBytes(length, 2);
    } else if length > 0xFFFF {
      BytesRoundTrip(length, 8);
      assert LengthHeader(length)[1..] == ToBytes(length, 8);
    }
  }

  lemma PowersGrow()
    ensures Power256(2) == 65_536 && Power256(8) > 4_000_000
  {
    assert Power256(3) == 16_777_216;
    assert Power256(4) >= Power256(3) && Power256(6) >= Power256(4) && Power256(8) >= Power256(6);
  }

  /** One encoded frame is read back whole, with nothing left over. */
  lemma FrameRoundTrip(payload: seq<Byte>, maskKey: Option<seq<Byte>>, random: seq<Byte>, opcode: int)
    requires Encode(payload, maskKey, random, opcode).Ok? && |payload| <= MAX_PAYLOAD
    ensures Parse(Encode(payload, maskKey, random, opcode).value) == Ok(Parsed(Frame(opcode, true, payload), []))
  {
    hide Mask, FromBytes, ToBytes;
    var key := KeyFor(maskKey, random);
    LengthRoundTrip(|payload|);
    MaskTwice(payload, key);
    var header := LengthHeader(|payload|);
    hide LengthHeader, Power256;
    MaskedFrame(0x80 + opcode, header, key, Mask(payload, key));
  }

  /** Where the parts of a masked frame lie. */
  lemma MaskedFrame(first: Byte, header: seq<Byte>, key: seq<Byte>, masked: seq<Byte>)
    requires |header| >= 1 && HighBit(header[0]) && |header| == 1 + Extension(header[0])
    requires |key| == 4 && PayloadLength(header[0], header[1..]) == |masked| <= MAX_PAYLOAD
    ensures Parse([first] + header + key + masked) == Ok(Parsed(Frame(first % 16, HighBit(first), Mask(masked, key)), []))
  {
    hide Mask, FromBytes, Extension;
    var s := [first] + header + key + masked;
    var start := 1 + |header| + 4;
    assert s[1] == header[0] && s[2..1 + |header|] == header[1..];
    assert s[start - 4..start] == key && s[start..start + |masked|] == masked && s[start + |masked|..] == [];
  }

  // ----- Streams of frames -----

  datatype Message = Message(payload: seq<Byte>, maskKey: Option<seq<Byte>>, random: seq<Byte>, opcode: int)

  predicate Sendable(m: Message) {
    && |m.payload| <= MAX_PAYLOAD && 0 <= m.opcode <= 0x0F && |KeyFor(m.maskKey, m.random)| == 4
  }

  /** Exactly the payloads, opcodes and keys the encoder accepts, up to the reader's size limit. */
  lemma SendableEncodes(m: Message)
    requires |m.payload| <= MAX_PAYLOAD
    ensures Encode(m.payload, m.maskKey, m.random, m.opcode).Ok? <==> Sendable(m)
  {
    hide Power256;
    LengthRoundTrip(|m.payload|);
  }

  function Wire(ms: seq<Message>): seq<Byte>
    requires forall k :: 0 <= k < |ms| ==> Sendable(ms[k])
  {
    if ms == [] then []
    else
      var e := Encode(ms[0].payload, ms[0].maskKey, ms[0].random, ms[0].opcode);
      (if e.Ok? then e.value else []) + Wire(ms[1..])
  }

  /** Reads frames until the stream is used up. */
  function ReadAll(s: seq<Byte>): Result<seq<Frame>, FrameError>
    decreases |s|
  {
    if s == [] then Ok([])
    else
      var first := Parse(s);
      if first.Err? then Err(first.error)
      else
        var others := ReadAll(first.value.rest);
        if others.Err? then others else Ok([first.value.frame] + others.value)
  }

  function Frames(ms: seq<Message>): (r: seq<Frame>)
    requires forall k :: 0 <= k < |ms| ==> Sendable(ms[k])
  {
    seq(|ms|, k requires 0 <= k < |ms| => assert Sendable(ms[k]); Frame(ms[k].opcode, true, ms[k].payload))
  }

  /** Any list of encoded frames, one after the other, is read back as the same opcodes and
      payloads with the final bit set, and exactly all the bytes are consumed. */
  lemma {:induction false} StreamRoundTrip(ms: seq<Message>)
    requires forall k :: 0 <= k < |ms| ==> Sendable(ms[k])
    ensures ReadAll(Wire(ms)) == Ok(Frames(ms))
  {
    if ms == [] {
      assert Frames(ms) == [];
    } else {
      var m, later := ms[0], Wire(ms[1..]);
      assert Sendable(m);
      SendableEncodes(m);
      var s := Encode(m.payload, m.maskKey, m.random, m.opcode).value;
      FrameRoundTrip(m.payload, m.maskKey, m.random, m.opcode);
      hide Encode, Parse, Frames;
      StreamRoundTrip(ms[1..]);
      LaterBytesDoNotMatter(s, later);
      assert [] + later == later;
      assert s + later != [] by { ReadableIsNotEmpty(s + later); }
      FramesHead(ms);
    }
  }

  lemma FramesHead(ms: seq<Message>)
    requires ms != [] && forall k :: 0 <= k < |ms| ==> Sendable(ms[k])
    ensures Frames(ms) == [Frame(ms[0].opcode, true, ms[0].payload)] + Frames(ms[1..])
  {}

  lemma ReadableIsNotEmpty(s: seq<Byte>)
    requires Parse(s).Ok?
    ensures s != []
  {}

  // ----- The reader -----

  /** The mask and the payload, counted from the end of the header. */
  lemma BodyLies(s: seq<Byte>)
    requires |s| >= 2 && |s| >= MaskStart(s) && |s| >= PayloadStart(s) + LengthOf(s)
    ensures var b, start, n := s[MaskStart(s)..], PayloadStart(s) - MaskStart(s), LengthOf(s);
            && (HighBit(s[1]) ==> b[4..4 + n] == s[PayloadStart(s)..PayloadStart(s) + n] && b[..4] == s[MaskStart(s)..PayloadStart(s)])
            && (!HighBit(s[1]) ==> b[..n] == s[PayloadStart(s)..PayloadStart(s) + n])
            && b[start + n..] == s[PayloadStart(s) + n..]
  {
    hide PayloadLength, Extension;
  }

  /** The bytes of a connection, consumed from the front. */
  class Reader {
    var data: seq<Byte>

    constructor (data: seq<Byte>)
      ensures this.data == data
    {
      this.data := data;
    }

    method ReadExactly(n: nat) returns (r: Result<seq<Byte>, FrameError>)
      modifies this
      ensures if n <= |old(data)| then r == Ok(old(data)[..n]) && data == old(data)[n..] else r == Err(Incomplete) && data == []
    {
      if |data| < n {
        data := [];
        return Err(Incomplete);
      }
      r := Ok(data[..n]);
      data := data[n..];
    }

    /** Both header bytes and the extended length. */
    method ReadHeader() returns (r: Result<(Byte, Byte, nat), FrameError>)
      modifies this
      ensures var s := old(data);
              if |s| < 2 || |s| < MaskStart(s) then r == Err(Incomplete) && data == []
              else r == Ok((s[0], s[1], LengthOf(s))) && data == s[MaskStart(s)..]
    {
      ghost var s := data;
      var head := ReadExactly(2);
      if head.Err? { return Err(Incomplete); }
      var first, second := head.value[0], head.value[1];
      var length := second % 0x80;
      hide FromBytes;
      if length == 126 {
        var extension := ReadExactly(2);
        if extension.Err? { return Err(Incomplete); }
        assert extension.value == s[2..4];
        length := FromBytes(extension.value);
      } else if length == 127 {
        var extension := ReadExactly(8);
        if extension.Err? { return Err(Incomplete); }
        assert extension.value == s[2..10];
        length := FromBytes(extension.value);
      }
      return Ok((first, second, length));
    }

    /** The mask, if any, and the payload. */
    method ReadBody(masked: bool, length: nat) returns (r: Result<seq<Byte>, FrameError>)
      modifies this
      ensures var s, start := old(data), if masked then 4 else 0;
              if |s| < start + length then r == Err(Incomplete)
              else r == Ok(if masked then Mask(s[4..4 + length], s[..4]) else s[..length]) && data == s[start + length..]
    {
      hide Mask;
      ghost var s := data;
      var mask: seq<Byte> := [];
      if masked {
        var key := ReadExactly(4);
        if key.Err? { return Err(Incomplete); }
        mask := key.value;
      }
      var payload := ReadExactly(length);
      if payload.Err? { return Err(Incomplete); }
      if mask == [] { return Ok(payload.value); }
      assert payload.value == s[4..4 + length];
      var unmasked := Unmask(payload.value, mask);
      return Ok(unmasked);
    }

    /** `read_server_frame`. */
    method ReadServerFrame() returns (r: Result<Frame, FrameError>)
      modifies this
      ensures match Parse(old(data))
              case Err(e) => r == Err(e)
              case Ok(p) => r == Ok(p.frame) && data == p.rest
    {
      hide Mask, PayloadLength, Extension;
      ghost var s := data;
      var header := ReadHeader();
      if header.Err? { return Err(Incomplete); }
      var (first, second, length) := header.value;
      if length > 2_000_000 { return Err(TooLarge); }
      var body := ReadBody(second >= 0x80, length);
      if body.Err? { return Err(Incomplete); }
      BodyLies(s);
      return Ok(Frame(first % 16, first >= 0x80, body.value));
    }

    method Unmask(payload: seq<Byte>, mask: seq<Byte>) returns (r: seq<Byte>)
      requires |mask| == 4
      ensures r == Mask(payload, mask)
    {
      r := [];
      var k := 0;
      while k < |payload|
        invariant 0 <= k <= |payload| && r == Mask(payload, mask)[..k]
      {
        r := r + [Xor(payload[k], mask[k % 4])];
        k := k + 1;
      }
    }
  }
}
