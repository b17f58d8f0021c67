/** Where every bit of a frame lies on the wire: sections 5.2 and 5.3 of RFC 6455, as
    app/earnapp_probe.py:105-145 writes and reads them. */
module FrameLayout {
  import opened Wrappers
  import opened WebSocketFrames

  // ----- Big-endian integers -----

  lemma {:induction false} DivideTwice(n: nat, k: nat)
    ensures n / 256 / Power256(k) == n / Power256(k + 1)
  {
    var p, q := Power256(k), n / 256 / Power256(k);
    var r, s := n / 256 - q * p, n % 256;
    assert 0 <= r < p;
    assert n == q * (256 * p) + (256 * r + s);
    assert 256 * r + s < 256 * p;
    Quotient(n, Power256(k + 1), q, 256 * r + s);
  }

  lemma Quotient(n: int, d: int, q: int, r: int)
    requires d > 0 && n == q * d + r && 0 <= r < d
    ensures n / d == q
  {
    var x := n / d - q;
    assert x * d == r - n % d;
    assert x >= 1 ==> x * d >= d;
    assert x <= -1 ==> x * d + d <= 0;
  }

  /** The most significant byte comes first. */
  lemma {:induction false} ToBytesAt(n: nat, k: nat, j: nat)
    requires j < k
    ensures ToBytes(n, k)[j] == n / Power256(k - 1 - j) % 256
  {
    if j < k - 1 {
      ToBytesAt(n / 256, k - 1, j);
      DivideTwice(n, k - 2 - j);
    } else {
      assert Power256(0) == 1;
    }
  }

  /** The sum of s[i] * 256^(|s| - 1 - i) from i = j on. */
  function Weighted(s: seq<Byte>, j: nat): nat
    requires j <= |s|
    decreases |s| - j
  {
    if j == |s| then 0 else s[j] * Power256(|s| - 1 - j) + Weighted(s, j + 1)
  }

  lemma {:induction false} WeightedLonger(s: seq<Byte>, b: Byte, j: nat)
    requires j <= |s|
    ensures Weighted(s + [b], j) == 256 * Weighted(s, j) + b
    decreases |s| - j
  {
    if j < |s| {
      WeightedLonger(s, b, j + 1);
      assert (s + [b])[j] == s[j];
      var x, p := s[j], Power256(|s| - 1 - j);
      assert Power256(|s| - j) == 256 * p;
      assert x * (256 * p) == 256 * (x * p);
    } else {
      assert Power256(0) == 1;
      assert Weighted(s + [b], |s| + 1) == 0;
    }
  }

  lemma {:induction false} FromBytesSum(s: seq<Byte>)
    ensures FromBytes(s) == Weighted(s, 0)
  {
    if s != [] {
      FromBytesSum(s[..|s| - 1]);
      WeightedLonger(s[..|s| - 1], s[|s| - 1], 0);
      assert s[..|s| - 1] + [s[|s| - 1]] == s;
    }
  }

  lemma TwoBytes(s: seq<Byte>)
    requires |s| == 2
    ensures FromBytes(s) == 256 * (s[0] as int) + s[1]
  {
    FromBytesSum(s);
    assert Power256(1) == 256 && Power256(0) == 1;
    assert Weighted(s, 2) == 0 && Weighted(s, 1) == s[1];
  }

  // ----- Bits -----

  function Bit(n: nat, b: nat): nat {
    n / Power2(b) % 2
  }

  lemma {:induction false} HalveTwice(n: nat, k: nat)
    ensures n / 2 / Power2(k) == n / Power2(k + 1)
  {
    var p, q := Power2(k), n / 2 / Power2(k);
    var r, s := n / 2 - q * p, n % 2;
    assert 0 <= r < p;
    assert n == q * (2 * p) + (2 * r + s);
    Quotient(n, Power2(k + 1), q, 2 * r + s);
  }

  lemma {:induction false} XorBitsAt(a: nat, b: nat, bits: nat, k: nat)
    requires k < bits
    ensures Bit(XorBits(a, b, bits), k) == 1 <==> Bit(a, k) != Bit(b, k)
  {
    var r := XorBits(a / 2, b / 2, bits - 1);
    Halves(r, BitXor(a % 2, b % 2));
    if k == 0 {
      assert Power2(0) == 1;
    } else {
      XorBitsAt(a / 2, b / 2, bits - 1, k - 1);
      HalveTwice(a, k - 1);
      HalveTwice(b, k - 1);
      HalveTwice(XorBits(a, b, bits), k - 1);
    }
  }

  /** `masked` is `raw` with the key over it: each bit is set exactly if one of the two has it. */
  ghost predicate MaskedBy(masked: seq<Byte>, raw: seq<Byte>, key: seq<Byte>) {
    && |masked| == |raw| && |key| == 4
    && forall k, b: nat :: 0 <= k < |raw| && b < 8 ==> (Bit(masked[k], b) == 1 <==> Bit(raw[k], b) != Bit(key[k % 4], b))
  }

  lemma MaskBits(payload: seq<Byte>, key: seq<Byte>)
    requires |key| == 4
    ensures MaskedBy(Mask(payload, key), payload, key)
  {
    forall k, b: nat | 0 <= k < |payload| && b < 8
      ensures Bit(Mask(payload, key)[k], b) == 1 <==> Bit(payload[k], b) != Bit(key[k % 4], b)
    {
      XorBitsAt(payload[k], key[k % 4], 8, b);
    }
  }

  // ----- The encoder -----

  const K16 := 65_536

  /** The bytes that hold the length, after the first byte. */
  ghost predicate LengthBytes(h: seq<Byte>, n: nat) {
    if n < 126 then h == [128 + n]
    else if n < K16 then h == [254, n / 256, n % 256]
    else |h| == 9 && h[0] == 255 && forall j :: 1 <= j < 9 ==> h[j] == n / Power256(8 - j) % 256
  }

  lemma HeaderBytes(n: nat)
    requires n < Power256(8)
    ensures LengthBytes(LengthHeader(n), n)
  {
    if 126 <= n < K16 {
      ToBytesAt(n, 2, 0);
      ToBytesAt(n, 2, 1);
      assert Power256(1) == 256 && Power256(0) == 1;
    } else if K16 <= n {
      forall j | 1 <= j < 9
        ensures LengthHeader(n)[j] == n / Power256(8 - j) % 256
      {
        ToBytesAt(n, 8, j - 1);
      }
    }
  }

  /** A frame on the wire: final bit and opcode, mask bit and length, key, masked payload. */
  lemma EncodedLayout(payload: seq<Byte>, maskKey: Option<seq<Byte>>, random: seq<Byte>, opcode: int)
    requires Encode(payload, maskKey, random, opcode).Ok?
    ensures var s := Encode(payload, maskKey, random, opcode).value;
            var key := if maskKey.Some? && maskKey.value != [] then maskKey.value else random;
            var n := if |payload| < 126 then 1 else if |payload| < K16 then 3 else 9;
            && 0 <= opcode <= 15 && |key| == 4
            && |s| == 1 + n + 4 + |payload|
            && s[0] == 128 + opcode
            && LengthBytes(s[1..1 + n], |payload|)
            && s[1 + n..5 + n] == key
            && MaskedBy(s[5 + n..], payload, key)
  {
    var key := KeyFor(maskKey, random);
    HeaderBytes(|payload|);
    MaskBits(payload, key);
    var h := LengthHeader(|payload|);
    var m := Mask(payload, key);
    hide Mask, LengthHeader, MaskedBy, LengthBytes;
    var s := [0x80 + opcode % 16] + h + key + m;
    assert |h| == (if |payload| < 126 then 1 else if |payload| < K16 then 3 else 9) by { HeaderLength(|payload|); }
    assert s[1..1 + |h|] == h && s[1 + |h|..5 + |h|] == key && s[5 + |h|..] == m;
  }

  lemma HeaderLength(n: nat)
    requires n < Power256(8)
    ensures |LengthHeader(n)| == if n < 126 then 1 else if n < K16 then 3 else 9
  {}

  // ----- The reader -----

  /** How many bytes the header takes, without the mask. */
  function HeaderSize(s: seq<Byte>): nat
    requires |s| >= 2
  {
    if s[1] % 128 == 126 then 4 else if s[1] % 128 == 127 then 10 else 2
  }

  function WireLength(s: seq<Byte>): nat
    requires |s| >= 2 && |s| >= HeaderSize(s)
  {
    if s[1] % 128 == 126 then 256 * (s[2] as int) + s[3] else if s[1] % 128 == 127 then Weighted(s[2..10], 0) else s[1] % 128
  }

  /** The frame at the front of `s`: its bits, its length, and the bytes after header and mask. */
  ghost predicate Holds(s: seq<Byte>, f: Frame, rest: seq<Byte>)
    requires |s| >= 2 && |s| >= HeaderSize(s)
  {
    var masked, n := s[1] >= 128, WireLength(s);
    var start := HeaderSize(s) + (if masked then 4 else 0);
    && start + n <= |s| && rest == s[start + n..]
    && f.opcode == s[0] % 16 && (f.final <==> s[0] >= 128)
    && (if masked then MaskedBy(f.payload, s[start..start + n], s[start - 4..start]) else f.payload == s[start..start + n])
  }

  /** The reader gives the frame that the bits spell out, fails on one of more than 2,000,000 bytes as
      too large, and on missing bytes as incomplete. */
  lemma ReadLayout(s: seq<Byte>)
    ensures if |s| < 2 || |s| < HeaderSize(s) then Parse(s) == Err(Incomplete)
            else if WireLength(s) > 2_000_000 then Parse(s) == Err(TooLarge)
            else if |s| < HeaderSize(s) + (if s[1] >= 128 then 4 else 0) + WireLength(s) then Parse(s) == Err(Incomplete)
            else Parse(s).Ok? && Holds(s, Parse(s).value.frame, Parse(s).value.rest)
  {
    if |s| >= 2 && |s| >= HeaderSize(s) {
      LengthIs(s);
      hide LengthOf, WireLength, Mask, MaskedBy;
      var start := HeaderSize(s) + 4;
      if s[1] >= 128 && |s| >= start + LengthOf(s) {
        MaskBits(s[start..start + LengthOf(s)], s[start - 4..start]);
        assert MaskStart(s) == HeaderSize(s);
      }
    }
  }

  lemma LengthIs(s: seq<Byte>)
    requires |s| >= 2 && |s| >= HeaderSize(s)
    ensures LengthOf(s) == WireLength(s)
  {
    if s[1] % 128 == 126 {
      TwoBytes(s[2..4]);
    } else if s[1] % 128 == 127 {
      FromBytesSum(s[2..10]);
    }
  }
}
