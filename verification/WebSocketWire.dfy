/**
The octets of `WebSocket.dfy` against RFC 6455 itself: what masking does to each bit
(section 5.3), the byte order of lengths (section 5.2), and the RFC's own examples (section 5.7).
*/
module WebSocketWire {
  import opened Bytes
  import opened WebSocket

  // ---------------------------------------------------------------- masking

  /** Bit `k` of a number, counted from the lowest. */
  function Bit(x: nat, k: nat): nat {
    if k == 0 then x % 2 else Bit(x / 2, k - 1)
  }

  lemma {:induction false} XorBit(n: nat, a: nat, b: nat, k: nat)
    requires k < n
    ensures Bit(XorBits(n, a, b), k) == 1 <==> Bit(a, k) != Bit(b, k)
    decreases n
  {
    var high, low := XorBits(n - 1, a / 2, b / 2), (a % 2 + b % 2) % 2;
    HighAndLow(high, low);
    if k > 0 { XorBit(n - 1, a / 2, b / 2, k - 1); }
  }

  /** Bits are the digits of a number in base two. */
  function FromBits(x: nat, n: nat): nat {
    if n == 0 then 0 else FromBits(x, n - 1) + Bit(x, n - 1) * Pow2(n - 1)
  }

  lemma {:induction false} DigitsAdd(x: nat, n: nat)
    ensures FromBits(x, n + 1) == x % 2 + 2 * FromBits(x / 2, n)
  {
    if n > 0 { DigitsAdd(x, n - 1); }
  }

  lemma {:induction false} BitsAreDigits(x: nat, n: nat)
    requires x < Pow2(n)
    ensures FromBits(x, n) == x
  {
    if n > 0 {
      BitsAreDigits(x / 2, n - 1);
      DigitsAdd(x, n - 1);
    }
  }

  /** Masking is exclusive or, octet by octet and bit by bit: a bit of the result is set exactly
      where the payload and the key octet of that position, modulo four, differ. */
  lemma MaskIsExclusiveOr(payload: seq<Byte>, key: seq<Byte>, i: nat, k: nat)
    requires |key| == 4 && i < |payload| && k < 8
    ensures Bit(Masked(payload, key)[i], k) == 1 <==> Bit(payload[i], k) != Bit(key[i % 4], k)
    ensures FromBits(Masked(payload, key)[i], 8) == Masked(payload, key)[i]
  {
    XorBit(8, payload[i], key[i % 4], k);
    assert Pow2(8) == 256;
    BitsAreDigits(Masked(payload, key)[i], 8);
  }

  // ---------------------------------------------------------------- byte order

  /** The first octet of a number counts most. */
  lemma {:induction false} FirstCountsMost(b: seq<Byte>)
    requires b != []
    ensures Number(b) == b[0] * Pow256(|b| - 1) + Number(b[1..])
  {
    var n := |b| - 1;
    if n > 0 {
      FirstCountsMost(b[..n]);
      assert b[..n][1..] == b[1..][..n - 1] && b[1..][n - 1] == b[n];
      assert Pow256(n) == 256 * Pow256(n - 1);
    }
  }

  // ---------------------------------------------------------------- what is not read

  /** A client's frame is read only once it is there whole. */
  lemma PrefixIncomplete(first: Byte, form: Form, payload: seq<Byte>, key: seq<Byte>, s: seq<Byte>)
    requires form.Fits(|payload|) && |key| == 4 && s < Wire(first, form, payload, key)
    ensures ParseOne(s).Incomplete?
  {
    var w := Wire(first, form, payload, key);
    WireReadsBack(first, form, payload, key, []);
    assert w + [] == w && s + w[|s|..] == w;
    hide ParseOne, Wire;
    if !ParseOne(s).Incomplete? { ParseKept(s, w[|s|..]); }
  }

  function Unmasked(first: Byte, form: Form, payload: seq<Byte>): seq<Byte>
    requires form.Fits(|payload|)
  {
    [first] + Lengths(form, false, |payload|) + payload
  }

  lemma UnmaskedHead(first: Byte, form: Form, payload: seq<Byte>, rest: seq<Byte>)
    requires form.Fits(|payload|)
    ensures HeadOf(Unmasked(first, form, payload) + rest) == Head(false, |payload|, |Lengths(form, false, |payload|)| + 1)
  {
    var lengths, b := Lengths(form, false, |payload|), Unmasked(first, form, payload) + rest;
    assert |b| == 1 + |lengths| + |payload| + |rest| && b[1] == lengths[0] && b[2..1 + |lengths|] == lengths[1..] by {
      hide Lengths;
      assert b == [first] + lengths + payload + rest;
    }
    UnmaskedLength(form, |payload|);
    hide Lengths, Unmasked, Number;
  }

  lemma UnmaskedLength(form: Form, len: nat)
    requires form.Fits(len)
    ensures var b := Lengths(form, false, len);
      match form
      case Short => b == [len]
      case Medium => |b| == 3 && b[0] == 126 && Number(b[1..]) == len
      case Long => |b| == 9 && b[0] == 127 && Number(b[1..]) == len
  {
    if form.Medium? {
      assert Pow256(2) == 0x1_0000;
      NumberThere(2, len);
      assert Lengths(form, false, len)[1..] == NumberBytes(2, len);
    } else if form.Long? {
      assert Pow256(8) > MAX_SAFE;
      NumberThere(8, len);
      assert Lengths(form, false, len)[1..] == NumberBytes(8, len);
    }
  }

  /** A frame without a mask is never read, whatever its length and form: the stream is broken as
      soon as it is there whole (section 5.1). What the server itself sends is such a frame. */
  lemma UnmaskedRefused(first: Byte, form: Form, payload: seq<Byte>, rest: seq<Byte>)
    requires form.Fits(|payload|)
    ensures ParseOne(Unmasked(first, form, payload) + rest).Malformed?
    ensures forall s | s < Unmasked(first, form, payload) :: ParseOne(s).Incomplete?
  {
    UnmaskedHead(first, form, payload, rest);
    var w := Unmasked(first, form, payload);
    forall s | s < w ensures ParseOne(s).Incomplete? { UnmaskedShort(first, form, payload, s); }
  }

  lemma UnmaskedShort(first: Byte, form: Form, payload: seq<Byte>, s: seq<Byte>)
    requires form.Fits(|payload|) && s < Unmasked(first, form, payload)
    ensures ParseOne(s).Incomplete?
  {
    var w := Unmasked(first, form, payload);
    UnmaskedHead(first, form, payload, []);
    assert w + [] == w && s + w[|s|..] == w;
    hide HeadOf, Unmasked;
    if !HeadOf(s).NoHead? { HeadKept(s, w[|s|..]); }
  }

  // ---------------------------------------------------------------- the examples of section 5.7

  const HELLO: seq<Byte> := [0x48, 0x65, 0x6c, 0x6c, 0x6f]
  const KEY: seq<Byte> := [0x37, 0xfa, 0x21, 0x3d]

  /** A single-frame masked text message, which contains "Hello". */
  lemma MaskedHello()
    ensures ParseOne([0x81, 0x85, 0x37, 0xfa, 0x21, 0x3d] + Masked(HELLO, KEY)) == Whole(Frame(true, 1, HELLO), 11)
  {
    hide Masked;
    var w := [0x81, 0x85, 0x37, 0xfa, 0x21, 0x3d] + Masked(HELLO, KEY);
    assert Wire(0x81, Short, HELLO, KEY) == w && w + [] == w;
    WireReadsBack(0x81, Short, HELLO, KEY, []);
  }

  /** A single-frame unmasked text message; and the headers of binary messages of 256 bytes and of
      64 KiB. */
  lemma ServerHeaders()
    ensures Unmasked(0x81, Shortest(5), HELLO) == [0x81, 0x05, 0x48, 0x65, 0x6c, 0x6c, 0x6f]
    ensures [0x82] + Lengths(Shortest(256), false, 256) == [0x82, 0x7E, 0x01, 0x00]
    ensures [0x82] + Lengths(Shortest(65536), false, 65536) == [0x82, 0x7F, 0x00, 0x00, 0x00, 0x00, 0x00, 0x01, 0x00, 0x00]
  {
    LengthOctets();
    hide NumberBytes;
  }

  lemma LengthOctets()
    ensures NumberBytes(2, 256) == [1, 0] && NumberBytes(8, 65536) == [0, 0, 0, 0, 0, 1, 0, 0]
  {
    hide NumberBytes;
    NoughtBytes(0);
    NoughtBytes(5);
    NumberStep(0, 1);
    NumberStep(1, 256);
    NumberStep(5, 1);
    NumberStep(6, 256);
    NumberStep(7, 65536);
  }

  lemma NumberStep(n: nat, v: nat)
    ensures NumberBytes(n + 1, v) == NumberBytes(n, v / 256) + [v % 256]
  {
  }

  lemma {:induction false} NoughtBytes(n: nat)
    ensures NumberBytes(n, 0) == seq(n, i => 0)
  {
    if n > 0 { NoughtBytes(n - 1); }
  }
}
