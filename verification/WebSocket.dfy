/**
The WebSocket frames of `src/edge/ws/index.ts`: the encoder for frames the server sends, the
parser for the masked frames clients send, and the buffering between socket reads. The wire
format is that of RFC 6455, sections 5.2 and 5.3.
*/
module WebSocket {
  import opened Common
  import opened Bytes

  /** The largest length a JavaScript number holds exactly. */
  const MAX_SAFE: int := 0x1F_FFFF_FFFF_FFFF

  datatype Frame = Frame(fin: bool, opcode: nat, payload: seq<Byte>)

  // ---------------------------------------------------------------- the wire format

  /** Exclusive or of the low `n` bits. */
  function XorBits(n: nat, a: nat, b: nat): nat {
    if n == 0 then 0 else 2 * XorBits(n - 1, a / 2, b / 2) + (a % 2 + b % 2) % 2
  }

  function Pow2(n: nat): nat {
    if n == 0 then 1 else 2 * Pow2(n - 1)
  }

  lemma {:induction false} XorBounded(n: nat, a: nat, b: nat)
    ensures XorBits(n, a, b) < Pow2(n)
  {
    if n > 0 { XorBounded(n - 1, a / 2, b / 2); }
  }

  lemma HighAndLow(high: nat, low: nat)
    requires low < 2
    ensures (2 * high + low) / 2 == high && (2 * high + low) % 2 == low
  {
  }

  lemma {:induction false} XorBitsTwice(n: nat, a: nat, b: nat)
    requires a < Pow2(n)
    ensures XorBits(n, XorBits(n, a, b), b) == a
  {
    if n > 0 {
      XorBitsTwice(n - 1, a / 2, b / 2);
      var high, low := XorBits(n - 1, a / 2, b / 2), (a % 2 + b % 2) % 2;
      HighAndLow(high, low);
      assert (low + b % 2) % 2 == a % 2;
    }
  }

  function Xor(a: Byte, b: Byte): Byte {
    XorBounded(8, a, b);
    assert Pow2(8) == 256;
    XorBits(8, a, b)
  }

  lemma XorTwice(a: Byte, b: Byte)
    ensures Xor(Xor(a, b), b) == a
  {
    assert Pow2(8) == 256;
    XorBitsTwice(8, a, b);
  }

  /** Section 5.3: octet i of the payload is XORed with octet i modulo 4 of the masking key. */
  function Masked(payload: seq<Byte>, key: seq<Byte>): (r: seq<Byte>)
    requires |key| == 4
    ensures |r| == |payload|
  {
    seq(|payload|, i requires 0 <= i < |payload| => Xor(payload[i], key[i % 4]))
  }

  lemma MaskedTwice(payload: seq<Byte>, key: seq<Byte>)
    requires |key| == 4
    ensures Masked(Masked(payload, key), key) == payload
  {
    forall i | 0 <= i < |payload| ensures Masked(Masked(payload, key), key)[i] == payload[i] {
      XorTwice(payload[i], key[i % 4]);
    }
  }

  /** An unsigned number in network byte order. */
  function Number(b: seq<Byte>): nat {
    if b == [] then 0 else Number(b[..|b| - 1]) * 256 + b[|b| - 1]
  }

  function NumberBytes(n: nat, v: nat): (b: seq<Byte>)
    ensures |b| == n
  {
    if n == 0 then [] else NumberBytes(n - 1, v / 256) + [v % 256]
  }

  function Pow256(n: nat): nat {
    if n == 0 then 1 else 256 * Pow256(n - 1)
  }

  lemma {:induction false} NumberThere(n: nat, v: nat)
    requires v < Pow256(n)
    ensures Number(NumberBytes(n, v)) == v
  {
    if n > 0 { NumberThere(n - 1, v / 256); }
  }

  lemma {:induction false} NumberBack(b: seq<Byte>)
    ensures NumberBytes(|b|, Number(b)) == b
  {
    if b != [] {
      NumberBack(b[..|b| - 1]);
      var low := b[|b| - 1];
      assert Number(b) / 256 == Number(b[..|b| - 1]) && Number(b) % 256 == low;
    }
  }

  /** Section 5.2: the length stands in the second octet, or in the two or eight behind it. */
  datatype Form = Short | Medium | Long {
    predicate Fits(len: nat) {
      match this
      case Short => len < 126
      case Medium => len < 0x1_0000
      case Long => len <= MAX_SAFE
    }
  }

  function Lengths(form: Form, masked: bool, len: nat): (b: seq<Byte>)
    requires form.Fits(len)
    ensures b != []
  {
    var mask := if masked then 128 else 0;
    match form
    case Short => [mask + len]
    case Medium => [mask + 126] + NumberBytes(2, len)
    case Long => [mask + 127] + NumberBytes(8, len)
  }

  /** A frame as a client sends it. */
  function Wire(first: Byte, form: Form, payload: seq<Byte>, key: seq<Byte>): seq<Byte>
    requires form.Fits(|payload|) && |key| == 4
  {
    [first] + Lengths(form, true, |payload|) + key + Masked(payload, key)
  }

  function Shortest(len: nat): Form {
    if len < 126 then Short else if len < 0x1_0000 then Medium else Long
  }

  // ---------------------------------------------------------------- one frame

  datatype Parsed = Incomplete | Malformed | Whole(frame: Frame, used: nat)

  /** The header up to the masking key: `cursor` octets. */
  datatype Head = NoHead | TooLarge | Head(masked: bool, len: nat, cursor: nat)

  function HeadOf(b: seq<Byte>): (h: Head)
    ensures h.Head? ==> 2 <= h.cursor <= |b|
  {
    if |b| < 2 then NoHead
    else
      var masked, short := b[1] >= 128, b[1] % 128;
      if (short == 126 && |b| < 4) || (short == 127 && |b| < 10) then NoHead
      else if short < 126 then Head(masked, short, 2)
      else if short == 126 then Head(masked, Number(b[2..4]), 4)
      else if Number(b[2..10]) > MAX_SAFE then TooLarge
      else Head(masked, Number(b[2..10]), 10)
  }

  /** The rest of a frame, whose header takes up `cursor` octets. */
  function ParseBody(b: seq<Byte>, h: Head): (r: Parsed)
    requires h.Head? && 2 <= h.cursor <= |b|
    ensures r.Whole? ==> 2 <= r.used <= |b|
  {
    if h.masked && |b| - h.cursor < 4 then Incomplete
    else
      var body := if h.masked then h.cursor + 4 else h.cursor;
      if |b| - body < h.len then Incomplete
      else if !h.masked then Malformed
      else Whole(Frame(b[0] >= 128, b[0] % 16, Masked(b[body..body + h.len], b[h.cursor..body])), body + h.len)
  }

  /** What stands at the front of the bytes. */
  function ParseOne(b: seq<Byte>): (r: Parsed)
    ensures r.Whole? ==> 2 <= r.used <= |b|
  {
    var h := HeadOf(b);
    if h.NoHead? then Incomplete else if h.TooLarge? then Malformed else ParseBody(b, h)
  }

  lemma HeaderLength(form: Form, len: nat)
    requires form.Fits(len)
    ensures |Lengths(form, true, len)| == (match form case Short => 1 case Medium => 3 case Long => 9)
    ensures form.Medium? ==> Number(Lengths(form, true, len)[1..]) == len
    ensures form.Long? ==> Number(Lengths(form, true, len)[1..]) == len
  {
    if form.Medium? {
      assert Pow256(2) == 0x1_0000;
      NumberThere(2, len);
      assert Lengths(form, true, len)[1..] == NumberBytes(2, len);
    } else if form.Long? {
      assert Pow256(8) > MAX_SAFE;
      NumberThere(8, len);
      assert Lengths(form, true, len)[1..] == NumberBytes(8, len);
    }
  }

  lemma WireParts(first: Byte, form: Form, payload: seq<Byte>, key: seq<Byte>, rest: seq<Byte>)
    requires form.Fits(|payload|) && |key| == 4
    ensures var b := Wire(first, form, payload, key) + rest; var lengths := Lengths(form, true, |payload|); var cursor := 1 + |lengths|;
      && |b| == cursor + 4 + |payload| + |rest| && b[0] == first && b[1] == lengths[0] && b[2..cursor] == lengths[1..]
      && b[cursor..cursor + 4] == key && b[cursor + 4..cursor + 4 + |payload|] == Masked(payload, key)
  {
    hide Lengths;
    var lengths := Lengths(form, true, |payload|);
    var mask := Masked(payload, key);
    var b := Wire(first, form, payload, key) + rest;
    assert b == [first] + lengths + key + mask + rest;
  }

  /** Round trip: a client frame in any of the three length forms, followed by anything, is
      read back with its payload, and what follows is left alone. */
  lemma WireReadsBack(first: Byte, form: Form, payload: seq<Byte>, key: seq<Byte>, rest: seq<Byte>)
    requires form.Fits(|payload|) && |key| == 4
    ensures ParseOne(Wire(first, form, payload, key) + rest) ==
            Whole(Frame(first >= 128, first % 16, payload), |Wire(first, form, payload, key)|)
  {
    HeaderLength(form, |payload|);
    MaskedTwice(payload, key);
    WireParts(first, form, payload, key, rest);
    WireHead(first, form, payload, key, rest);
    hide Masked;
  }

  lemma WireHead(first: Byte, form: Form, payload: seq<Byte>, key: seq<Byte>, rest: seq<Byte>)
    requires form.Fits(|payload|) && |key| == 4
    ensures HeadOf(Wire(first, form, payload, key) + rest) == Head(true, |payload|, 1 + |Lengths(form, true, |payload|)|)
  {
    HeaderLength(form, |payload|);
    WireParts(first, form, payload, key, rest);
    hide Wire, Masked, Number, NumberBytes;
  }

  /** And only client frames are read: whatever the parser takes off the front is the wire form
      of the frame it returns. */
  lemma ReadIsWire(b: seq<Byte>) returns (form: Form, key: seq<Byte>)
    requires ParseOne(b).Whole?
    ensures |key| == 4 && form.Fits(|ParseOne(b).frame.payload|)
    ensures b[..ParseOne(b).used] == Wire(b[0], form, ParseOne(b).frame.payload, key)
  {
    hide HeadOf, Lengths, Masked;
    var h := HeadOf(b);
    form := HeadIsWire(b);
    key := b[h.cursor..h.cursor + 4];
    MaskedTwice(b[h.cursor + 4..h.cursor + 4 + h.len], key);
    Pieces(b, h.cursor, h.cursor + 4, h.cursor + 4 + h.len);
  }

  lemma Pieces(b: seq<Byte>, i: nat, j: nat, k: nat)
    requires i <= j <= k <= |b|
    ensures b[..i] + b[i..j] + b[j..k] == b[..k]
  {
  }

  lemma HeadIsWire(b: seq<Byte>) returns (form: Form)
    requires HeadOf(b).Head? && HeadOf(b).masked
    ensures var h := HeadOf(b); form.Fits(h.len) && b[..h.cursor] == [b[0]] + Lengths(form, true, h.len)
  {
    var short := b[1] % 128;
    form := if short < 126 then Short else if short == 126 then Medium else Long;
    var h := HeadOf(b);
    hide HeadOf;
    NumberBack(b[2..h.cursor]);
    if form.Medium? { NumberBound(b[2..4]); }
    assert b[..h.cursor] == [b[0], b[1]] + b[2..h.cursor];
  }

  lemma {:induction false} NumberBound(b: seq<Byte>)
    ensures Number(b) < Pow256(|b|)
  {
    if b != [] { NumberBound(b[..|b| - 1]); }
  }

  method EncodeFrame(opcode: nat, payload: seq<Byte>) returns (frame: seq<Byte>)
    requires opcode < 16 && |payload| <= MAX_SAFE
    ensures frame == [128 + opcode] + Lengths(Shortest(|payload|), false, |payload|) + payload
  {
    var header := EncodeHeader(opcode, |payload|);
    frame := header + payload;
  }

  method EncodeHeader(opcode: nat, len: nat) returns (bytes: seq<Byte>)
    requires opcode < 16 && len <= MAX_SAFE
    ensures bytes == [128 + opcode] + Lengths(Shortest(len), false, len)
  {
    hide NumberBytes;
    if len < 126 { return [128 + opcode, len]; }
    if len < 65536 {
      var header := new Byte[4];
      header[0], header[1] := 128 + opcode, 126;
      WriteNumber(header, 2, 2, len);
      assert header[..2] == [128 + opcode, 126] && header[..] == header[..2] + header[2..];
      return header[..];
    }
    var header := new Byte[10];
    header[0], header[1] := 128 + opcode, 127;
    WriteNumber(header, 2, 8, len);
    assert header[..2] == [128 + opcode, 127] && header[..] == header[..2] + header[2..];
    return header[..];
  }

  /** Writes a number in network byte order, low octet first. */
  method WriteNumber(a: array<Byte>, at: nat, n: nat, v: nat)
    requires at + n == a.Length
    modifies a
    ensures a[..at] == old(a[..at]) && a[at..] == NumberBytes(n, v)
  {
    var left := v;
    for k := n downto 0
      invariant a[..at] == old(a[..at])
      invariant NumberBytes(k, left) + a[at + k..] == NumberBytes(n, v)
    {
      a[at + k] := left % 256;
      left := left / 256;
    }
  }

  // ---------------------------------------------------------------- a stream of frames

  ghost function Frames(s: seq<Byte>): seq<Frame>
    decreases |s|
  {
    var p := ParseOne(s);
    if p.Whole? then [p.frame] + Frames(s[p.used..]) else []
  }

  /** How many bytes the whole frames at the front take up. */
  ghost function Used(s: seq<Byte>): (n: nat)
    ensures n <= |s|
    decreases |s|
  {
    var p := ParseOne(s);
    if p.Whole? then p.used + Used(s[p.used..]) else 0
  }

  /** Behind its whole frames the stream breaks the protocol. */
  ghost predicate Broken(s: seq<Byte>)
    decreases |s|
  {
    var p := ParseOne(s);
    p.Malformed? || (p.Whole? && Broken(s[p.used..]))
  }

  lemma ParseKept(s: seq<Byte>, t: seq<Byte>)
    requires !ParseOne(s).Incomplete?
    ensures ParseOne(s + t) == ParseOne(s)
  {
    hide Number, Masked;
    HeadKept(s, t);
    var h := HeadOf(s);
    if ParseOne(s).Whole? {
      SliceKept(s, t, h.cursor, h.cursor + 4);
      SliceKept(s, t, h.cursor + 4, h.cursor + 4 + h.len);
    }
  }

  lemma HeadKept(s: seq<Byte>, t: seq<Byte>)
    requires !HeadOf(s).NoHead?
    ensures HeadOf(s + t) == HeadOf(s) && (s + t)[0] == s[0]
  {
    hide Number;
    if s[1] % 128 == 126 { SliceKept(s, t, 2, 4); }
    if s[1] % 128 == 127 { SliceKept(s, t, 2, 10); }
  }

  lemma SliceKept(s: seq<Byte>, t: seq<Byte>, lo: nat, hi: nat)
    requires lo <= hi <= |s|
    ensures (s + t)[lo..hi] == s[lo..hi]
  {
  }

  lemma Regrouped(f: Frame, a: seq<Frame>, b: seq<Frame>)
    ensures [f] + (a + b) == [f] + a + b
  {
  }

  /** Bytes that arrive later are read as if the frames taken so far had not been there. */
  lemma {:induction false} FeedFrames(s: seq<Byte>, t: seq<Byte>)
    ensures if Broken(s) then Broken(s + t) && Frames(s + t) == Frames(s) else
      var rest := s[Used(s)..] + t;
      Frames(s + t) == Frames(s) + Frames(rest) && Used(s + t) == Used(s) + Used(rest) && (Broken(s + t) <==> Broken(rest))
    decreases |s|
  {
    hide ParseOne;
    var p := ParseOne(s);
    if p.Incomplete? {
      assert s[0..] == s;
    } else {
      ParseKept(s, t);
      if p.Whole? {
        var behind := s[p.used..];
        FeedFrames(behind, t);
        assert (s + t)[p.used..] == behind + t;
        assert behind[Used(behind)..] == s[p.used + Used(behind)..];
        Regrouped(p.frame, Frames(behind), Frames(behind[Used(behind)..] + t));
      }
    }
  }

  /** A client's frames, one after the other, are read back as sent. */
  datatype Sent = Sent(first: Byte, form: Form, payload: seq<Byte>, key: seq<Byte>) {
    predicate Valid() { form.Fits(|payload|) && |key| == 4 }
    function Read(): Frame { Frame(first >= 128, first % 16, payload) }
  }

  ghost predicate AllValid(sent: seq<Sent>) {
    forall i | 0 <= i < |sent| :: sent[i].Valid()
  }

  ghost function WireOf(sent: seq<Sent>): seq<Byte>
    requires AllValid(sent)
  {
    if sent == [] then []
    else
      assert sent[0].Valid();
      Wire(sent[0].first, sent[0].form, sent[0].payload, sent[0].key) + WireOf(sent[1..])
  }

  lemma FrameNone()
    ensures Frames([]) == [] && Used([]) == 0 && !Broken([])
  {
  }

  lemma FrameOff(s: seq<Byte>)
    requires ParseOne(s).Whole?
    ensures var p := ParseOne(s); var rest := s[p.used..];
      Frames(s) == [p.frame] + Frames(rest) && Used(s) == p.used + Used(rest) && (Broken(s) <==> Broken(rest))
  {
    hide ParseOne;
  }

  lemma {:induction false} StreamReadsBack(sent: seq<Sent>)
    requires AllValid(sent)
    ensures Frames(WireOf(sent)) == seq(|sent|, i requires 0 <= i < |sent| => sent[i].Read())
    ensures !Broken(WireOf(sent)) && Used(WireOf(sent)) == |WireOf(sent)|
  {
    hide ParseOne, Wire, Frames, Used, Broken;
    FrameNone();
    if sent != [] {
      var f := sent[0];
      assert f.Valid() && AllValid(sent[1..]);
      WireReadsBack(f.first, f.form, f.payload, f.key, WireOf(sent[1..]));
      StreamReadsBack(sent[1..]);
      assert WireOf(sent)[ParseOne(WireOf(sent)).used..] == WireOf(sent[1..]);
      FrameOff(WireOf(sent));
    }
  }

  // ---------------------------------------------------------------- parsing and buffering

  /** The loop over the buffered bytes. It throws at the first malformed frame, and the frames
      before it are then lost with it. */
  method ParseFrames(buf: seq<Byte>) returns (frames: seq<Frame>, consumed: nat, threw: bool)
    ensures threw == Broken(buf)
    ensures !threw ==> frames == Frames(buf) && consumed == Used(buf)
  {
    hide ParseOne;
    frames, threw := [], false;
    var offset := 0;
    while true
      invariant offset <= |buf| && Used(buf) == offset + Used(buf[offset..])
      invariant Frames(buf) == frames + Frames(buf[offset..]) && Broken(buf) == Broken(buf[offset..])
      decreases |buf| - offset
    {
      var parsed := ParseFrame(buf, offset);
      if parsed.Incomplete? { break; }
      if parsed.Malformed? { return frames, offset, true; }
      assert buf[offset..][parsed.used..] == buf[offset + parsed.used..];
      frames, offset := frames + [parsed.frame], offset + parsed.used;
    }
    consumed := offset;
  }

  method ParseHead(buf: seq<Byte>, offset: nat) returns (h: Head)
    requires offset <= |buf|
    ensures h == HeadOf(buf[offset..])
  {
    if |buf| - offset < 2 { return NoHead; }
    var byte1 := buf[offset + 1];
    var payloadLen, cursor := byte1 % 128, offset + 2;
    if payloadLen == 126 {
      if |buf| - cursor < 2 { return NoHead; }
      SliceOfDrop(buf, offset, 2, 4);
      payloadLen := ReadNumber(buf, cursor, 2);
      cursor := cursor + 2;
    } else if payloadLen == 127 {
      if |buf| - cursor < 8 { return NoHead; }
      SliceOfDrop(buf, offset, 2, 10);
      var big := ReadNumber(buf, cursor, 8);
      if big > MAX_SAFE { return TooLarge; }
      payloadLen := big;
      cursor := cursor + 8;
    }
    return Head(byte1 >= 128, payloadLen, cursor - offset);
  }

  /** One turn of that loop: the frame at `offset`. */
  method ParseFrame(buf: seq<Byte>, offset: nat) returns (r: Parsed)
    requires offset <= |buf|
    ensures r == ParseOne(buf[offset..])
  {
    hide HeadOf, Masked;
    var h := ParseHead(buf, offset);
    if h.NoHead? { return Incomplete; }
    if h.TooLarge? { return Malformed; }
    var cursor, maskKey: Option<seq<Byte>> := offset + h.cursor, None;
    if h.masked {
      if |buf| - cursor < 4 { return Incomplete; }
      maskKey := Some(buf[cursor..cursor + 4]);
      SliceOfDrop(buf, offset, h.cursor, h.cursor + 4);
      cursor := cursor + 4;
    }
    if |buf| - cursor < h.len { return Incomplete; }
    if maskKey.None? { return Malformed; }
    SliceOfDrop(buf, offset, cursor - offset, cursor - offset + h.len);
    var payload := Unmask(buf[cursor..cursor + h.len], maskKey.value);
    return Whole(Frame(buf[offset] >= 128, buf[offset] % 16, payload), cursor + h.len - offset);
  }

  method ReadNumber(buf: seq<Byte>, at: nat, n: nat) returns (v: nat)
    requires at + n <= |buf|
    ensures v == Number(buf[at..at + n])
  {
    v := 0;
    for k := 0 to n
      invariant v == Number(buf[at..at + k])
    {
      assert buf[at..at + k + 1][..k] == buf[at..at + k];
      v := v * 256 + buf[at + k];
    }
  }

  method Unmask(raw: seq<Byte>, key: seq<Byte>) returns (payload: seq<Byte>)
    requires |key| == 4
    ensures payload == Masked(raw, key)
  {
    var a := new Byte[|raw|];
    for i := 0 to |raw|
      invariant a[..i] == Masked(raw, key)[..i]
    {
      a[i] := Xor(raw[i], key[i % 4]);
    }
    assert a[..] == a[..|raw|];
    payload := a[..];
  }

  datatype Status = Open | TooBig | ProtocolError

  /** The receiving half of a connection. */
  class Receiver {
    const maxBuffered: nat
    var buffered: seq<Byte>
    var status: Status
    ghost var fed: seq<Byte>
    ghost var out: seq<Frame>

    /** While the connection is open, what has been handed on and what is still buffered depend
        on the bytes alone. A protocol error is one of the stream, not of how it was cut. */
    ghost predicate Valid()
      reads this
    {
      match status
      case Open => !Broken(fed) && out == Frames(fed) && buffered == fed[Used(fed)..]
      case ProtocolError => Broken(fed) && out <= Frames(fed)
      case TooBig => out <= Frames(fed)
    }

    constructor (maxBuffered: nat)
      ensures Valid() && status == Open && fed == [] && out == [] && this.maxBuffered == maxBuffered
    {
      this.maxBuffered := maxBuffered;
      buffered, status, fed, out := [], Open, [], [];
    }

    /** One read from the socket; frames that are whole by now are handed on, in order. */
    method OnData(chunk: seq<Byte>) returns (frames: seq<Frame>)
      requires Valid() && status == Open
      modifies this
      ensures Valid() && fed == old(fed) + chunk && out == old(out) + frames
      ensures status == TooBig <==> |old(buffered)| + |chunk| > maxBuffered
      ensures status != TooBig ==> (status == ProtocolError <==> Broken(fed))
    {
      hide ParseOne, Frames, Used, Broken;
      FeedFrames(fed, chunk);
      frames, fed := [], fed + chunk;
      buffered := buffered + chunk;
      if |buffered| > maxBuffered {
        status := TooBig;
        return;
      }
      var parsed, consumed, threw := ParseFrames(buffered);
      if threw {
        status := ProtocolError;
        return;
      }
      assert buffered[consumed..] == fed[Used(fed)..];
      frames, buffered, out := parsed, buffered[consumed..], out + parsed;
    }
  }

  lemma PrefixUnbroken(s: seq<Byte>, whole: seq<Byte>)
    requires s <= whole && !Broken(whole)
    ensures !Broken(s)
  {
    FeedFrames(s, whole[|s|..]);
    assert s + whole[|s|..] == whole;
  }

  /** Each frame takes up at most `m` bytes on the wire. */
  ghost predicate AllWithin(sent: seq<Sent>, m: nat)
    requires AllValid(sent)
  {
    forall i | 0 <= i < |sent| && sent[i].Valid() ::
      |Wire(sent[i].first, sent[i].form, sent[i].payload, sent[i].key)| <= m
  }

  /** Wherever a client's stream is cut, less than a frame is left unread. */
  lemma {:induction false} UnreadWithinFrame(sent: seq<Sent>, s: seq<Byte>, m: nat)
    requires AllValid(sent) && AllWithin(sent, m) && s <= WireOf(sent)
    ensures |s| - Used(s) <= m
    decreases |sent|
  {
    hide ParseOne, Wire, Frames, Broken, Used;
    if sent != [] {
      var f := sent[0];
      var w := Wire(f.first, f.form, f.payload, f.key);
      assert f.Valid() && AllValid(sent[1..]) && AllWithin(sent[1..], m) && |w| <= m;
      if |w| <= |s| {
        var behind := s[|w|..];
        assert s == w + behind && behind <= WireOf(sent[1..]);
        WireReadsBack(f.first, f.form, f.payload, f.key, behind);
        FrameOff(s);
        UnreadWithinFrame(sent[1..], behind, m);
      }
    }
  }

  /** A client's frames through one connection, cut into reads in any way and however many:
      what comes out is what was sent, as long as a read and one frame fit the buffer. */
  method Receive(maxBuffered: nat, chunks: seq<seq<Byte>>, ghost sent: seq<Sent>, ghost m: nat)
    returns (frames: seq<Frame>)
    requires AllValid(sent) && Concat(chunks) == WireOf(sent) && AllWithin(sent, m)
    requires forall k | 0 <= k < |chunks| :: |chunks[k]| + m <= maxBuffered
    ensures frames == seq(|sent|, i requires 0 <= i < |sent| => sent[i].Read())
  {
    StreamReadsBack(sent);
    hide ParseOne, Frames, Used, Broken, WireOf, AllValid, AllWithin, Concat;
    ConcatNone(chunks);
    var receiver := new Receiver(maxBuffered);
    frames := [];
    for k := 0 to |chunks|
      invariant fresh(receiver) && receiver.Valid() && receiver.status == Open && receiver.maxBuffered == maxBuffered
      invariant receiver.fed == Concat(chunks[..k]) && receiver.out == frames
    {
      ConcatPrefix(chunks, k);
      UnreadWithinFrame(sent, receiver.fed, m);
      ConcatStep(chunks, k);
      ConcatPrefix(chunks, k + 1);
      var more := receiver.OnData(chunks[k]);
      PrefixUnbroken(receiver.fed, Concat(chunks));
      frames := frames + more;
    }
    assert chunks[..|chunks|] == chunks;
  }
}
