/**
Replay from the event file of a session: `readEventsAfter` does not read the file from its
start but from an offset that a backward scan in chunks has found
(`src/agent-console/store/fs.ts`). Lines that do not parse may stand anywhere. The scan ends a
line at a newline alone; the runtime's line reader behind it ends one also at a carriage return
and at U+2028 and U+2029, which `JSON.stringify` leaves as they are.
*/
module EventLog {
  import opened Common
  import opened Bytes
  import opened LineLog

  datatype Envelope = Envelope(number: int, body: seq<Byte>)

  type Parser = seq<Byte> -> Option<Envelope>

  // ---------------------------------------------------------------- meaning

  ghost function Newest(parse: Parser, l: Line, after: int): seq<Envelope> {
    var e := parse(l.text);
    if e.Some? && e.value.number > after then [e.value] else []
  }

  /** What a subscriber that has seen everything up to `after` still needs from these lines. */
  ghost function Newer(parse: Parser, ls: seq<Line>, after: int): seq<Envelope> {
    if ls == [] then [] else Newest(parse, ls[0], after) + Newer(parse, ls[1..], after)
  }

  /** Sequence numbers strictly increase along the lines that parse. */
  ghost predicate Increasing(parse: Parser, ls: seq<Line>) {
    forall i, j | 0 <= i < j < |ls| && parse(ls[i].text).Some? && parse(ls[j].text).Some? ::
      parse(ls[i].text).value.number < parse(ls[j].text).value.number
  }

  ghost predicate IsNewer(parse: Parser, l: Line, after: int) {
    parse(l.text).Some? ==> parse(l.text).value.number > after
  }

  ghost predicate AllNewer(parse: Parser, ls: seq<Line>, after: int) {
    forall i | 0 <= i < |ls| :: IsNewer(parse, ls[i], after)
  }

  /** The line right before `start` parses and is not newer than `after`. */
  ghost predicate LastSeen(f: seq<Byte>, parse: Parser, after: int, start: nat)
    requires start <= |f|
  {
    var ls := LinesIn(f, 0, start);
    ls != [] && !IsNewer(parse, ls[|ls| - 1], after)
  }

  // ---------------------------------------------------------------- the backward scan

  /** Every line from `pos` on is unreadable or newer than `after`. */
  ghost predicate Scanned(f: seq<Byte>, parse: Parser, after: int, pos: nat) {
    Cut(f, 0, pos, |f|) && AllNewer(parse, LinesIn(f, pos, |f|), after)
  }

  lemma ScanLine(f: seq<Byte>, parse: Parser, after: int, base: nat, buf: seq<Byte>, starts: seq<nat>, i: nat)
    requires Holds(f, base, buf, starts) && i < |starts| && (i > 0 || base == 0)
    requires Scanned(f, parse, after, base + From(buf, starts, i + 1))
    requires starts[i] < LineEnd(buf, starts, i) <= |buf|
    ensures var l := Line(base + starts[i], buf[starts[i]..LineEnd(buf, starts, i)]);
      if IsNewer(parse, l, after) then Scanned(f, parse, after, base + starts[i])
      else LastSeen(f, parse, after, base + From(buf, starts, i + 1))
  {
    hide LinesIn;
    LineOfBuffer(f, base, buf, starts, i);
    LinesSplit(f, base + starts[i], base + From(buf, starts, i + 1), |f|);
    LinesSplit(f, 0, base + starts[i], base + From(buf, starts, i + 1));
  }

  lemma ScanBlank(f: seq<Byte>, parse: Parser, after: int, lo: nat, pos: nat)
    requires Scanned(f, parse, after, pos) && Cut(f, 0, lo, pos) && LinesIn(f, lo, pos) == []
    ensures Scanned(f, parse, after, lo)
  {
    hide LinesIn, AllNewer;
    LinesSplit(f, lo, pos, |f|);
    assert LinesIn(f, lo, |f|) == LinesIn(f, pos, |f|);
  }

  /** The loop over one buffer, its last line first. */
  method ScanBuffer(ghost file: seq<Byte>, parse: Parser, after: int, buf: seq<Byte>, readStart: nat)
    returns (found: Option<nat>, tail: seq<Byte>)
    requires buf != [] && readStart + |buf| <= |file| && buf == file[readStart..readStart + |buf|]
    requires Scanned(file, parse, after, readStart + |buf|)
    ensures found.Some? ==> found.value <= |file| && Scanned(file, parse, after, found.value) && LastSeen(file, parse, after, found.value)
    ensures found.None? ==> |tail| <= |buf| && tail == buf[..|tail|] && Scanned(file, parse, after, readStart + |tail|)
    ensures found.None? && readStart == 0 ==> tail == []
  {
    hide Scanned, LastSeen, LinesIn;
    found, tail := None, [];
    var starts := LineStarts(buf);
    var i: nat := |starts|;
    while i > 0
      invariant 0 <= i <= |starts| && (i == 0 ==> readStart == 0)
      invariant Scanned(file, parse, after, readStart + From(buf, starts, i))
    {
      i := i - 1;
      if i == 0 && readStart > 0 {
        ScanRest(file, parse, after, readStart, buf, starts);
        tail := buf[..HeldOver(buf, starts)];
        return;
      }
      LineOfBuffer(file, readStart, buf, starts, i);
      var start, end := starts[i], LineEnd(buf, starts, i);
      if end <= start {
        ScanBlank(file, parse, after, readStart + start, readStart + From(buf, starts, i + 1));
        continue;
      }
      ScanLine(file, parse, after, readStart, buf, starts, i);
      var envelope := parse(buf[start..end]);
      if envelope.Some? && envelope.value.number <= after {
        found := Some(readStart + From(buf, starts, i + 1));
        return;
      }
    }
    LineBounds(buf, starts, 0);
  }

  /** A line held over to the next chunk leaves its newline behind. The offset found later may
      be that newline: reading from it starts with a blank line, which is skipped. */
  lemma ScanRest(f: seq<Byte>, parse: Parser, after: int, base: nat, buf: seq<Byte>, starts: seq<nat>)
    requires Holds(f, base, buf, starts)
    requires Scanned(f, parse, after, base + From(buf, starts, 1))
    ensures 0 <= HeldOver(buf, starts) <= |buf| && Scanned(f, parse, after, base + HeldOver(buf, starts))
  {
    hide LinesIn, AllNewer;
    if |starts| > 1 {
      LineBounds(buf, starts, 1);
      var e := base + starts[1] - 1;
      NewlineAlone(f, e);
      ScanBlank(f, parse, after, e, e + 1);
    }
  }

  /** Where a replay may start reading: no line crosses the offset, the line before it has been
      seen already, and every readable line behind it has not. */
  method LocateForwardStart(file: seq<Byte>, parse: Parser, after: nat, chunk: nat) returns (start: nat)
    requires 1 <= chunk
    ensures start <= |file| && Cut(file, 0, start, |file|)
    ensures start > 0 ==> LastSeen(file, parse, after, start)
    ensures after > 0 ==> AllNewer(parse, LinesIn(file, start, |file|), after)
  {
    if after == 0 { return 0; }
    var tail: seq<Byte>, cursor: nat := [], |file|;
    ScanStart(file, parse, after);
    while cursor > 0
      invariant cursor + |tail| <= |file| && tail == file[cursor..cursor + |tail|] && (cursor == 0 ==> tail == [])
      invariant Scanned(file, parse, after, cursor + |tail|)
    {
      hide LinesIn, LastSeen, AllNewer;
      var readStart := if cursor < chunk then 0 else cursor - chunk;
      var buf := file[readStart..cursor] + tail;
      assert buf == file[readStart..cursor + |tail|];
      var found: Option<nat>;
      found, tail := ScanBuffer(file, parse, after, buf, readStart);
      if found.Some? { return found.value; }
      cursor := readStart;
    }
    return 0;
  }

  lemma ScanStart(f: seq<Byte>, parse: Parser, after: int)
    ensures Scanned(f, parse, after, |f|)
  {
  }

  // ---------------------------------------------------------------- reading forward

  lemma Regrouped(a: seq<Envelope>, b: seq<Envelope>, c: seq<Envelope>)
    ensures a + (b + c) == a + b + c
  {
  }

  lemma {:induction false} NewerConcat(parse: Parser, p: seq<Line>, q: seq<Line>, after: int)
    ensures Newer(parse, p + q, after) == Newer(parse, p, after) + Newer(parse, q, after)
  {
    if p == [] {
      assert p + q == q;
    } else {
      NewerConcat(parse, p[1..], q, after);
      assert (p + q)[1..] == p[1..] + q;
      Regrouped(Newest(parse, p[0], after), Newer(parse, p[1..], after), Newer(parse, q, after));
    }
  }

  lemma {:induction false} NoneNewer(parse: Parser, ls: seq<Line>, after: int)
    requires forall i | 0 <= i < |ls| && parse(ls[i].text).Some? :: parse(ls[i].text).value.number <= after
    ensures Newer(parse, ls, after) == []
  {
    if ls != [] { NoneNewer(parse, ls[1..], after); }
  }

  /** Skipping to a located offset loses nothing. */
  lemma SkippingIsSafe(f: seq<Byte>, parse: Parser, after: int, start: nat)
    requires Increasing(parse, LinesIn(f, 0, |f|))
    requires Cut(f, 0, start, |f|) && (start > 0 ==> LastSeen(f, parse, after, start))
    ensures Newer(parse, LinesIn(f, start, |f|), after) == Newer(parse, LinesIn(f, 0, |f|), after)
    ensures Newer(parse, Unbroken(LinesIn(f, start, |f|)), after) == Newer(parse, Unbroken(LinesIn(f, 0, |f|)), after)
  {
    if start > 0 {
      LinesSplit(f, 0, start, |f|);
      var seen, ahead := LinesIn(f, 0, start), LinesIn(f, start, |f|);
      SeenIsOld(f, parse, after, start);
      hide LinesIn, Newer, Unbroken, Increasing, LastSeen;
      NoneNewer(parse, seen, after);
      NewerConcat(parse, seen, ahead, after);
      UnbrokenConcat(seen, ahead);
      UnbrokenAmong(seen);
      NoneNewer(parse, Unbroken(seen), after);
      NewerConcat(parse, Unbroken(seen), Unbroken(ahead), after);
      assert [] + Newer(parse, ahead, after) == Newer(parse, ahead, after);
      assert [] + Newer(parse, Unbroken(ahead), after) == Newer(parse, Unbroken(ahead), after);
    }
  }

  lemma SeenIsOld(f: seq<Byte>, parse: Parser, after: int, start: nat)
    requires start <= |f| && Increasing(parse, LinesIn(f, 0, |f|)) && LastSeen(f, parse, after, start)
    requires LinesIn(f, 0, |f|) == LinesIn(f, 0, start) + LinesIn(f, start, |f|)
    ensures forall l | l in LinesIn(f, 0, start) && parse(l.text).Some? :: parse(l.text).value.number <= after
  {
    hide LinesIn;
    var seen := LinesIn(f, 0, start);
    assert forall i | 0 <= i < |seen| :: LinesIn(f, 0, |f|)[i] == seen[i];
  }

  // ---------------------------------------------------------------- the runtime's line reader

  const CR: Byte := 13

  /** How many bytes the break takes up that stands at an offset: a newline or a carriage return,
      or U+2028 or U+2029 in UTF-8; 0 if none does. */
  function BreakAt(f: seq<Byte>, i: nat): (n: nat)
    requires i < |f|
    ensures i + n <= |f|
  {
    if f[i] == NL || f[i] == CR then 1
    else if i + 3 <= |f| && f[i] == 0xE2 && f[i + 1] == 0x80 && (f[i + 2] == 0xA8 || f[i + 2] == 0xA9) then 3
    else 0
  }

  /** A break that is no newline. */
  predicate SoftAt(f: seq<Byte>, i: nat) {
    i < |f| && f[i] != NL && BreakAt(f, i) > 0
  }

  ghost predicate NoBreak(f: seq<Byte>, lo: nat, hi: nat)
    requires hi <= |f|
  {
    forall i | lo <= i < hi :: BreakAt(f, i) == 0
  }

  ghost function ReaderStop(f: seq<Byte>, lo: nat): (e: nat)
    requires lo <= |f|
    ensures lo <= e <= |f| && NoBreak(f, lo, e) && (e < |f| ==> BreakAt(f, e) > 0)
    decreases |f| - lo
  {
    if lo == |f| || BreakAt(f, lo) > 0 then lo else ReaderStop(f, lo + 1)
  }

  /** The lines that reader gives from an offset on, but for blank ones. */
  ghost function ReaderLines(f: seq<Byte>, lo: nat): seq<Line>
    requires lo <= |f|
    decreases |f| - lo
  {
    var e := ReaderStop(f, lo);
    if e == |f| then One(f, lo, e) else One(f, lo, e) + ReaderLines(f, e + BreakAt(f, e))
  }

  lemma ReaderStep(f: seq<Byte>, lo: nat, e: nat)
    requires lo <= e <= |f| && NoBreak(f, lo, e) && (e < |f| ==> BreakAt(f, e) > 0)
    ensures ReaderLines(f, lo) == One(f, lo, e) + if e == |f| then [] else ReaderLines(f, e + BreakAt(f, e))
  {
    var stop := ReaderStop(f, lo);
    assert (stop < |f| ==> BreakAt(f, stop) > 0) && NoBreak(f, lo, stop);
  }

  // ---------------------------------------------------------------- lines it breaks

  predicate IsBroken(l: Line) {
    exists i | 0 <= i < |l.text| :: SoftAt(l.text, i)
  }

  ghost function Unbroken(ls: seq<Line>): seq<Line> {
    if ls == [] then [] else (if IsBroken(ls[0]) then [] else [ls[0]]) + Unbroken(ls[1..])
  }

  lemma {:induction false} UnbrokenConcat(p: seq<Line>, q: seq<Line>)
    ensures Unbroken(p + q) == Unbroken(p) + Unbroken(q)
  {
    hide IsBroken;
    if p == [] {
      assert p + q == q;
    } else {
      UnbrokenConcat(p[1..], q);
      assert (p + q)[1..] == p[1..] + q;
      var first := if IsBroken(p[0]) then [] else [p[0]];
      assert first + (Unbroken(p[1..]) + Unbroken(q)) == first + Unbroken(p[1..]) + Unbroken(q);
    }
  }

  lemma {:induction false} UnbrokenAmong(ls: seq<Line>)
    ensures forall l | l in Unbroken(ls) :: l in ls
  {
    hide IsBroken;
    if ls != [] { UnbrokenAmong(ls[1..]); }
  }

  /** Cut off at such a break, before or behind it. */
  ghost predicate IsPiece(f: seq<Byte>, a: nat, b: nat) {
    a <= b <= |f| && NoNL(f, a, b) && (SoftAt(f, b) || exists c: nat :: c < a && SoftAt(f, c) && c + BreakAt(f, c) == a)
  }

  /** A piece of a line reads as nothing: within JSON text these breaks stand inside a string. */
  ghost predicate PiecesUnreadable(f: seq<Byte>, parse: Parser) {
    forall a: nat, b: nat | IsPiece(f, a, b) :: parse(f[a..b]).None?
  }

  lemma SoftStaysInLine(f: seq<Byte>, i: nat, e: nat)
    requires i < e <= |f| && NoNL(f, i, e) && (e < |f| ==> f[e] == NL) && SoftAt(f, i)
    ensures i + BreakAt(f, i) <= e
  {
  }

  lemma NewerOne(f: seq<Byte>, parse: Parser, after: int, lo: nat, e: nat, rest: seq<Line>)
    requires lo <= e <= |f|
    ensures Newer(parse, One(f, lo, e) + rest, after) ==
            (if lo < e then Newest(parse, Line(lo, f[lo..e]), after) else []) + Newer(parse, rest, after)
  {
    if lo < e {
      NewerConcat(parse, One(f, lo, e), rest, after);
    } else {
      assert One(f, lo, e) + rest == rest;
    }
  }

  ghost function RestOf(f: seq<Byte>, e: nat): seq<Line>
    requires e <= |f|
  {
    if e == |f| then [] else ReaderLines(f, e + 1)
  }

  /** Behind a break the rest of the line, up to its newline, is lost. */
  lemma {:induction false} TailLost(f: seq<Byte>, parse: Parser, after: int, c: nat, lo: nat, e: nat)
    requires PiecesUnreadable(f, parse) && c < lo && SoftAt(f, c) && c + BreakAt(f, c) == lo
    requires lo <= e <= |f| && NoNL(f, lo, e) && (e < |f| ==> f[e] == NL)
    ensures Newer(parse, ReaderLines(f, lo), after) == Newer(parse, RestOf(f, e), after)
    decreases e - lo
  {
    hide ReaderLines, Newer;
    var x := ReaderStop(f, lo);
    assert e < |f| ==> BreakAt(f, e) == 1;
    assert NoNL(f, lo, x) && IsPiece(f, lo, x);
    ReaderStep(f, lo, x);
    if x < e {
      SoftStaysInLine(f, x, e);
      TailLost(f, parse, after, x, x + BreakAt(f, x), e);
      NewerOne(f, parse, after, lo, x, ReaderLines(f, x + BreakAt(f, x)));
    } else {
      NewerOne(f, parse, after, lo, x, RestOf(f, e));
    }
  }

  lemma BrokenMeans(f: seq<Byte>, lo: nat, e: nat)
    requires lo <= e <= |f| && NoNL(f, lo, e) && (e < |f| ==> f[e] == NL)
    ensures IsBroken(Line(lo, f[lo..e])) <==> !NoBreak(f, lo, e)
  {
    var text := f[lo..e];
    forall i | lo <= i < e ensures SoftAt(text, i - lo) <==> BreakAt(f, i) > 0 {
      if BreakAt(f, i) > 0 { SoftStaysInLine(f, i, e); }
    }
    if !NoBreak(f, lo, e) {
      var i: nat :| lo <= i < e && BreakAt(f, i) > 0;
      assert SoftAt(text, i - lo);
    }
    if IsBroken(Line(lo, text)) {
      var k :| 0 <= k < |text| && SoftAt(text, k);
      assert BreakAt(f, lo + k) > 0;
    }
  }

  /** One line of the file: read as it stands, or not at all. */
  lemma LineReads(f: seq<Byte>, parse: Parser, after: int, lo: nat, e: nat)
    requires PiecesUnreadable(f, parse) && lo <= e <= |f| && NoNL(f, lo, e) && (e < |f| ==> f[e] == NL)
    ensures Newer(parse, ReaderLines(f, lo), after) ==
            Newer(parse, Unbroken(One(f, lo, e)), after) + Newer(parse, RestOf(f, e), after)
  {
    hide ReaderLines, Newer, IsBroken;
    BrokenMeans(f, lo, e);
    UnbrokenOne(f, lo, e);
    assert e < |f| ==> BreakAt(f, e) == 1;
    var x := ReaderStop(f, lo);
    if x < e {
      assert IsPiece(f, lo, x) && !NoBreak(f, lo, e) by { assert NoNL(f, lo, x); }
      ReaderStep(f, lo, x);
      SoftStaysInLine(f, x, e);
      TailLost(f, parse, after, x, x + BreakAt(f, x), e);
      NewerOne(f, parse, after, lo, x, ReaderLines(f, x + BreakAt(f, x)));
      NewerNone(parse, after);
    } else {
      ReaderStep(f, lo, e);
      NewerConcat(parse, One(f, lo, e), RestOf(f, e), after);
    }
  }

  lemma NewerNone(parse: Parser, after: int)
    ensures Newer(parse, [], after) == []
  {
  }

  lemma UnbrokenOne(f: seq<Byte>, lo: nat, e: nat)
    requires lo <= e <= |f|
    ensures Unbroken(One(f, lo, e)) == if lo < e && IsBroken(Line(lo, f[lo..e])) then [] else One(f, lo, e)
  {
    hide IsBroken;
    assert Unbroken([]) == [];
  }

  /** So the reader gives exactly the lines without such a break. */
  lemma {:induction false} ReaderDropsBroken(f: seq<Byte>, parse: Parser, after: int, lo: nat)
    requires PiecesUnreadable(f, parse) && lo <= |f|
    ensures Newer(parse, ReaderLines(f, lo), after) == Newer(parse, Unbroken(LinesIn(f, lo, |f|)), after)
    decreases |f| - lo
  {
    hide ReaderLines, Newer, LinesIn, Unbroken, PiecesUnreadable;
    var e := Stop(f, lo, |f|);
    LineReads(f, parse, after, lo, e);
    if e < |f| {
      ReaderDropsBroken(f, parse, after, e + 1);
      LinesStep(f, lo, e, |f|);
      UnbrokenConcat(One(f, lo, e), LinesIn(f, e + 1, |f|));
      NewerConcat(parse, Unbroken(One(f, lo, e)), Unbroken(LinesIn(f, e + 1, |f|)), after);
    } else {
      OneLine(f, lo, e, |f|);
      NewerNone(parse, after);
    }
  }

  /** A line that is still needed has such a break in it. */
  ghost predicate NeededAndBroken(parse: Parser, l: Line, after: int) {
    IsBroken(l) && Newest(parse, l, after) != []
  }

  /** Nothing is missing exactly when no such line is there. */
  lemma {:induction false} NothingDroppedWhen(parse: Parser, ls: seq<Line>, after: int)
    ensures |Newer(parse, Unbroken(ls), after)| <= |Newer(parse, ls, after)|
    ensures Newer(parse, Unbroken(ls), after) == Newer(parse, ls, after) <==>
            forall i | 0 <= i < |ls| :: !NeededAndBroken(parse, ls[i], after)
  {
    hide IsBroken;
    if ls != [] {
      var rest := ls[1..];
      NothingDroppedWhen(parse, rest, after);
      assert forall i | 1 <= i < |ls| :: ls[i] == rest[i - 1];
      assert (forall i | 0 <= i < |ls| :: !NeededAndBroken(parse, ls[i], after)) <==>
             !NeededAndBroken(parse, ls[0], after) && forall i | 0 <= i < |rest| :: !NeededAndBroken(parse, rest[i], after);
      var first := if IsBroken(ls[0]) then [] else [ls[0]];
      NewerConcat(parse, first, Unbroken(rest), after);
      assert Newer(parse, [ls[0]], after) == Newest(parse, ls[0], after);
      SameBehind(Newest(parse, ls[0], after), Newer(parse, Unbroken(rest), after), Newer(parse, rest, after));
    }
  }

  lemma SameBehind(a: seq<Envelope>, b: seq<Envelope>, c: seq<Envelope>)
    ensures a + b == a + c <==> b == c
  {
    if a + b == a + c { assert b == (a + b)[|a|..] && c == (a + c)[|a|..]; }
  }

  /** A line in the log that the reader never gives: it is readable as a whole, and lost. */
  lemma BrokenLineLost(parse: Parser, text: seq<Byte>, after: int)
    requires NoNL(text, 0, |text|) && IsBroken(Line(0, text)) && PiecesUnreadable(text, parse)
    requires Newest(parse, Line(0, text), after) != []
    ensures Newer(parse, ReaderLines(text, 0), after) == []
    ensures Newer(parse, LinesIn(text, 0, |text|), after) != []
  {
    assert text[0..|text|] == text && text != [];
    hide IsBroken, PiecesUnreadable, ReaderLines, LinesIn, Newest;
    OneLine(text, 0, |text|, |text|);
    UnbrokenOne(text, 0, |text|);
    ReaderDropsBroken(text, parse, after, 0);
  }

  /** The whole replay, for any chunk size: when sequence numbers increase along the file it
      yields what filtering the lines without such a break would; that is everything if and only
      if no line still needed has one. */
  method ReadEventsAfter(file: seq<Byte>, parse: Parser, after: nat, chunk: nat) returns (events: seq<Envelope>)
    requires 1 <= chunk
    ensures Increasing(parse, LinesIn(file, 0, |file|)) && PiecesUnreadable(file, parse) ==>
      events == Newer(parse, Unbroken(LinesIn(file, 0, |file|)), after)
    ensures Increasing(parse, LinesIn(file, 0, |file|)) && PiecesUnreadable(file, parse) ==>
      (events == Newer(parse, LinesIn(file, 0, |file|), after) <==>
       forall i | 0 <= i < |LinesIn(file, 0, |file|)| :: !NeededAndBroken(parse, LinesIn(file, 0, |file|)[i], after))
  {
    hide LinesIn, Newer, Unbroken, ReaderLines, Increasing, PiecesUnreadable, LastSeen, NeededAndBroken;
    var start := LocateForwardStart(file, parse, after, chunk);
    events := ReadForward(file, parse, after, start);
    if Increasing(parse, LinesIn(file, 0, |file|)) && PiecesUnreadable(file, parse) {
      SkippingIsSafe(file, parse, after, start);
      ReaderDropsBroken(file, parse, after, start);
      NothingDroppedWhen(parse, LinesIn(file, 0, |file|), after);
    }
  }

  /** Where the reader ends the line that starts here. */
  method NextBreak(file: seq<Byte>, pos: nat) returns (end: nat)
    requires pos <= |file|
    ensures pos <= end <= |file| && NoBreak(file, pos, end) && (end < |file| ==> BreakAt(file, end) > 0)
  {
    end := pos;
    while end < |file| && BreakAt(file, end) == 0
      invariant pos <= end <= |file| && NoBreak(file, pos, end)
    {
      end := end + 1;
    }
  }

  method ReadForward(file: seq<Byte>, parse: Parser, after: nat, start: nat) returns (events: seq<Envelope>)
    requires start <= |file|
    ensures events == Newer(parse, ReaderLines(file, start), after)
  {
    hide ReaderLines, Newer;
    events := [];
    var pos := start;
    while true
      invariant start <= pos <= |file|
      invariant Newer(parse, ReaderLines(file, start), after) == events + Newer(parse, ReaderLines(file, pos), after)
      decreases |file| - pos
    {
      var end := NextBreak(file, pos);
      var line := file[pos..end];
      ReaderStep(file, pos, end);
      NewerOne(file, parse, after, pos, end, if end == |file| then [] else ReaderLines(file, end + BreakAt(file, end)));
      if |line| > 0 {
        var envelope := parse(line);
        if envelope.Some? && envelope.value.number > after { events := events + [envelope.value]; }
      }
      if end == |file| {
        NewerNone(parse, after);
        break;
      }
      pos := end + BreakAt(file, end);
    }
  }
}
