/**
An append-only log of lines, and the walk over it from its end in chunks that
`src/agent-console/store/fs.ts` uses twice: once for a page of the audit log, once to find
where a replay starts. Blank lines carry nothing and every reader skips them.
*/
module LineLog {
  import opened Bytes

  /** A line that is not blank: where it starts in the file, and its text without the newline. */
  datatype Line = Line(start: nat, text: seq<Byte>)

  // ---------------------------------------------------------------- the lines of a file

  /** Where the line starting at `lo` stops: at its newline, or at `hi`. */
  ghost function Stop(f: seq<Byte>, lo: nat, hi: nat): (e: nat)
    requires lo <= hi <= |f|
    ensures lo <= e <= hi && NoNL(f, lo, e) && (e < hi ==> f[e] == NL)
    decreases hi - lo
  {
    if lo == hi || f[lo] == NL then lo else Stop(f, lo + 1, hi)
  }

  /** The line between two offsets that hold no newline; none when they are equal. */
  ghost function One(f: seq<Byte>, lo: nat, e: nat): seq<Line>
    requires lo <= e <= |f|
  {
    if lo < e then [Line(lo, f[lo..e])] else []
  }

  /** The lines between two offsets, oldest first. */
  ghost function LinesIn(f: seq<Byte>, lo: nat, hi: nat): seq<Line>
    requires lo <= hi <= |f|
    decreases hi - lo
  {
    var e := Stop(f, lo, hi);
    if e == hi then One(f, lo, e) else One(f, lo, e) + LinesIn(f, e + 1, hi)
  }

  /** No line crosses `m`: it borders a newline, or is where reading starts or stops. */
  ghost predicate Cut(f: seq<Byte>, lo: nat, m: nat, hi: nat) {
    lo <= m <= hi <= |f| && (m == lo || m == hi || f[m] == NL || f[m - 1] == NL)
  }

  lemma StopIs(f: seq<Byte>, lo: nat, hi: nat, e: nat)
    requires lo <= e <= hi <= |f| && NoNL(f, lo, e) && (e < hi ==> f[e] == NL)
    ensures Stop(f, lo, hi) == e
  {
  }

  /** At most one line lies between a line's start and the start of the next. */
  lemma OneLine(f: seq<Byte>, lo: nat, e: nat, hi: nat)
    requires lo <= e <= hi <= |f| && NoNL(f, lo, e) && (e < hi ==> f[e] == NL && hi == e + 1)
    ensures LinesIn(f, lo, hi) == One(f, lo, e)
  {
    StopIs(f, lo, hi, e);
  }

  /** Reading past one newline. */
  lemma LinesStep(f: seq<Byte>, lo: nat, e: nat, hi: nat)
    requires lo <= e < hi <= |f| && NoNL(f, lo, e) && f[e] == NL
    ensures LinesIn(f, lo, hi) == One(f, lo, e) + LinesIn(f, e + 1, hi)
  {
    StopIs(f, lo, hi, e);
  }

  lemma NewlineAlone(f: seq<Byte>, e: nat)
    requires e < |f| && f[e] == NL
    ensures LinesIn(f, e, e + 1) == []
  {
    LinesStep(f, e, e, e + 1);
  }

  lemma {:induction false} LinesSplit(f: seq<Byte>, lo: nat, m: nat, hi: nat)
    requires Cut(f, lo, m, hi)
    ensures LinesIn(f, lo, hi) == LinesIn(f, lo, m) + LinesIn(f, m, hi)
    decreases hi - lo
  {
    if m == lo || m == hi {
      assert LinesIn(f, m, m) == [];
    } else {
      SplitInside(f, lo, m, hi);
    }
  }

  lemma {:induction false} SplitInside(f: seq<Byte>, lo: nat, m: nat, hi: nat)
    requires Cut(f, lo, m, hi) && lo < m < hi
    ensures LinesIn(f, lo, hi) == LinesIn(f, lo, m) + LinesIn(f, m, hi)
    decreases hi - lo, 0
  {
    hide LinesIn;
    var e := Stop(f, lo, hi);
    LinesStep(f, lo, e, hi);
    if m <= e {
      OneLine(f, lo, m, m);
      LinesStep(f, m, m, hi);
    } else {
      LinesStep(f, lo, e, m);
      LinesSplit(f, e + 1, m, hi);
    }
  }

  /** Appending to a file changes no line that was already complete. */
  lemma {:induction false} LinesKept(f: seq<Byte>, g: seq<Byte>, lo: nat, hi: nat)
    requires lo <= hi <= |f|
    ensures LinesIn(f + g, lo, hi) == LinesIn(f, lo, hi)
    decreases hi - lo
  {
    hide LinesIn;
    var e := Stop(f, lo, hi);
    OneKept(f, g, lo, e);
    if e < hi {
      LinesStep(f, lo, e, hi);
      LinesStep(f + g, lo, e, hi);
      LinesKept(f, g, e + 1, hi);
    } else {
      OneLine(f, lo, e, hi);
      OneLine(f + g, lo, e, hi);
    }
  }

  lemma OneKept(f: seq<Byte>, g: seq<Byte>, lo: nat, e: nat)
    requires lo <= e <= |f| && NoNL(f, lo, e)
    ensures NoNL(f + g, lo, e) && One(f + g, lo, e) == One(f, lo, e)
  {
    assert (f + g)[lo..e] == f[lo..e];
  }

  lemma LinesUnfold(f: seq<Byte>, lo: nat, hi: nat)
    requires lo <= hi <= |f|
    ensures var e := Stop(f, lo, hi);
      LinesIn(f, lo, hi) == One(f, lo, e) + if e == hi then [] else LinesIn(f, e + 1, hi)
  {
  }

  /** A line starts at a cut, which parts the lines before it from itself and those behind it. */
  lemma {:induction false} LinesFrom(f: seq<Byte>, lo: nat, hi: nat, i: nat)
    requires lo <= hi <= |f| && i < |LinesIn(f, lo, hi)|
    ensures var x := LinesIn(f, lo, hi)[i].start;
      && lo <= x < hi && (i > 0 ==> lo < x) && Cut(f, lo, x, hi) && LinesIn(f, x, hi) == LinesIn(f, lo, hi)[i..]
    decreases hi - lo
  {
    hide LinesIn, Stop, NoNL;
    var e := Stop(f, lo, hi);
    var first, rest := One(f, lo, e), if e == hi then [] else LinesIn(f, e + 1, hi);
    LinesUnfold(f, lo, hi);
    if i < |first| {
      assert LinesIn(f, lo, hi)[0] == first[0];
    } else {
      LinesFrom(f, e + 1, hi, i - |first|);
      assert LinesIn(f, lo, hi)[i..] == rest[i - |first|..];
    }
  }

  lemma FirstLine(f: seq<Byte>, hi: nat)
    requires 0 < hi <= |f| && f[0] != NL
    ensures LinesIn(f, 0, hi) != [] && LinesIn(f, 0, hi)[0].start == 0
  {
    assert Stop(f, 0, hi) > 0;
  }

  lemma LinesBefore(f: seq<Byte>, lo: nat, hi: nat, i: nat)
    requires lo <= hi <= |f| && i < |LinesIn(f, lo, hi)|
    ensures var x := LinesIn(f, lo, hi)[i].start; lo <= x <= hi && LinesIn(f, lo, x) == LinesIn(f, lo, hi)[..i]
  {
    LinesFrom(f, lo, hi, i);
    LinesSplit(f, lo, LinesIn(f, lo, hi)[i].start, hi);
  }

  /** Appending a line, its newline included, adds it behind the others and moves none. */
  lemma AppendLine(f: seq<Byte>, text: seq<Byte>)
    requires f == [] || f[|f| - 1] == NL
    requires text != [] && NoNL(text, 0, |text|)
    ensures LinesIn(f + text + [NL], 0, |f| + |text| + 1) == LinesIn(f, 0, |f|) + [Line(|f|, text)]
  {
    var g := f + text + [NL];
    LinesSplit(g, 0, |f|, |g|);
    LinesKept(f, text + [NL], 0, |f|);
    assert f + (text + [NL]) == g;
    StopIs(g, |f|, |g|, |f| + |text|);
    assert g[|f|..|f| + |text|] == text;
  }

  // ---------------------------------------------------------------- one buffer, cut into lines

  /** Where line `i` of a buffer ends, its newline excluded. */
  function LineEnd(buf: seq<Byte>, starts: seq<nat>, i: nat): int
    requires i < |starts| && buf != []
  {
    if i + 1 < |starts| then starts[i + 1] - 1 else if buf[|buf| - 1] == NL then |buf| - 1 else |buf|
  }

  /** Line `i` starts the buffer or comes right behind a newline, and holds none up to the next. */
  ghost predicate Begins(buf: seq<Byte>, starts: seq<nat>, i: nat)
    requires i < |starts|
  {
    && starts[i] < |buf|
    && (if i == 0 then starts[i] == 0 else 0 < starts[i] && buf[starts[i] - 1] == NL)
    && (i + 1 < |starts| ==> starts[i] < starts[i + 1] && NoNL(buf, starts[i], starts[i + 1] - 1))
  }

  ghost predicate AllBegin(buf: seq<Byte>, starts: seq<nat>) {
    starts != [] && forall i | 0 <= i < |starts| :: Begins(buf, starts, i)
  }

  /** `starts` are the offsets at which lines of the buffer start: 0, and behind every newline
      but one that ends the buffer. */
  ghost predicate AreStarts(buf: seq<Byte>, starts: seq<nat>) {
    && buf != [] && AllBegin(buf, starts)
    && NoNL(buf, starts[|starts| - 1], LineEnd(buf, starts, |starts| - 1))
  }

  lemma PushStart(buf: seq<Byte>, starts: seq<nat>, nl: nat)
    requires AllBegin(buf, starts) && starts[|starts| - 1] <= nl < |buf| - 1
    requires buf[nl] == NL && NoNL(buf, starts[|starts| - 1], nl)
    ensures AllBegin(buf, starts + [nl + 1])
  {
    var more := starts + [nl + 1];
    forall i | 0 <= i < |more| ensures Begins(buf, more, i) {
      if i < |starts| { assert Begins(buf, starts, i); }
    }
  }

  method LineStarts(buf: seq<Byte>) returns (starts: seq<nat>)
    requires buf != []
    ensures AreStarts(buf, starts)
  {
    starts := [0];
    var searchFrom := 0;
    while true
      invariant searchFrom <= |buf| && AllBegin(buf, starts)
      invariant searchFrom < |buf| ==> searchFrom == starts[|starts| - 1]
      invariant searchFrom == |buf| ==> buf[|buf| - 1] == NL && NoNL(buf, starts[|starts| - 1], |buf| - 1)
      decreases |buf| - searchFrom
    {
      var nl := IndexOfNL(buf, searchFrom);
      if nl == -1 { break; }
      if nl + 1 < |buf| {
        PushStart(buf, starts, nl);
        starts := starts + [nl + 1];
      }
      searchFrom := nl + 1;
    }
  }

  /** Where line `i` starts; behind the last line, the buffer's end. */
  function From(buf: seq<Byte>, starts: seq<nat>, i: nat): nat
    requires i <= |starts|
  {
    if i < |starts| then starts[i] else |buf|
  }

  lemma LineBounds(buf: seq<Byte>, starts: seq<nat>, i: nat)
    requires AreStarts(buf, starts) && i < |starts|
    ensures starts[i] <= LineEnd(buf, starts, i) <= From(buf, starts, i + 1) <= |buf|
    ensures NoNL(buf, starts[i], LineEnd(buf, starts, i))
    ensures var e := LineEnd(buf, starts, i); e < From(buf, starts, i + 1) ==> buf[e] == NL && From(buf, starts, i + 1) == e + 1
    ensures if i == 0 then starts[i] == 0 else 0 < starts[i] && buf[starts[i] - 1] == NL
  {
    assert Begins(buf, starts, i);
    if i + 1 < |starts| { assert Begins(buf, starts, i + 1); }
  }

  /** `buf` holds the file from `base` on, and `starts` its lines. */
  ghost predicate Holds(f: seq<Byte>, base: nat, buf: seq<Byte>, starts: seq<nat>) {
    base + |buf| <= |f| && buf == f[base..base + |buf|] && AreStarts(buf, starts)
  }

  /** What lies between two line starts of a buffer: one line, or nothing. */
  lemma LineOfBuffer(f: seq<Byte>, base: nat, buf: seq<Byte>, starts: seq<nat>, i: nat)
    requires Holds(f, base, buf, starts) && i < |starts|
    ensures starts[i] <= LineEnd(buf, starts, i) <= From(buf, starts, i + 1) <= |buf|
    ensures LinesIn(f, base + starts[i], base + From(buf, starts, i + 1)) ==
            if starts[i] < LineEnd(buf, starts, i) then [Line(base + starts[i], buf[starts[i]..LineEnd(buf, starts, i)])] else []
    ensures base == 0 || i > 0 ==> Cut(f, 0, base + starts[i], base + From(buf, starts, i + 1))
  {
    hide LinesIn;
    LineBounds(buf, starts, i);
    hide AreStarts;
    var e := LineEnd(buf, starts, i);
    NoNLSlice(f, base, base + |buf|, starts[i], e);
    OneLine(f, base + starts[i], base + e, base + From(buf, starts, i + 1));
    SliceOfSlice(f, base, base + |buf|, starts[i], e);
  }

  /** The bytes held over for the next chunk: the buffer's first line, without its newline
      when another line follows it. */
  function HeldOver(buf: seq<Byte>, starts: seq<nat>): int
    requires starts != []
  {
    if |starts| > 1 then starts[1] - 1 else |buf|
  }
}
