/**
The line window of a stored tool output: the chunked scan of
`src/agent-console/store/fs.ts` and the whole-buffer scan of
`src/agent-console/store/memory.ts`. The file is read while nobody writes to it, so a read
returns a full chunk unless the file ends.
*/
module OutputWindow {
  import opened Common
  import opened Bytes

  /** `fromLine` counts from 1; without `lineCount` the window runs to the end. */
  datatype Window = Window(fromLine: int, lineCount: Option<int>)

  datatype Range = Range(startByte: nat, endByte: nat, linesAtEnd: Option<nat>)

  // ---------------------------------------------------------------- meaning

  /** The lines of a blob, each with its newline; the last may lack one. */
  ghost function Lines(b: seq<Byte>): seq<seq<Byte>>
    decreases |b|
  {
    var i := FirstNL(b);
    if b == [] then [] else if i == |b| then [b] else [b[..i + 1]] + Lines(b[i + 1..])
  }

  ghost function Flatten(ls: seq<seq<Byte>>): seq<Byte> {
    if ls == [] then [] else ls[0] + Flatten(ls[1..])
  }

  ghost function Min(a: int, b: int): int {
    if a < b then a else b
  }

  /** `x` is the first byte behind the `k`-th newline. */
  ghost predicate Behind(b: seq<Byte>, k: int, x: nat) {
    0 < x <= |b| && b[x - 1] == NL && Count(b, x) == k
  }

  ghost predicate IsStart(b: seq<Byte>, w: Window, x: nat) {
    if w.fromLine <= 1 then x == 0
    else if w.fromLine - 1 <= Count(b, |b|) then Behind(b, w.fromLine - 1, x)
    else x == |b|
  }

  ghost predicate IsEnd(b: seq<Byte>, w: Window, x: nat) {
    if w.lineCount.Some? && 1 <= w.fromLine + w.lineCount.value - 1 <= Count(b, |b|)
    then Behind(b, w.fromLine + w.lineCount.value - 1, x)
    else x == |b|
  }

  /** What both scans must answer, in terms of newline counts; the total is there exactly
      when the window reaches the end of the blob. */
  ghost predicate IsRange(b: seq<Byte>, w: Window, r: Range) {
    && IsStart(b, w, r.startByte) && IsEnd(b, w, r.endByte)
    && r.linesAtEnd == if r.endByte == |b| then Some(|Lines(b)|) else None
  }

  // ---------------------------------------------------------------- the scans

  /** What a scan knows once it has passed every newline before `pos`. */
  ghost predicate Progress(b: seq<Byte>, w: Window, pos: nat, startByte: Option<nat>, endByte: Option<nat>, seen: nat) {
    && pos <= |b| && Boundary(b, pos) && seen == Count(b, pos)
    && (w.fromLine <= 1 ==> startByte == Some(0))
    && (w.fromLine > 1 ==> (startByte.None? <==> seen < w.fromLine - 1) &&
                           (startByte.Some? ==> Behind(b, w.fromLine - 1, startByte.value)))
    && (if w.lineCount.Some? && 1 <= w.fromLine + w.lineCount.value - 1
        then (endByte.None? <==> seen < w.fromLine + w.lineCount.value - 1) &&
             (endByte.Some? ==> endByte.value <= pos && Behind(b, w.fromLine + w.lineCount.value - 1, endByte.value))
        else endByte.None?)
  }

  /** The step both loops take at a newline. */
  lemma PassNewline(b: seq<Byte>, w: Window, pos: nat, nl: nat, startByte: Option<nat>, endByte: Option<nat>, seen: nat)
    requires Progress(b, w, pos, startByte, endByte, seen)
    requires pos <= nl < |b| && b[nl] == NL && NoNL(b, pos, nl)
    ensures Progress(b, w, nl + 1,
      if startByte.None? && seen + 1 == w.fromLine - 1 then Some(nl + 1) else startByte,
      if w.lineCount.Some? && endByte.None? && seen + 1 == w.fromLine + w.lineCount.value - 1 then Some(nl + 1) else endByte,
      seen + 1)
  {
    CountRun(b, pos, nl);
    if startByte.Some? && w.fromLine > 1 { CountMono(b, startByte.value, |b|); }
  }

  lemma {:induction false} LineCount(b: seq<Byte>)
    ensures |Lines(b)| == Count(b, |b|) + if b != [] && b[|b| - 1] != NL then 1 else 0
    decreases |b|
  {
    var i := FirstNL(b);
    if i == |b| {
      CountRun(b, 0, |b|);
    } else {
      CountRun(b, 0, i);
      CountShift(b, i + 1, |b| - i - 1);
      var rest := b[i + 1..];
      LineCount(rest);
      if rest != [] { assert rest[|rest| - 1] == b[|b| - 1]; }
    }
  }

  /** The common ending of both scans: `pos` is the last line start passed, and either both
      boundaries are known or no newline is left behind it. */
  lemma Finish(b: seq<Byte>, w: Window, pos: nat, startByte: Option<nat>, endByte: Option<nat>, seen: nat, total: nat)
    requires Progress(b, w, pos, startByte, endByte, seen)
    requires startByte.None? || endByte.None? ==> NoNL(b, pos, |b|) && total == seen + if pos < |b| then 1 else 0
    requires pos == |b| ==> total == seen
    ensures IsRange(b, w, Range(
      if startByte.Some? then startByte.value else |b|, if endByte.Some? then endByte.value else |b|,
      if endByte.None? || endByte.value == |b| then Some(total) else None))
  {
    LineCount(b);
    CountMono(b, pos, |b|);
    if startByte.Some? && w.fromLine > 1 { CountMono(b, startByte.value, |b|); }
    if endByte.Some? { CountMono(b, endByte.value, |b|); }
    if startByte.None? || endByte.None? { CountRun(b, pos, |b|); }
  }

  method ScanWhole(bytes: seq<Byte>, w: Window) returns (r: Range)
    ensures IsRange(bytes, w, r)
  {
    var startByte: Option<nat>, endByte: Option<nat> := if w.fromLine <= 1 then Some(0) else None, None;
    var seen, idx := 0, 0;
    while idx < |bytes|
      invariant Progress(bytes, w, idx, startByte, endByte, seen)
    {
      var nl := IndexOfNL(bytes, idx);
      if nl == -1 { break; }
      PassNewline(bytes, w, idx, nl, startByte, endByte, seen);
      seen := seen + 1;
      if startByte.None? && seen == w.fromLine - 1 { startByte := Some(nl + 1); }
      if w.lineCount.Some? && endByte.None? && seen == w.fromLine + w.lineCount.value - 1 { endByte := Some(nl + 1); }
      idx := nl + 1;
    }
    var total := if idx < |bytes| then seen + 1 else seen;
    Finish(bytes, w, idx, startByte, endByte, seen, total);
    if idx < |bytes| && startByte.None? && total == w.fromLine - 1 { startByte := Some(|bytes|); }
    var from := if startByte.Some? then startByte.value else |bytes|;
    var to := if endByte.Some? then endByte.value else |bytes|;
    return Range(from, to, if to == |bytes| then Some(total) else None);
  }

  /** The inner loop of the chunked scan: pass the newlines of one buffer, stopping early once
      both boundaries are known. The buffer is the file from `base` on. */
  method PassBuffer(ghost file: seq<Byte>, w: Window, combined: seq<Byte>, base: nat, start0: Option<nat>, end0: Option<nat>, seen0: nat)
    returns (lineStart: nat, startByte: Option<nat>, endByte: Option<nat>, seen: nat)
    requires base + |combined| <= |file| && combined == file[base..base + |combined|]
    requires Progress(file, w, base, start0, end0, seen0) && (start0.None? || end0.None?)
    ensures lineStart <= |combined| && Progress(file, w, base + lineStart, startByte, endByte, seen)
    ensures startByte.None? || endByte.None? ==> NoNL(file, base + lineStart, base + |combined|)
  {
    hide Progress;
    lineStart, startByte, endByte, seen := 0, start0, end0, seen0;
    while true
      invariant lineStart <= |combined|
      invariant Progress(file, w, base + lineStart, startByte, endByte, seen)
      decreases |combined| - lineStart
    {
      var nl := IndexOfNL(combined, lineStart);
      if nl == -1 {
        NoNLSlice(file, base, base + |combined|, lineStart, |combined|);
        return;
      }
      NoNLSlice(file, base, base + |combined|, lineStart, nl);
      PassNewline(file, w, base + lineStart, base + nl, startByte, endByte, seen);
      seen := seen + 1;
      if startByte.None? && seen == w.fromLine - 1 { startByte := Some(base + nl + 1); }
      if w.lineCount.Some? && endByte.None? && seen == w.fromLine + w.lineCount.value - 1 { endByte := Some(base + nl + 1); }
      lineStart := nl + 1;
      if startByte.Some? && endByte.Some? { return; }
    }
  }

  method ScanChunked(file: seq<Byte>, w: Window, chunk: nat) returns (r: Range)
    requires 1 <= chunk
    ensures IsRange(file, w, r)
  {
    var startByte: Option<nat>, endByte: Option<nat> := if w.fromLine <= 1 then Some(0) else None, None;
    var seen, leftoverStart, readPos := 0, 0, 0;
    var leftover: seq<Byte> := [];
    while readPos < |file| && (startByte.None? || endByte.None?)
      invariant leftoverStart <= readPos <= |file| && leftover == file[leftoverStart..readPos]
      invariant Progress(file, w, leftoverStart, startByte, endByte, seen)
      invariant startByte.None? || endByte.None? ==> NoNL(file, leftoverStart, readPos)
    {
      var bytesRead := if |file| - readPos < chunk then |file| - readPos else chunk;
      var combined := leftover + file[readPos..readPos + bytesRead];
      var base := leftoverStart;
      readPos := readPos + bytesRead;
      assert combined == file[base..readPos];
      var lineStart: nat;
      lineStart, startByte, endByte, seen := PassBuffer(file, w, combined, base, startByte, endByte, seen);
      leftover := combined[lineStart..];
      leftoverStart := base + lineStart;
      if startByte.Some? && endByte.Some? { break; }
    }
    var total := if |leftover| > 0 then seen + 1 else seen;
    Finish(file, w, leftoverStart, startByte, endByte, seen, total);
    if |leftover| > 0 && startByte.None? && total == w.fromLine - 1 { startByte := Some(|file|); }
    var from := if startByte.Some? then startByte.value else |file|;
    var to := if endByte.Some? then endByte.value else |file|;
    return Range(from, to, if to == |file| then Some(total) else None);
  }

  // ---------------------------------------------------------------- what the answer means

  lemma BehindUnique(b: seq<Byte>, k: int, x: nat, y: nat)
    requires Behind(b, k, x) && Behind(b, k, y)
    ensures x == y
  {
    if x < y { CountMono(b, x, y - 1); }
    if y < x { CountMono(b, y, x - 1); }
  }

  /** There is one right answer, so the chunked scan agrees with the whole-buffer scan for
      every chunk size. */
  lemma ScansAgree(b: seq<Byte>, w: Window, r: Range, q: Range)
    requires IsRange(b, w, r) && IsRange(b, w, q)
    ensures r == q
  {
    if w.fromLine > 1 && w.fromLine - 1 <= Count(b, |b|) { BehindUnique(b, w.fromLine - 1, r.startByte, q.startByte); }
    if w.lineCount.Some? && 1 <= w.fromLine + w.lineCount.value - 1 <= Count(b, |b|) {
      BehindUnique(b, w.fromLine + w.lineCount.value - 1, r.endByte, q.endByte);
    }
  }

  lemma {:induction false} FlattenConcat(p: seq<seq<Byte>>, q: seq<seq<Byte>>)
    ensures Flatten(p + q) == Flatten(p) + Flatten(q)
  {
    if p == [] {
      assert p + q == q;
    } else {
      FlattenConcat(p[1..], q);
      assert (p + q)[1..] == p[1..] + q;
      assert p[0] + (Flatten(p[1..]) + Flatten(q)) == p[0] + Flatten(p[1..]) + Flatten(q);
    }
  }

  /** Where the first `k` lines end. */
  ghost function LineEnd(b: seq<Byte>, k: nat): (x: nat)
    requires k <= |Lines(b)|
    ensures x <= |b|
    decreases k
  {
    var i := FirstNL(b);
    if k == 0 then 0 else if i == |b| then |b| else i + 1 + LineEnd(b[i + 1..], k - 1)
  }

  lemma {:induction false} LineEndFlattens(b: seq<Byte>, k: nat)
    requires k <= |Lines(b)|
    ensures b[..LineEnd(b, k)] == Flatten(Lines(b)[..k])
    decreases k
  {
    var i := FirstNL(b);
    if k > 0 && i == |b| {
      assert Lines(b)[..k] == [b] && Flatten([b]) == b + Flatten([b][1..]);
    } else if k > 0 {
      var rest := b[i + 1..];
      LineEndFlattens(rest, k - 1);
      assert Lines(b)[..k][1..] == Lines(rest)[..k - 1];
      assert b[..LineEnd(b, k)] == b[..i + 1] + rest[..LineEnd(rest, k - 1)];
    }
  }

  lemma {:induction false} LineEndLast(b: seq<Byte>, k: nat)
    requires k <= |Lines(b)|
    ensures LineEnd(b, k) == |b| <==> k == |Lines(b)|
    decreases k
  {
    var i := FirstNL(b);
    if k > 0 && i < |b| { LineEndLast(b[i + 1..], k - 1); }
  }

  /** ... behind the `k`-th newline, or at the end of the bytes when there is no such newline. */
  lemma {:induction false} LineEndBehind(b: seq<Byte>, k: nat)
    requires 0 < k <= Count(b, |b|) && k <= |Lines(b)|
    ensures Behind(b, k, LineEnd(b, k))
    decreases k
  {
    var i := FirstNL(b);
    CountRun(b, 0, i);
    if i < |b| {
      var rest := b[i + 1..];
      CountShift(b, i + 1, |rest|);
      if k > 1 {
        LineEndBehind(rest, k - 1);
        BehindShift(b, i + 1, k - 1, LineEnd(rest, k - 1));
      }
    }
  }

  lemma BehindShift(b: seq<Byte>, x: nat, k: int, y: nat)
    requires x <= |b| && Behind(b[x..], k, y)
    ensures Behind(b, Count(b, x) + k, x + y)
  {
    CountShift(b, x, y);
    assert b[x..][y - 1] == b[x + y - 1];
  }

  /** The line after the last one the window asks for, within a blob of `n` lines. */
  ghost function StopLine(w: Window, n: nat): int {
    if w.lineCount.None? then n else Min(w.fromLine - 1 + w.lineCount.value, n)
  }

  lemma StartIsLineEnd(b: seq<Byte>, w: Window, x: nat)
    requires IsStart(b, w, x) && w.fromLine >= 1
    ensures x == LineEnd(b, Min(w.fromLine - 1, |Lines(b)|))
  {
    hide Lines, LineEnd;
    var from := Min(w.fromLine - 1, |Lines(b)|);
    LineCount(b);
    LineEndLast(b, from);
    if 0 < from <= Count(b, |b|) {
      LineEndBehind(b, from);
      if Behind(b, from, x) { BehindUnique(b, from, x, LineEnd(b, from)); }
    } else if from == 0 {
      LineEndNone(b);
    }
  }

  lemma LineEndNone(b: seq<Byte>)
    ensures LineEnd(b, 0) == 0
  {
  }

  lemma StopIsLineEnd(b: seq<Byte>, w: Window, x: nat)
    requires IsEnd(b, w, x) && w.fromLine >= 1 && (w.lineCount.Some? ==> w.lineCount.value >= 1)
    ensures StopLine(w, |Lines(b)|) >= 0 && x == LineEnd(b, StopLine(w, |Lines(b)|))
  {
    hide Lines, LineEnd;
    var to := StopLine(w, |Lines(b)|);
    LineCount(b);
    LineEndLast(b, to);
    if 0 < to <= Count(b, |b|) {
      LineEndBehind(b, to);
      if Behind(b, to, x) { BehindUnique(b, to, x, LineEnd(b, to)); }
    }
  }

  /** The window is the slice of whole lines [fromLine, fromLine + lineCount), clipped to the
      blob, and the total comes with it exactly when no line is left behind the window. */
  lemma WindowIsLineSlice(b: seq<Byte>, w: Window, r: Range)
    requires IsRange(b, w, r)
    requires w.fromLine >= 1 && (w.lineCount.Some? ==> w.lineCount.value >= 1)
    ensures var n := |Lines(b)|; var from := Min(w.fromLine - 1, n); var to := StopLine(w, n);
      && 0 <= from <= to <= n && r.startByte <= r.endByte <= |b|
      && b[r.startByte..r.endByte] == Flatten(Lines(b)[from..to])
      && r.linesAtEnd == if to == n then Some(n) else None
  {
    hide Lines, LineEnd, Flatten, IsStart, IsEnd;
    var ls := Lines(b);
    var from, to := Min(w.fromLine - 1, |ls|), StopLine(w, |ls|);
    StartIsLineEnd(b, w, r.startByte);
    StopIsLineEnd(b, w, r.endByte);
    LineEndLast(b, to);
    LineEndFlattens(b, from);
    LineEndFlattens(b, to);
    FlattenConcat(ls[..from], ls[from..to]);
    assert ls[..to] == ls[..from] + ls[from..to];
    assert b[..r.endByte] == b[..r.startByte] + Flatten(ls[from..to]);
    assert b[r.startByte..r.endByte] == b[..r.endByte][r.startByte..];
  }

  /** The quirk at `lineCount` 0, which no caller can ask for over HTTP: a window of no lines
      from the first line is the whole blob. */
  lemma NoLinesIsWhole(b: seq<Byte>, r: Range)
    requires IsRange(b, Window(1, Some(0)), r)
    ensures b[r.startByte..r.endByte] == b && r.linesAtEnd == Some(|Lines(b)|)
  {
  }
}
