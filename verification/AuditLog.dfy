/**
Pages of the audit log, newest record first: the backward chunked reader of
`src/agent-console/store/fs.ts` and the in-memory reader of `src/agent-console/store/memory.ts`.
A cursor is the offset of a line, opaque to callers and sealed, so the ones that come back
are the ones that were given out.
*/
module AuditLog {
  import opened Common
  import opened Bytes
  import opened LineLog

  /** What is asked of the log. `parse` reads a line, and fails on a torn or corrupt one;
      `matches` is the filter; a `limit` that is not positive asks for the cap. */
  datatype Query<!R> = Query(parse: seq<Byte> -> Option<R>, matches: R -> bool, limit: int, pageMax: nat) {
    function Hit(text: seq<Byte>): Option<R> {
      var record := parse(text);
      if record.Some? && matches(record.value) then record else None
    }

    function Limit(): int {
      if 0 < limit < pageMax then limit else pageMax
    }
  }

  datatype Page<R> = Page(records: seq<R>, next: Option<nat>)

  datatype Reply<R> = Given(page: Page<R>) | Refused

  // ---------------------------------------------------------------- meaning

  /** The log as a query sees it: one entry a line, empty where nothing matches. */
  ghost function Hits<R>(q: Query<R>, ls: seq<Line>): seq<Option<R>> {
    seq(|ls|, i requires 0 <= i < |ls| => q.Hit(ls[i].text))
  }

  /** The matching records of a log, newest first. */
  ghost function Found<R>(hits: seq<Option<R>>): seq<R> {
    if hits == [] then [] else Found(hits[1..]) + if hits[0].Some? then [hits[0].value] else []
  }

  /** A page read back from the end of a log stops at entry `at`: the limit and the scan
      budget hold, the entry before would not have been read sooner, and unless the log is
      spent the page is full or the budget is. */
  ghost predicate StopsAt<R>(hits: seq<Option<R>>, limit: int, budget: nat, at: nat) {
    && at <= |hits| && |hits| - at <= budget && |Found(hits[at..])| <= limit
    && (at < |hits| ==> |Found(hits[at + 1..])| < limit)
    && (at > 0 ==> Full(hits, limit, budget, at))
  }

  ghost predicate Full<R>(hits: seq<Option<R>>, limit: int, budget: nat, at: nat)
    requires at <= |hits|
  {
    |Found(hits[at..])| == limit || |hits| - at == budget
  }

  /** Page `p` holds what matches among the lines from `at` up to the offset `upper`, and leads
      on to the line at `at` unless that line opens the file. */
  ghost predicate PageFrom<R>(f: seq<Byte>, upper: nat, q: Query<R>, p: Page<R>, at: nat)
    requires upper <= |f|
  {
    var ls := LinesIn(f, 0, upper);
    var hits := Hits(q, ls);
    && StopsAt(hits, q.Limit(), q.pageMax, at)
    && p.records == Found(hits[at..])
    && p.next == if at < |ls| && Full(hits, q.Limit(), q.pageMax, at) && ls[at].start > 0 then Some(ls[at].start) else None
  }

  ghost predicate IsPage<R>(f: seq<Byte>, upper: nat, q: Query<R>, p: Page<R>)
    requires upper <= |f|
  {
    exists at :: PageFrom(f, upper, q, p, at)
  }

  /** What the in-memory log answers; its cursors count records. */
  ghost predicate MemoryPageFrom<R>(audit: seq<R>, upper: nat, q: Query<R>, p: Page<R>, at: nat)
    requires upper <= |audit|
  {
    var hits := RecordHits(q, audit[..upper]);
    && StopsAt(hits, q.Limit(), q.pageMax, at)
    && p == Page(Found(hits[at..]), if at > 0 then Some(at) else None)
  }

  ghost predicate IsMemoryPage<R>(audit: seq<R>, upper: nat, q: Query<R>, p: Page<R>)
    requires upper <= |audit|
  {
    exists at :: MemoryPageFrom(audit, upper, q, p, at)
  }

  ghost function RecordHits<R>(q: Query<R>, audit: seq<R>): seq<Option<R>> {
    seq(|audit|, i requires 0 <= i < |audit| => if q.matches(audit[i]) then Some(audit[i]) else None)
  }

  // ---------------------------------------------------------------- the backward reader

  /** Every line from `pos` on has been examined, and the page is not yet full. */
  ghost predicate Walked<R>(f: seq<Byte>, upper: nat, q: Query<R>, pos: nat, records: seq<R>, examined: nat) {
    && Cut(f, 0, pos, upper)
    && records == Found(Hits(q, LinesIn(f, pos, upper))) && |records| < q.Limit()
    && examined == |LinesIn(f, pos, upper)| && examined < q.pageMax
  }

  lemma WalkStart<R>(f: seq<Byte>, upper: nat, q: Query<R>)
    requires upper <= |f| && 1 <= q.pageMax
    ensures Walked(f, upper, q, upper, [], 0)
  {
  }

  lemma WalkBlank<R>(f: seq<Byte>, upper: nat, q: Query<R>, lo: nat, pos: nat, records: seq<R>, examined: nat)
    requires Walked(f, upper, q, pos, records, examined)
    requires Cut(f, 0, lo, pos) && LinesIn(f, lo, pos) == []
    ensures Walked(f, upper, q, lo, records, examined)
  {
    hide LinesIn, Hits, Found;
    LinesSplit(f, lo, pos, upper);
    assert LinesIn(f, lo, upper) == LinesIn(f, pos, upper);
  }

  lemma WalkLine<R>(f: seq<Byte>, upper: nat, q: Query<R>, lo: nat, pos: nat, records: seq<R>, examined: nat, l: Line, more: seq<R>)
    requires Walked(f, upper, q, pos, records, examined)
    requires Cut(f, 0, lo, pos) && LinesIn(f, lo, pos) == [l] && l.start == lo
    requires more == records + if q.Hit(l.text).Some? then [q.Hit(l.text).value] else []
    ensures |more| < q.Limit() && examined + 1 < q.pageMax ==> Walked(f, upper, q, lo, more, examined + 1)
    ensures |more| >= q.Limit() || examined + 1 >= q.pageMax ==>
            IsPage(f, upper, q, Page(more, if lo == 0 then None else Some(lo)))
  {
    OneMoreLine(f, upper, q, lo, pos, l);
    hide LinesIn, Hits;
    if |more| >= q.Limit() || examined + 1 >= q.pageMax { PageFull(f, upper, q, lo, pos, records, examined, l, more); }
  }

  lemma OneMoreLine<R>(f: seq<Byte>, upper: nat, q: Query<R>, lo: nat, pos: nat, l: Line)
    requires upper <= |f| && Cut(f, 0, lo, pos) && Cut(f, 0, pos, upper) && LinesIn(f, lo, pos) == [l]
    ensures Cut(f, 0, lo, upper) && LinesIn(f, lo, upper) == [l] + LinesIn(f, pos, upper)
    ensures Hits(q, LinesIn(f, lo, upper))[1..] == Hits(q, LinesIn(f, pos, upper))
    ensures Hits(q, LinesIn(f, lo, upper))[0] == q.Hit(l.text)
  {
    hide LinesIn;
    LinesSplit(f, lo, pos, upper);
    assert Hits(q, [l] + LinesIn(f, pos, upper))[1..] == Hits(q, LinesIn(f, pos, upper));
  }

  lemma PageFull<R>(f: seq<Byte>, upper: nat, q: Query<R>, lo: nat, pos: nat, records: seq<R>, examined: nat, l: Line, more: seq<R>)
    requires Walked(f, upper, q, pos, records, examined)
    requires Cut(f, 0, lo, pos) && LinesIn(f, lo, pos) == [l] && l.start == lo
    requires more == records + if q.Hit(l.text).Some? then [q.Hit(l.text).value] else []
    requires |more| >= q.Limit() || examined + 1 >= q.pageMax
    ensures IsPage(f, upper, q, Page(more, if lo == 0 then None else Some(lo)))
  {
    hide LinesIn;
    OneMoreLine(f, upper, q, lo, pos, l);
    LinesSplit(f, 0, lo, upper);
    var at := |LinesIn(f, 0, lo)|;
    var hits := Hits(q, LinesIn(f, 0, upper));
    assert hits[at..] == Hits(q, LinesIn(f, lo, upper));
    assert hits[at + 1..] == hits[at..][1..];
    assert PageFrom(f, upper, q, Page(more, if lo == 0 then None else Some(lo)), at);
  }

  lemma WalkedAll<R>(f: seq<Byte>, upper: nat, q: Query<R>, records: seq<R>, examined: nat)
    requires Walked(f, upper, q, 0, records, examined)
    ensures IsPage(f, upper, q, Page(records, None))
  {
    var hits := Hits(q, LinesIn(f, 0, upper));
    assert hits[0..] == hits;
    if |hits| > 0 { assert hits[1..] == hits[0..][1..]; }
    assert PageFrom(f, upper, q, Page(records, None), 0);
  }

  lemma BufferBlank<R>(f: seq<Byte>, upper: nat, q: Query<R>, base: nat, buf: seq<Byte>, starts: seq<nat>, i: nat, records: seq<R>, examined: nat)
    requires Holds(f, base, buf, starts) && i < |starts| && (i > 0 || base == 0)
    requires Walked(f, upper, q, base + From(buf, starts, i + 1), records, examined)
    requires LineEnd(buf, starts, i) <= starts[i]
    ensures Walked(f, upper, q, base + From(buf, starts, i), records, examined)
  {
    hide LinesIn, Walked;
    LineOfBuffer(f, base, buf, starts, i);
    WalkBlank(f, upper, q, base + starts[i], base + From(buf, starts, i + 1), records, examined);
  }

  lemma BufferLine<R>(f: seq<Byte>, upper: nat, q: Query<R>, base: nat, buf: seq<Byte>, starts: seq<nat>, i: nat, records: seq<R>, examined: nat, more: seq<R>)
    requires Holds(f, base, buf, starts) && i < |starts| && (i > 0 || base == 0)
    requires Walked(f, upper, q, base + From(buf, starts, i + 1), records, examined)
    requires starts[i] < LineEnd(buf, starts, i) <= |buf|
    requires var hit := q.Hit(buf[starts[i]..LineEnd(buf, starts, i)]); more == records + if hit.Some? then [hit.value] else []
    ensures var full := |more| >= q.Limit() || examined + 1 >= q.pageMax; var start := base + starts[i];
      if full then IsPage(f, upper, q, Page(more, if start == 0 then None else Some(start)))
      else Walked(f, upper, q, base + From(buf, starts, i), more, examined + 1)
  {
    hide LinesIn, Walked, IsPage;
    LineOfBuffer(f, base, buf, starts, i);
    var l := Line(base + starts[i], buf[starts[i]..LineEnd(buf, starts, i)]);
    WalkLine(f, upper, q, base + starts[i], base + From(buf, starts, i + 1), records, examined, l, more);
  }

  /** A line held over to the next chunk leaves its newline behind. */
  lemma BufferRest<R>(f: seq<Byte>, upper: nat, q: Query<R>, base: nat, buf: seq<Byte>, starts: seq<nat>, records: seq<R>, examined: nat)
    requires Holds(f, base, buf, starts)
    requires Walked(f, upper, q, base + From(buf, starts, 1), records, examined)
    ensures 0 <= HeldOver(buf, starts) <= |buf| && Walked(f, upper, q, base + HeldOver(buf, starts), records, examined)
  {
    hide LinesIn, Walked;
    if |starts| > 1 {
      LineBounds(buf, starts, 1);
      var e := base + starts[1] - 1;
      NewlineAlone(f, e);
      WalkBlank(f, upper, q, e, e + 1, records, examined);
    }
  }

  /** The loop over one buffer, its last line first: it fills the page, or reads every line
      whose start is known and holds over the bytes before them. */
  method WalkBuffer<R>(ghost file: seq<Byte>, ghost upper: nat, q: Query<R>, buf: seq<Byte>, readStart: nat, records0: seq<R>, examined0: nat)
    returns (full: Option<Page<R>>, records: seq<R>, examined: nat, tail: seq<Byte>)
    requires buf != [] && readStart + |buf| <= upper <= |file| && buf == file[readStart..readStart + |buf|]
    requires Walked(file, upper, q, readStart + |buf|, records0, examined0)
    ensures full.Some? ==> IsPage(file, upper, q, full.value)
    ensures full.None? ==> |tail| <= |buf| && tail == buf[..|tail|] && Walked(file, upper, q, readStart + |tail|, records, examined)
    ensures full.None? && readStart == 0 ==> tail == []
  {
    hide Walked, IsPage;
    full, records, examined, tail := None, records0, examined0, [];
    var starts := LineStarts(buf);
    var i: nat := |starts|;
    while i > 0
      invariant 0 <= i <= |starts| && (i == 0 ==> readStart == 0)
      invariant Walked(file, upper, q, readStart + From(buf, starts, i), records, examined)
    {
      i := i - 1;
      if i == 0 && readStart > 0 {
        BufferRest(file, upper, q, readStart, buf, starts, records, examined);
        tail := buf[..HeldOver(buf, starts)];
        return;
      }
      LineBounds(buf, starts, i);
      var start, end := starts[i], LineEnd(buf, starts, i);
      if end <= start {
        BufferBlank(file, upper, q, readStart, buf, starts, i, records, examined);
        continue;
      }
      var absoluteStart := readStart + start;
      var hit := q.Hit(buf[start..end]);
      var more := if hit.Some? then records + [hit.value] else records;
      BufferLine(file, upper, q, readStart, buf, starts, i, records, examined, more);
      records, examined := more, examined + 1;
      if |records| >= q.Limit() || examined >= q.pageMax {
        full := Some(Page(records, if absoluteStart == 0 then None else Some(absoluteStart)));
        return;
      }
    }
    LineBounds(buf, starts, 0);
  }

  method ReadAuditPage<R>(file: seq<Byte>, q: Query<R>, before: Option<nat>, chunk: nat) returns (r: Reply<R>)
    requires 1 <= chunk && 1 <= q.pageMax
    requires before.Some? && before.value <= |file| ==> Cut(file, 0, before.value, |file|)
    ensures before.Some? && before.value > |file| ==> r == Refused
    ensures before.None? || before.value <= |file| ==>
      r.Given? && IsPage(file, if before.None? then |file| else before.value, q, r.page)
  {
    hide LinesIn, Found, Hits, IsPage;
    if before.Some? && before.value > |file| { return Refused; }
    var upper: nat := if before.None? then |file| else before.value;
    var records: seq<R>, examined: nat := [], 0;
    var tail: seq<Byte>, cursor: nat := [], upper;
    WalkStart(file, upper, q);
    while cursor > 0
      invariant cursor + |tail| <= upper && tail == file[cursor..cursor + |tail|] && (cursor == 0 ==> tail == [])
      invariant Walked(file, upper, q, cursor + |tail|, records, examined)
    {
      var readStart := if cursor < chunk then 0 else cursor - chunk;
      var buf := file[readStart..cursor] + tail;
      assert buf == file[readStart..cursor + |tail|];
      var full: Option<Page<R>>;
      full, records, examined, tail := WalkBuffer(file, upper, q, buf, readStart, records, examined);
      if full.Some? { return Given(full.value); }
      cursor := readStart;
    }
    WalkedAll(file, upper, q, records, examined);
    return Given(Page(records, None));
  }

  // ---------------------------------------------------------------- the in-memory reader

  method ReadMemoryPage<R>(audit: seq<R>, q: Query<R>, from: Option<nat>) returns (r: Reply<R>)
    requires 1 <= q.pageMax
    ensures from.Some? && from.value > |audit| ==> r == Refused
    ensures from.None? || from.value <= |audit| ==>
      r.Given? && IsMemoryPage(audit, if from.None? then |audit| else from.value, q, r.page)
  {
    if from.Some? && from.value > |audit| { return Refused; }
    var upper: nat := if from.None? then |audit| else from.value;
    var before: nat, records: seq<R>, examined: nat := upper, [], 0;
    ghost var hits := RecordHits(q, audit[..upper]);
    while before > 0 && examined < q.pageMax && |records| < q.Limit()
      invariant 0 <= before <= upper && examined == upper - before <= q.pageMax
      invariant records == Found(hits[before..]) && |records| <= q.Limit()
      invariant before < upper ==> |Found(hits[before + 1..])| < q.Limit()
    {
      examined, before := examined + 1, before - 1;
      assert hits[before..][1..] == hits[before + 1..];
      if q.matches(audit[before]) { records := records + [audit[before]]; }
    }
    r := Given(Page(records, if before > 0 then Some(before) else None));
    assert MemoryPageFrom(audit, upper, q, r.page, before);
  }

  // ---------------------------------------------------------------- both readers agree

  lemma {:induction false} FoundConcat<R>(a: seq<Option<R>>, b: seq<Option<R>>)
    ensures Found(a + b) == Found(b) + Found(a)
  {
    if a == [] {
      assert a + b == b;
    } else {
      FoundConcat(a[1..], b);
      assert (a + b)[1..] == a[1..] + b;
    }
  }

  lemma FoundShrinks<R>(hits: seq<Option<R>>, i: nat, j: nat)
    requires i <= j <= |hits|
    ensures |Found(hits[i..])| >= |Found(hits[j..])|
  {
    FoundConcat(hits[i..j], hits[j..]);
    assert hits[i..j] + hits[j..] == hits[i..];
  }

  /** A page stops at one place only. */
  lemma StopsOnce<R>(hits: seq<Option<R>>, limit: int, budget: nat, x: nat, y: nat)
    requires StopsAt(hits, limit, budget, x) && StopsAt(hits, limit, budget, y)
    ensures x == y
  {
    if x < y { FoundShrinks(hits, x + 1, y); }
    if y < x { FoundShrinks(hits, y + 1, x); }
  }

  /** The file holds exactly these records, one a line, and does not open with a blank line. */
  ghost predicate Stores<R>(f: seq<Byte>, q: Query<R>, audit: seq<R>) {
    var ls := LinesIn(f, 0, |f|);
    && |ls| == |audit| && (forall i | 0 <= i < |ls| :: q.parse(ls[i].text) == Some(audit[i]))
    && (f != [] ==> f[0] != NL)
  }

  /** A cursor into the file and a cursor into the records that name the same line. */
  ghost predicate SameCursor(f: seq<Byte>, offset: Option<nat>, index: Option<nat>) {
    var ls := LinesIn(f, 0, |f|);
    if index.None? then offset.None? else index.value < |ls| && offset == Some(ls[index.value].start)
  }

  /** For a log of valid lines, whatever the chunk size: the file's page and the in-memory
      page from the same cursor hold the same records and lead on to the same line. */
  lemma PagesAgree<R>(f: seq<Byte>, audit: seq<R>, q: Query<R>, offset: Option<nat>, index: Option<nat>, p: Page<R>, m: Page<R>)
    requires Stores(f, q, audit) && SameCursor(f, offset, index) && 1 <= q.pageMax
    requires offset.Some? ==> offset.value <= |f|
    requires IsPage(f, if offset.None? then |f| else offset.value, q, p)
    requires IsMemoryPage(audit, if index.None? then |audit| else index.value, q, m)
    ensures p.records == m.records && SameCursor(f, p.next, m.next)
  {
    assert LinesIn(f, 0, 0) == [];
    hide LinesIn;
    var upper := if offset.None? then |f| else offset.value;
    var count := if index.None? then |audit| else index.value;
    var ls, all := LinesIn(f, 0, upper), LinesIn(f, 0, |f|);
    if index.Some? { LinesBefore(f, 0, |f|, index.value); }
    assert ls == all[..count];
    assert Hits(q, ls) == RecordHits(q, audit[..count]);
    var x: nat :| PageFrom(f, upper, q, p, x);
    var y: nat :| MemoryPageFrom(audit, count, q, m, y);
    StopsOnce(Hits(q, ls), q.Limit(), q.pageMax, x, y);
    if x == |ls| { assert Hits(q, ls)[x..] == []; }
    if upper > 0 && |f| > 0 { FirstLine(f, upper); }
    if 0 < x < |ls| { LinesFrom(f, 0, |f|, x); }
  }

  /** Appending a record to a log of valid lines gives a log of valid lines. */
  lemma AppendStores<R>(f: seq<Byte>, q: Query<R>, audit: seq<R>, text: seq<Byte>, r: R)
    requires Stores(f, q, audit) && (f == [] || f[|f| - 1] == NL)
    requires text != [] && NoNL(text, 0, |text|) && q.parse(text) == Some(r)
    ensures Stores(f + text + [NL], q, audit + [r])
  {
    AppendLine(f, text);
  }

  // ---------------------------------------------------------------- paging through the log

  /** A cursor leads strictly back and to a place where lines part, so following cursors ends. */
  lemma NextIsOlder<R>(f: seq<Byte>, upper: nat, q: Query<R>, p: Page<R>)
    requires upper <= |f| && IsPage(f, upper, q, p) && p.next.Some?
    ensures p.next.value < upper && Cut(f, 0, p.next.value, |f|)
  {
    hide LinesIn, Found;
    var at: nat :| PageFrom(f, upper, q, p, at);
    LinesFrom(f, 0, upper, at);
  }

  /** A page and what is older than its cursor make up everything, in order and without overlap. */
  lemma PageThenOlder<R>(f: seq<Byte>, upper: nat, q: Query<R>, p: Page<R>)
    requires upper <= |f| && IsPage(f, upper, q, p) && 1 <= q.pageMax
    requires p.next.Some? ==> p.next.value <= |f|
    ensures Found(Hits(q, LinesIn(f, 0, upper))) ==
            p.records + if p.next.Some? then Found(Hits(q, LinesIn(f, 0, p.next.value))) else []
  {
    hide LinesIn;
    var ls := LinesIn(f, 0, upper);
    var hits := Hits(q, ls);
    var at: nat :| PageFrom(f, upper, q, p, at);
    FoundConcat(hits[..at], hits[at..]);
    assert hits[..at] + hits[at..] == hits;
    if at < |ls| { LinesFrom(f, 0, upper, at); }
    if p.next.Some? {
      LinesBefore(f, 0, upper, at);
      assert Hits(q, ls[..at]) == hits[..at];
    }
  }

  /** A page from an old cursor is not disturbed by records appended since. */
  lemma AppendKeepsPage<R>(f: seq<Byte>, g: seq<Byte>, upper: nat, q: Query<R>, p: Page<R>)
    requires upper <= |f|
    ensures IsPage(f + g, upper, q, p) <==> IsPage(f, upper, q, p)
  {
    LinesKept(f, g, 0, upper);
    if IsPage(f, upper, q, p) {
      var at: nat :| PageFrom(f, upper, q, p, at);
      assert PageFrom(f + g, upper, q, p, at);
    }
    if IsPage(f + g, upper, q, p) {
      var at: nat :| PageFrom(f + g, upper, q, p, at);
      assert PageFrom(f, upper, q, p, at);
    }
  }

  /** A page is never longer than what was asked for, nor than the cap, and costs no more than
      the cap to read; and it stops short of what was asked for only if the log is spent or the
      cap on the lines read is reached. */
  lemma PageIsBounded<R>(f: seq<Byte>, upper: nat, q: Query<R>, p: Page<R>)
    requires upper <= |f| && IsPage(f, upper, q, p)
    ensures |p.records| <= q.pageMax && (0 < q.limit ==> |p.records| <= q.limit)
    ensures p.next.Some? ==> p.next.value <= upper && |LinesIn(f, p.next.value, upper)| <= q.pageMax
    ensures p.next.Some? && |p.records| < q.pageMax && (0 < q.limit ==> |p.records| < q.limit) ==>
      |LinesIn(f, p.next.value, upper)| == q.pageMax
  {
    hide LinesIn, Found;
    var at: nat :| PageFrom(f, upper, q, p, at);
    if p.next.Some? { LinesFrom(f, 0, upper, at); }
  }

  /** The same of a page of the in-memory log. */
  lemma MemoryPageIsBounded<R>(audit: seq<R>, upper: nat, q: Query<R>, p: Page<R>)
    requires upper <= |audit| && IsMemoryPage(audit, upper, q, p)
    ensures |p.records| <= q.pageMax && (0 < q.limit ==> |p.records| <= q.limit)
    ensures p.next.Some? ==> p.next.value <= upper && upper - p.next.value <= q.pageMax
    ensures p.next.Some? && |p.records| < q.pageMax && (0 < q.limit ==> |p.records| < q.limit) ==>
      upper - p.next.value == q.pageMax
  {
    hide Found;
    var at: nat :| MemoryPageFrom(audit, upper, q, p, at);
  }

  /** What a caller does to read a whole log: page on until the cursor is null. It ends, and has
      then seen every matching record exactly once, newest first. */
  method FollowCursors<R>(file: seq<Byte>, q: Query<R>, chunk: nat) returns (records: seq<R>)
    requires 1 <= chunk && 1 <= q.pageMax
    ensures records == Found(Hits(q, LinesIn(file, 0, |file|)))
  {
    hide LinesIn, Found, Hits, IsPage;
    records := [];
    var before: Option<nat> := None;
    ghost var upper: nat := |file|;
    while true
      invariant upper == (if before.None? then |file| else before.value) <= |file| && Cut(file, 0, upper, |file|)
      invariant Found(Hits(q, LinesIn(file, 0, |file|))) == records + Found(Hits(q, LinesIn(file, 0, upper)))
      decreases upper
    {
      var r := ReadAuditPage(file, q, before, chunk);
      if r.page.next.Some? { NextIsOlder(file, upper, q, r.page); }
      PageThenOlder(file, upper, q, r.page);
      ghost var rest := if r.page.next.Some? then Found(Hits(q, LinesIn(file, 0, r.page.next.value))) else [];
      assert records + (r.page.records + rest) == (records + r.page.records) + rest;
      records := records + r.page.records;
      before := r.page.next;
      if before.None? { break; }
      upper := before.value;
    }
  }
}
