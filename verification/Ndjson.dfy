/**
Cutting a byte stream into lines while it arrives in chunks of any size
(`src/agent-console/providers/ndjson.ts`). Lines are bytes here; decoding them to text
comes after.
*/
module Ndjson {
  import opened Bytes

  // ---------------------------------------------------------------- meaning, on the whole stream

  /** The lines of a stream up to the first one longer than `cap`, a line being given out once
      its newline has come. Blank lines are dropped unless `keepBlank`. */
  ghost function Lines(cap: nat, keepBlank: bool, s: seq<Byte>): seq<seq<Byte>>
    decreases |s|
  {
    var i := FirstNL(s);
    if i == |s| || i > cap then []
    else (if i > 0 || keepBlank then [s[..i]] else []) + Lines(cap, keepBlank, s[i + 1..])
  }

  /** Some line, finished or not, is longer than `cap`. */
  ghost predicate TooLong(cap: nat, s: seq<Byte>)
    decreases |s|
  {
    var i := FirstNL(s);
    i > cap || (i < |s| && TooLong(cap, s[i + 1..]))
  }

  /** The unfinished last line. */
  ghost function Pending(s: seq<Byte>): seq<Byte>
    decreases |s|
  {
    var i := FirstNL(s);
    if i == |s| then s else Pending(s[i + 1..])
  }

  /** More than `cap` bytes from `lo` on hold no newline. */
  ghost predicate Run(cap: nat, s: seq<Byte>, lo: nat) {
    lo + cap < |s| && NoNL(s, lo, lo + cap + 1)
  }

  /** A line is too long exactly when more than `cap` bytes come without a newline. */
  lemma {:induction false} TooLongIsARun(cap: nat, s: seq<Byte>)
    ensures TooLong(cap, s) <==> exists lo: nat :: Run(cap, s, lo)
    decreases |s|
  {
    var i := FirstNL(s);
    if i > cap {
      assert Run(cap, s, 0);
    } else if i < |s| {
      var rest := s[i + 1..];
      TooLongIsARun(cap, rest);
      forall lo: nat | Run(cap, s, lo) ensures lo > i && Run(cap, rest, lo - i - 1) {
        NoNLSlice(s, i + 1, |s|, if lo > i then lo - i - 1 else 0, if lo > i then lo + cap - i else 0);
      }
      forall lo: nat | Run(cap, rest, lo) ensures Run(cap, s, i + 1 + lo) {
        NoNLSlice(s, i + 1, |s|, lo, lo + cap + 1);
      }
    }
  }

  // ---------------------------------------------------------------- how the meaning grows with the stream

  lemma FirstNLGrows(s: seq<Byte>, t: seq<Byte>)
    ensures var i := FirstNL(s);
      if i < |s| then FirstNL(s + t) == i && (s + t)[..i] == s[..i] && (s + t)[i + 1..] == s[i + 1..] + t
      else FirstNL(s + t) == |s| + FirstNL(t)
  {
    var i, j := FirstNL(s), FirstNL(s + t);
    assert forall k | 0 <= k < |s| :: (s + t)[k] == s[k];
    assert forall k | 0 <= k < |t| :: (s + t)[|s| + k] == t[k];
  }

  /** Bytes without a newline only lengthen the unfinished line. */
  lemma {:induction false} FeedPart(cap: nat, keepBlank: bool, s: seq<Byte>, part: seq<Byte>)
    requires FirstNL(part) == |part| && !TooLong(cap, s)
    ensures Pending(s + part) == Pending(s) + part
    ensures TooLong(cap, s + part) <==> |Pending(s)| + |part| > cap
    ensures Lines(cap, keepBlank, s + part) == Lines(cap, keepBlank, s)
    decreases |s|
  {
    hide NoNL;
    var i := FirstNL(s);
    FirstNLGrows(s, part);
    if i < |s| {
      FeedPart(cap, keepBlank, s[i + 1..], part);
    }
  }

  /** A newline finishes the line. */
  lemma {:induction false} FeedNewline(cap: nat, keepBlank: bool, s: seq<Byte>)
    requires !TooLong(cap, s)
    ensures Pending(s + [NL]) == [] && !TooLong(cap, s + [NL])
    ensures Lines(cap, keepBlank, s + [NL]) ==
            Lines(cap, keepBlank, s) + if |Pending(s)| > 0 || keepBlank then [Pending(s)] else []
    decreases |s|
  {
    hide NoNL;
    var i := FirstNL(s);
    FirstNLGrows(s, [NL]);
    if i < |s| {
      FeedNewline(cap, keepBlank, s[i + 1..]);
    } else {
      assert (s + [NL])[i + 1..] == [];
      assert (s + [NL])[..i] == s;
    }
  }

  /** Once a line is too long, nothing that follows is given out or takes it back. */
  lemma {:induction false} OverflowStays(cap: nat, keepBlank: bool, s: seq<Byte>, t: seq<Byte>)
    requires TooLong(cap, s)
    ensures TooLong(cap, s + t) && Lines(cap, keepBlank, s + t) == Lines(cap, keepBlank, s)
    decreases |s|
  {
    hide NoNL;
    var i := FirstNL(s);
    FirstNLGrows(s, t);
    if i < |s| && i <= cap {
      OverflowStays(cap, keepBlank, s[i + 1..], t);
    }
  }

  /** Lines that were written with a newline each come back as they were. */
  ghost function Written(ls: seq<seq<Byte>>): seq<Byte> {
    if ls == [] then [] else Written(ls[..|ls| - 1]) + ls[|ls| - 1] + [NL]
  }

  lemma {:induction false} WrittenComesBack(cap: nat, ls: seq<seq<Byte>>)
    requires forall i | 0 <= i < |ls| :: |ls[i]| <= cap && NoNL(ls[i], 0, |ls[i]|)
    ensures !TooLong(cap, Written(ls)) && Pending(Written(ls)) == []
    ensures Lines(cap, true, Written(ls)) == ls
  {
    if ls != [] {
      var init, last := ls[..|ls| - 1], ls[|ls| - 1];
      WrittenComesBack(cap, init);
      FeedPart(cap, true, Written(init), last);
      FeedNewline(cap, true, Written(init) + last);
      assert [] + last == last;
      assert init + [last] == ls;
    }
  }

  // ---------------------------------------------------------------- the splitter

  class NdjsonSplitter {
    const cap: nat
    const keepBlank: bool
    var buffer: array<Byte>
    var size: nat
    var overflowed: bool
    /** Everything pushed so far, and every line given out. */
    ghost var fed: seq<Byte>
    ghost var out: seq<seq<Byte>>

    /** The buffer never outgrows the cap, and what the splitter has done so far depends on the
        bytes alone, not on how they were cut into chunks. */
    ghost predicate Valid()
      reads this, buffer
    {
      && size <= buffer.Length <= cap
      && overflowed == TooLong(cap, fed)
      && out == Lines(cap, keepBlank, fed)
      && buffer[..size] == if overflowed then [] else Pending(fed)
    }

    constructor (cap: nat, keepBlank: bool)
      ensures Valid() && fresh(buffer) && fed == [] && out == [] && !overflowed
      ensures this.cap == cap && this.keepBlank == keepBlank
    {
      this.cap, this.keepBlank := cap, keepBlank;
      buffer := new Byte[0];
      size, overflowed, fed, out := 0, false, [], [];
    }

    /** Adds bytes to the unfinished line, growing the buffer first when they do not fit. */
    method Append(part: seq<Byte>)
      requires size <= buffer.Length <= cap && size + |part| <= cap
      modifies this`buffer, this`size, buffer
      ensures size <= buffer.Length <= cap && (fresh(buffer) || buffer == old(buffer))
      ensures buffer[..size] == old(buffer[..size]) + part
      ensures buffer == old(buffer) <==> size <= old(buffer.Length)
      ensures buffer != old(buffer) && buffer.Length < cap ==> buffer.Length >= 2 * old(buffer.Length) && buffer.Length >= 4096
    {
      var needed := size + |part|;
      if needed > buffer.Length {
        var wanted := if buffer.Length * 2 > 4096 then buffer.Length * 2 else 4096;
        var grown := new Byte[if cap < needed then cap else if needed > wanted then needed else if wanted < cap then wanted else cap];
        forall k | 0 <= k < size { grown[k] := buffer[k]; }
        buffer := grown;
      }
      forall k | 0 <= k < |part| { buffer[size + k] := part[k]; }
      size := needed;
    }

    /** The bytes up to the next newline, or up to the end of the chunk. */
    method Take(part: seq<Byte>)
      requires Valid() && !overflowed && FirstNL(part) == |part|
      modifies this, buffer
      ensures Valid() && (fresh(buffer) || buffer == old(buffer))
      ensures fed == old(fed) + part && out == old(out)
    {
      FeedPart(cap, keepBlank, fed, part);
      if size + |part| > cap {
        overflowed, buffer, size := true, new Byte[0], 0;
      } else {
        Append(part);
      }
      fed := fed + part;
    }

    /** A newline: the line in the buffer is complete. */
    method Finish() returns (lines: seq<seq<Byte>>)
      requires Valid() && !overflowed
      modifies this
      ensures Valid() && buffer == old(buffer) && !overflowed
      ensures fed == old(fed) + [NL] && out == old(out) + lines
    {
      FeedNewline(cap, keepBlank, fed);
      lines := if size > 0 || keepBlank then [buffer[..size]] else [];
      size, fed, out := 0, fed + [NL], out + lines;
    }

    /** Bytes behind a line that was too long are dropped. */
    ghost method Skip(rest: seq<Byte>)
      requires Valid() && overflowed
      modifies this`fed
      ensures Valid() && fed == old(fed) + rest
    {
      OverflowStays(cap, keepBlank, fed, rest);
      fed := fed + rest;
    }

    /** Feeds one chunk. `reported` tells that the overflow callback is queued, which happens in
        the one call that meets the first line over the cap. */
    method Push(chunk: seq<Byte>) returns (lines: seq<seq<Byte>>, reported: bool)
      requires Valid()
      modifies this, buffer
      ensures Valid() && (fresh(buffer) || buffer == old(buffer))
      ensures fed == old(fed) + chunk && out == old(out) + lines
      ensures (old(overflowed) ==> overflowed) && (reported <==> !old(overflowed) && overflowed)
    {
      hide Valid, FirstNL;
      lines, reported := [], false;
      if overflowed {
        Skip(chunk);
        return;
      }
      var start := 0;
      while start < |chunk|
        invariant 0 <= start <= |chunk| && !overflowed && Valid()
        invariant fresh(buffer) || buffer == old(buffer)
        invariant fed == old(fed) + chunk[..start] && out == old(out) + lines
      {
        var nl := IndexOfNL(chunk, start);
        var end := if nl < 0 then |chunk| else nl;
        IsPart(chunk, start, end);
        Take(chunk[start..end]);
        Joined(old(fed), chunk[..start], chunk[start..end], chunk[..end]);
        if overflowed {
          Skip(chunk[end..]);
          Joined(old(fed), chunk[..end], chunk[end..], chunk);
          reported := true;
          return;
        }
        if nl < 0 { start := end; break; }
        var line := Finish();
        Joined(old(fed), chunk[..end], [NL], chunk[..nl + 1]);
        lines, start := lines + line, nl + 1;
      }
    }
  }

  lemma IsPart(b: seq<Byte>, lo: nat, hi: nat)
    requires lo <= hi <= |b| && NoNL(b, lo, hi)
    ensures FirstNL(b[lo..hi]) == hi - lo
  {
    NoNLSlice(b, lo, hi, 0, hi - lo);
  }

  lemma Joined(a: seq<Byte>, b: seq<Byte>, c: seq<Byte>, d: seq<Byte>)
    requires b + c == d
    ensures (a + b) + c == a + d
  {
  }

  /** A whole stream through one splitter: the lines, and whether and how often the overflow is
      reported, depend only on the bytes, however they were cut into chunks. */
  method SplitStream(cap: nat, keepBlank: bool, chunks: seq<seq<Byte>>) returns (lines: seq<seq<Byte>>, reports: nat)
    ensures lines == Lines(cap, keepBlank, Concat(chunks))
    ensures reports == if TooLong(cap, Concat(chunks)) then 1 else 0
  {
    var splitter := new NdjsonSplitter(cap, keepBlank);
    lines, reports := [], 0;
    for k := 0 to |chunks|
      invariant splitter.Valid() && fresh(splitter) && fresh(splitter.buffer)
      invariant splitter.cap == cap && splitter.keepBlank == keepBlank
      invariant splitter.fed == Concat(chunks[..k]) && splitter.out == lines
      invariant reports == if splitter.overflowed then 1 else 0
    {
      ConcatStep(chunks, k);
      var more, reported := splitter.Push(chunks[k]);
      lines, reports := lines + more, if reported then reports + 1 else reports;
    }
    assert chunks[..|chunks|] == chunks;
  }
}
