/**
The standing-rule matcher of `src/agent-console/core/index.ts`: a greedy scan that
backtracks only to the last `*`, where a `*` may not cross a shell metacharacter.

A JavaScript string is a sequence of code units; here it is a `string`, compared
character by character with no normalisation, as the contract asks.
*/
module StandingRules {
  import opened Common

  predicate Forbidden(c: char) {
    c in {';', '&', '|', '<', '>', '`', '$', '\r', '\n'}
  }

  predicate Free(s: string) {
    forall i | 0 <= i < |s| :: !Forbidden(s[i])
  }

  // ---------------------------------------------------------------- meaning

  /** The grammar of a pattern: every `*` stands for some run free of the forbidden
      characters, anything else stands for itself, and both ends are anchored. */
  ghost predicate Glob(p: string, t: string)
    decreases |p|
  {
    if p == "" then t == ""
    else if p[0] == '*' then exists k | 0 <= k <= |t| :: Free(t[..k]) && Glob(p[1..], t[k..])
    else t != "" && p[0] == t[0] && Glob(p[1..], t[1..])
  }

  /** What a rule may have for a pattern: at least one character and no line break. */
  predicate IsPattern(p: string) {
    p != "" && !BreaksLine(p)
  }

  predicate BreaksLine(s: string) {
    '\r' in s || '\n' in s
  }

  /** Every `*` in the target is its last character or is followed by a character no
      `*` of a pattern may cross. */
  predicate StarsGuarded(t: string) {
    forall i | 0 <= i < |t| :: t[i] == '*' ==> i + 1 == |t| || Forbidden(t[i + 1])
  }

  // ---------------------------------------------------------------- the scan

  /** The `*` the scan may still return to: where it is in the pattern and the first
      target position its run does not cover yet. */
  datatype Star = Unseen | At(pi: nat, ti: nat)

  ghost predicate Position(p: string, t: string, pi: nat, ti: nat, star: Star) {
    && pi <= |p| && ti <= |t|
    && (star.At? ==> star.pi < pi && p[star.pi] == '*' && star.ti <= ti)
  }

  /** What the scan answers from a given position. */
  predicate Scan(p: string, t: string, pi: nat, ti: nat, star: Star)
    requires Position(p, t, pi, ti, star)
    decreases if star.At? then |p| - star.pi else |p| + 1, if star.At? then |t| - star.ti else 0, |t| - ti
  {
    if ti == |t| then forall i | pi <= i < |p| :: p[i] == '*'
    else if pi < |p| && p[pi] == t[ti] then Scan(p, t, pi + 1, ti + 1, star)
    else if pi < |p| && p[pi] == '*' then Scan(p, t, pi + 1, ti, At(pi, ti))
    else if star.At? then !Forbidden(t[star.ti]) && Scan(p, t, star.pi + 1, star.ti + 1, At(star.pi, star.ti + 1))
    else false
  }

  predicate Accepts(p: string, t: string) {
    Scan(p, t, 0, 0, Unseen)
  }

  method MatchesPattern(pattern: string, target: string) returns (r: bool)
    ensures r == Accepts(pattern, target)
    ensures r ==> Glob(pattern, target)
    ensures StarsGuarded(target) ==> (r <==> Glob(pattern, target))
  {
    GreedySound(pattern, target);
    if StarsGuarded(target) && Glob(pattern, target) { GreedyComplete(pattern, target); }
    var pi, ti, starAt, starTi := 0, 0, -1, 0;
    while ti < |target|
      invariant -1 <= starAt && 0 <= starTi
      invariant 0 <= pi && 0 <= ti
      invariant Position(pattern, target, pi, ti, if starAt == -1 then Unseen else At(starAt, starTi))
      invariant Scan(pattern, target, pi, ti, if starAt == -1 then Unseen else At(starAt, starTi)) == Accepts(pattern, target)
      decreases if starAt == -1 then |pattern| + 1 else |pattern| - starAt,
                if starAt == -1 then 0 else |target| - starTi, |target| - ti
    {
      if pi < |pattern| && pattern[pi] == target[ti] {
        pi, ti := pi + 1, ti + 1;
      } else if pi < |pattern| && pattern[pi] == '*' {
        starAt, starTi := pi, ti;
        pi := pi + 1;
      } else if starAt != -1 {
        if Forbidden(target[starTi]) { return false; }
        starTi := starTi + 1;
        pi, ti := starAt + 1, starTi;
      } else {
        return false;
      }
    }
    ghost var from := pi;
    while pi < |pattern| && pattern[pi] == '*'
      invariant from <= pi <= |pattern|
      invariant forall i | from <= i < pi :: pattern[i] == '*'
    {
      pi := pi + 1;
    }
    return pi == |pattern|;
  }

  // ---------------------------------------------------------------- laws of Glob

  lemma {:induction false} StarsMatchNothing(p: string)
    ensures Glob(p, "") <==> forall i | 0 <= i < |p| :: p[i] == '*'
    decreases |p|
  {
    if p != "" {
      StarsMatchNothing(p[1..]);
      if p[0] == '*' {
        assert ""[..0] == "" && ""[0..] == "";
        assert forall i | 0 <= i < |p[1..]| :: p[1..][i] == p[i + 1];
        if Glob(p[1..], "") {
          assert Free(""[..0]) && Glob(p[1..], ""[0..]);
          assert forall i | 1 <= i < |p| :: p[i] == p[1..][i - 1];
        }
        if Glob(p, "") {
          var k :| 0 <= k <= |""| && Free(""[..k]) && Glob(p[1..], ""[k..]);
          assert ""[k..] == "";
          assert forall i | 1 <= i < |p| :: p[i] == p[1..][i - 1];
        }
      }
    }
  }

  lemma FreeCons(t: string, k: nat)
    requires k < |t|
    ensures Free(t[..k + 1]) <==> !Forbidden(t[0]) && Free(t[1..][..k])
  {
    assert t[..k + 1] == [t[0]] + t[1..][..k];
  }

  /** A `*` takes the empty run, or one allowed character and then matches again. */
  lemma StarStep(q: string, t: string)
    ensures Glob("*" + q, t) <==> Glob(q, t) || (t != "" && !Forbidden(t[0]) && Glob("*" + q, t[1..]))
  {
    assert ("*" + q)[1..] == q;
    if Glob("*" + q, t) {
      var k :| 0 <= k <= |t| && Free(t[..k]) && Glob(q, t[k..]);
      if k == 0 {
        assert t[0..] == t;
      } else {
        FreeCons(t, k - 1);
        assert t[k..] == t[1..][k - 1..];
      }
    }
    if Glob(q, t) { assert t[0..] == t && Free(t[..0]); }
    if t != "" && !Forbidden(t[0]) && Glob("*" + q, t[1..]) {
      var k :| 0 <= k <= |t[1..]| && Free(t[1..][..k]) && Glob(q, t[1..][k..]);
      FreeCons(t, k);
      assert t[1..][k..] == t[k + 1..];
    }
  }

  lemma LiteralStep(c: char, q: string, t: string)
    requires c != '*'
    ensures Glob([c] + q, t) <==> t != "" && t[0] == c && Glob(q, t[1..])
  {
    assert ([c] + q)[1..] == q;
  }

  /** Two stars in a row mean one. */
  lemma {:induction false} StarStar(q: string, t: string)
    ensures Glob("**" + q, t) <==> Glob("*" + q, t)
    decreases |t|
  {
    assert "*" + ("*" + q) == "**" + q;
    StarStep("*" + q, t);
    StarStep(q, t);
    if t != "" { StarStar(q, t[1..]); }
  }

  /** A `*` can swallow an allowed literal, or another `*`, that follows it. */
  lemma {:induction false} StarAbsorbs(c: char, q: string, t: string)
    requires !Forbidden(c)
    requires Glob("*" + [c] + q, t)
    ensures Glob("*" + q, t)
    decreases |t|
  {
    assert "*" + [c] + q == "*" + ([c] + q);
    if c == '*' {
      assert "*" + [c] + q == "**" + q;
      StarStar(q, t);
    } else {
      StarStep([c] + q, t);
      LiteralStep(c, q, t);
      StarStep(q, t);
      if Glob([c] + q, t) {
        StarStep(q, t[1..]);
      } else {
        StarAbsorbs(c, q, t[1..]);
      }
    }
  }

  /** In front of a target `*` that nothing can stretch past, a pattern `*` takes
      exactly that character or can be said to. */
  lemma {:induction false} GuardedStar(q: string, t: string)
    requires t != "" && t[0] == '*' && (|t| == 1 || Forbidden(t[1]))
    requires Glob("*" + q, t)
    ensures Glob(q, t[1..])
    decreases |q|
  {
    StarStep(q, t);
    StarStep(q, t[1..]);
    if Glob(q, t) {
      if q != "" && q[0] == '*' {
        assert q == "*" + q[1..];
        GuardedStar(q[1..], t);
        StarStep(q[1..], t[1..]);
      }
    }
  }

  /** A pattern that starts with the target's own first character can step past it. */
  lemma HeadStep(c: char, q: string, t: string)
    requires t != "" && t[0] == c && StarsGuarded(t) && Glob([c] + q, t)
    ensures Glob(q, t[1..])
  {
    if c == '*' { GuardedStar(q, t); } else { LiteralStep(c, q, t); }
  }

  // ---------------------------------------------------------------- soundness

  /** Acceptance from a position is a match of what is left, or of what the last `*`
      still leaves open. */
  lemma {:induction false} ScanSound(p: string, t: string, pi: nat, ti: nat, star: Star)
    requires Position(p, t, pi, ti, star)
    requires Scan(p, t, pi, ti, star)
    ensures Glob(p[pi..], t[ti..]) || (star.At? && Glob(p[star.pi..], t[star.ti..]))
    decreases if star.At? then |p| - star.pi else |p| + 1, if star.At? then |t| - star.ti else 0, |t| - ti
  {
    if ti == |t| {
      assert t[ti..] == "";
      StarsMatchNothing(p[pi..]);
    } else if pi < |p| && p[pi] == t[ti] {
      ScanSound(p, t, pi + 1, ti + 1, star);
      if Glob(p[pi + 1..], t[ti + 1..]) { SoundStep(p, t, pi, ti); }
    } else if pi < |p| && p[pi] == '*' {
      ScanSound(p, t, pi + 1, ti, At(pi, ti));
      assert p[pi..] == "*" + p[pi + 1..];
      StarStep(p[pi + 1..], t[ti..]);
    } else {
      ScanSound(p, t, star.pi + 1, star.ti + 1, At(star.pi, star.ti + 1));
      SoundStretch(p, t, star);
    }
  }

  lemma SoundStep(p: string, t: string, pi: nat, ti: nat)
    requires pi < |p| && ti < |t| && p[pi] == t[ti] && Glob(p[pi + 1..], t[ti + 1..])
    ensures Glob(p[pi..], t[ti..])
  {
    assert p[pi..] == [p[pi]] + p[pi + 1..] && t[ti..][1..] == t[ti + 1..];
    if p[pi] == '*' { StarStep(p[pi + 1..], t[ti..]); StarStep(p[pi + 1..], t[ti + 1..]); }
    else { LiteralStep(p[pi], p[pi + 1..], t[ti..]); }
  }

  lemma SoundStretch(p: string, t: string, star: Star)
    requires star.At? && star.pi < |p| && star.ti < |t| && p[star.pi] == '*' && !Forbidden(t[star.ti])
    requires Glob(p[star.pi + 1..], t[star.ti + 1..]) || Glob(p[star.pi..], t[star.ti + 1..])
    ensures Glob(p[star.pi..], t[star.ti..])
  {
    assert p[star.pi..] == "*" + p[star.pi + 1..] && t[star.ti..][1..] == t[star.ti + 1..];
    StarStep(p[star.pi + 1..], t[star.ti..]);
    StarStep(p[star.pi + 1..], t[star.ti + 1..]);
  }

  lemma GreedySound(p: string, t: string)
    ensures Accepts(p, t) ==> Glob(p, t)
  {
    if Accepts(p, t) {
      ScanSound(p, t, 0, 0, Unseen);
      assert p[0..] == p && t[0..] == t;
    }
  }

  // ---------------------------------------------------------------- completeness

  /** The exchange argument. If `*`, a segment and another `*` can match a target that
      begins with that very segment, the second `*` can start right behind it: sliding the
      segment to its earliest place never uncovers a forbidden character. */
  lemma {:induction false} Exchange(u: string, v: string, t: string)
    requires u <= t && StarsGuarded(t)
    requires Glob("*" + u + "*" + v, t)
    ensures Glob("*" + v, t[|u|..])
    decreases |u|
  {
    if u == "" {
      assert "*" + u + "*" + v == "**" + v;
      StarStar(v, t);
      assert t[0..] == t;
    } else {
      var w := u[1..] + "*" + v;
      assert "*" + u + "*" + v == "*" + ([u[0]] + w) && "*" + u[1..] + "*" + v == "*" + w;
      assert u[0] == t[0] && u[1..] <= t[1..];
      ExchangeStep(u[0], w, t);
      GuardedSuffix(t, 1);
      Exchange(u[1..], v, t[1..]);
      assert t[1..][|u[1..]|..] == t[|u|..];
    }
  }

  /** The run may start one character later once the segment's first one is dropped. */
  lemma ExchangeStep(c: char, w: string, t: string)
    requires t != "" && t[0] == c && StarsGuarded(t) && Glob("*" + ([c] + w), t)
    ensures Glob("*" + w, t[1..])
  {
    StarStep([c] + w, t);
    StarStep(w, t[1..]);
    if Glob([c] + w, t) {
      HeadStep(c, w, t);
    } else {
      assert "*" + ([c] + w) == "*" + [c] + w;
      StarAbsorbs(c, w, t[1..]);
    }
  }

  /** What stands behind the last `*` has been matched literally so far. */
  ghost predicate Attempt(p: string, t: string, pi: nat, ti: nat, star: Star)
    requires Position(p, t, pi, ti, star)
  {
    star.At? ==> ti - star.ti == pi - star.pi - 1 && p[star.pi + 1..pi] == t[star.ti..ti]
  }

  ghost predicate Hope(p: string, t: string, pi: nat, ti: nat, star: Star)
    requires Position(p, t, pi, ti, star)
  {
    Glob(p[pi..], t[ti..]) || (star.At? && Glob(p[star.pi..], t[star.ti..]))
  }

  /** If the pattern behind the last `*` matches behind its run, the scan finds it. */
  lemma {:induction false} ScanComplete(p: string, t: string, pi: nat, ti: nat, star: Star)
    requires Position(p, t, pi, ti, star) && StarsGuarded(t)
    requires Attempt(p, t, pi, ti, star) && Hope(p, t, pi, ti, star)
    ensures Scan(p, t, pi, ti, star)
    decreases if star.At? then |p| - star.pi else |p| + 1, if star.At? then |t| - star.ti else 0, |t| - ti
  {
    if ti == |t| {
      EndComplete(p, t, pi, star);
    } else if pi < |p| && p[pi] == t[ti] {
      if Glob(p[pi..], t[ti..]) { MatchedStep(p, t, pi, ti); }
      AttemptStep(p, t, pi, ti, star);
      ScanComplete(p, t, pi + 1, ti + 1, star);
    } else if pi < |p| && p[pi] == '*' {
      if star.At? { SegmentComplete(p, t, pi, ti, star); }
      ScanComplete(p, t, pi + 1, ti, At(pi, ti));
    } else {
      Stuck(p, t, pi, ti);
      BacktrackComplete(p, t, pi, ti, star);
      ScanComplete(p, t, star.pi + 1, star.ti + 1, At(star.pi, star.ti + 1));
    }
  }

  lemma EndComplete(p: string, t: string, pi: nat, star: Star)
    requires Position(p, t, pi, |t|, star) && StarsGuarded(t)
    requires Attempt(p, t, pi, |t|, star) && Hope(p, t, pi, |t|, star)
    ensures forall i | pi <= i < |p| :: p[i] == '*'
  {
    if star.At? { SegmentComplete(p, t, pi, |t|, star); }
    assert t[|t|..] == "";
    StarsMatchNothing(p[pi..]);
    assert forall i | pi <= i < |p| :: p[i] == p[pi..][i - pi];
  }

  lemma AttemptStep(p: string, t: string, pi: nat, ti: nat, star: Star)
    requires Position(p, t, pi, ti, star) && pi < |p| && ti < |t| && p[pi] == t[ti] && Attempt(p, t, pi, ti, star)
    ensures Attempt(p, t, pi + 1, ti + 1, star)
  {
    if star.At? {
      assert p[star.pi + 1..pi + 1] == p[star.pi + 1..pi] + [p[pi]] && t[star.ti..ti + 1] == t[star.ti..ti] + [t[ti]];
    }
  }

  lemma MatchedStep(p: string, t: string, pi: nat, ti: nat)
    requires pi < |p| && ti < |t| && p[pi] == t[ti] && StarsGuarded(t) && Glob(p[pi..], t[ti..])
    ensures Glob(p[pi + 1..], t[ti + 1..])
  {
    GuardedSuffix(t, ti);
    assert p[pi..] == [p[pi]] + p[pi + 1..] && t[ti..][1..] == t[ti + 1..];
    HeadStep(p[pi], p[pi + 1..], t[ti..]);
  }

  lemma Stuck(p: string, t: string, pi: nat, ti: nat)
    requires pi <= |p| && ti < |t| && (pi < |p| ==> p[pi] != t[ti] && p[pi] != '*')
    ensures !Glob(p[pi..], t[ti..])
  {
    if pi < |p| {
      assert p[pi..] == [p[pi]] + p[pi + 1..];
      LiteralStep(p[pi], p[pi + 1..], t[ti..]);
    }
  }

  lemma GuardedSuffix(t: string, n: nat)
    requires n <= |t| && StarsGuarded(t)
    ensures StarsGuarded(t[n..])
  {
    assert forall i | 0 <= i < |t| - n :: t[n..][i] == t[n + i];
  }

  /** A literal segment already matched behind a run can be stepped over. */
  lemma {:induction false} SegmentStep(p: string, u: string, t: string)
    requires u <= t && StarsGuarded(t) && Glob(u + p, t)
    ensures Glob(p, t[|u|..])
    decreases |u|
  {
    if u == "" {
      assert u + p == p && t[0..] == t;
    } else {
      hide Glob, StarsGuarded;
      var w := u[1..] + p;
      assert u + p == [u[0]] + w && u[1..] <= t[1..];
      GuardedSuffix(t, 1);
      HeadStep(u[0], w, t);
      SegmentStep(p, u[1..], t[1..]);
      assert t[1..][|u[1..]|..] == t[|u|..];
    }
  }

  /** At a new `*`, or at the end of the target, nothing is lost by giving up the last one. */
  lemma SegmentComplete(p: string, t: string, pi: nat, ti: nat, star: Star)
    requires Position(p, t, pi, ti, star) && StarsGuarded(t) && star.At?
    requires Attempt(p, t, pi, ti, star) && Hope(p, t, pi, ti, star)
    ensures ti == |t| ==> Glob(p[pi..], t[ti..])
    ensures pi < |p| && p[pi] == '*' ==> Glob(p[pi..], t[ti..])
  {
    if !Glob(p[pi..], t[ti..]) {
      var u := p[star.pi + 1..pi];
      GuardedSuffix(t, star.ti);
      assert t[star.ti..][..|u|] == u && t[star.ti..][|u|..] == t[ti..];
      if pi < |p| && p[pi] == '*' {
        assert p[star.pi..] == "*" + u + "*" + p[pi + 1..] && p[pi..] == "*" + p[pi + 1..];
        Exchange(u, p[pi + 1..], t[star.ti..]);
      } else if ti == |t| {
        assert p[star.pi..] == "*" + (u + p[pi..]);
        assert t[star.ti..] == u && t[ti..] == "";
        TailComplete(u, p[pi..]);
      }
    }
  }

  /** A pattern `*` + segment + rest on exactly that segment leaves the rest nothing. */
  lemma {:induction false} TailComplete(u: string, q: string)
    requires StarsGuarded(u) && Glob("*" + (u + q), u)
    ensures Glob(q, "")
    decreases |u|
  {
    StarStep(u + q, u);
    if Glob(u + q, u) {
      SegmentStep(q, u, u);
      assert u[|u|..] == "";
    } else {
      TailShift(u, q);
      GuardedSuffix(u, 1);
      TailComplete(u[1..], q);
    }
  }

  lemma TailShift(u: string, q: string)
    requires u != "" && !Forbidden(u[0]) && Glob("*" + (u + q), u[1..])
    ensures Glob("*" + (u[1..] + q), u[1..])
  {
    assert "*" + (u + q) == "*" + [u[0]] + (u[1..] + q);
    StarAbsorbs(u[0], u[1..] + q, u[1..]);
  }

  /** When the text behind the run does not match, the run has to grow, and it may. */
  lemma BacktrackComplete(p: string, t: string, pi: nat, ti: nat, star: Star)
    requires Position(p, t, pi, ti, star) && StarsGuarded(t) && star.At? && ti < |t|
    requires Attempt(p, t, pi, ti, star)
    requires Glob(p[star.pi..], t[star.ti..]) && !Glob(p[pi..], t[ti..])
    ensures !Forbidden(t[star.ti]) && Glob(p[star.pi..], t[star.ti + 1..])
  {
    var u := p[star.pi + 1..pi];
    GuardedSuffix(t, star.ti);
    assert p[star.pi..] == "*" + p[star.pi + 1..] && p[star.pi + 1..] == u + p[pi..];
    assert t[star.ti..][..|u|] == u && t[star.ti..][|u|..] == t[ti..] && t[star.ti..][1..] == t[star.ti + 1..];
    StarStep(p[star.pi + 1..], t[star.ti..]);
    if Glob(p[star.pi + 1..], t[star.ti..]) { SegmentStep(p[pi..], u, t[star.ti..]); }
  }

  lemma GreedyComplete(p: string, t: string)
    requires StarsGuarded(t) && Glob(p, t)
    ensures Accepts(p, t)
  {
    assert p[0..] == p && t[0..] == t;
    ScanComplete(p, t, 0, 0, Unseen);
  }

  // ---------------------------------------------------------------- exactness

  /** The shortest misjudged target: the contract's grammar gives pattern `*` the whole of
      `*a`, but the scan compares the two stars as literals and never gets back. */
  lemma StarTakenLiterally()
    ensures Glob("*", "*a") && !Accepts("*", "*a")
  {
    var p, t := "*", "*a";
    StarsMatchNothing(p[1..]);
    assert t[2..] == "" && Free(t[..2]);
    assert !Scan(p, t, 1, 1, Unseen);
  }

  /** Where an unguarded `*` stands in the target, and the run of allowed characters
      behind it ends. */
  ghost predicate Unguarded(t: string, i: nat, j: nat) {
    && i + 2 <= j <= |t| && t[i] == '*' && Free(t[i + 1..j]) && (j < |t| ==> Forbidden(t[j]))
  }

  lemma {:induction false} RunEnd(t: string, i: nat, n: nat) returns (j: nat)
    requires i < n <= |t| && Free(t[i + 1..n])
    ensures n <= j <= |t| && Free(t[i + 1..j]) && (j < |t| ==> Forbidden(t[j]))
    decreases |t| - n
  {
    if n == |t| || Forbidden(t[n]) {
      j := n;
    } else {
      assert t[i + 1..n + 1] == t[i + 1..n] + [t[n]];
      j := RunEnd(t, i, n + 1);
    }
  }

  /** Read as a pattern, any text matches itself. */
  lemma {:induction false} SelfMatch(u: string, q: string, w: string)
    requires Glob(q, w)
    ensures Glob(u + q, u + w)
    decreases |u|
  {
    if u == "" {
      assert u + q == q && u + w == w;
    } else {
      SelfMatch(u[1..], q, w);
      assert u + q == [u[0]] + (u[1..] + q) && (u + w)[1..] == u[1..] + w;
      if u[0] == '*' { StarStep(u[1..] + q, u + w); StarStep(u[1..] + q, u[1..] + w); }
      else { LiteralStep(u[0], u[1..] + q, u + w); }
    }
  }

  /** The scan walks a common prefix without ever recording a `*`. */
  lemma {:induction false} WalksPrefix(p: string, t: string, n: nat)
    requires n <= |p| && n <= |t| && p[..n] == t[..n]
    ensures Accepts(p, t) == Scan(p, t, n, n, Unseen)
  {
    if n > 0 {
      assert p[..n - 1] == p[..n][..n - 1] && t[..n - 1] == t[..n][..n - 1];
      assert p[n - 1] == p[..n][n - 1] && t[n - 1] == t[..n][n - 1];
      WalksPrefix(p, t, n - 1);
    }
  }

  lemma StretchedStar(t: string, i: nat, j: nat)
    requires Unguarded(t, i, j)
    ensures Glob("*" + t[j..], t[i..])
  {
    var w := t[i..];
    SelfMatch(t[j..], "", "");
    assert t[j..] + "" == t[j..] && w[j - i..] == t[j..] && w[1..][..j - i - 1] == t[i + 1..j];
    FreeCons(w, j - i - 1);
    assert ("*" + t[j..])[1..] == t[j..];
  }

  /** For every target of one line with an unguarded `*` there is a rule's pattern that the scan
      wrongly rejects. */
  lemma Misjudged(t: string, i: nat, j: nat) returns (p: string)
    requires Unguarded(t, i, j) && !BreaksLine(t)
    ensures IsPattern(p) && Glob(p, t) && !Accepts(p, t)
  {
    p := t[..i + 1] + t[j..];
    // Glob: the last star of the prefix covers t[i..j], the rest matches itself.
    StretchedStar(t, i, j);
    SelfMatch(t[..i], "*" + t[j..], t[i..]);
    assert t[..i] + ("*" + t[j..]) == p && t[..i] + t[i..] == t;
    // Scan: the prefix is walked literally, and then nothing can be stretched.
    assert p[..i + 1] == t[..i + 1];
    WalksPrefix(p, t, i + 1);
    assert t[i + 1] == t[i + 1..j][0];
    if j < |t| { assert p[i + 1] == t[j]; }
  }

  /** No rule covers a line break: no `*` may cross it and no pattern holds it. */
  lemma {:induction false} BreakUncovered(p: string, t: string)
    requires !BreaksLine(p) && BreaksLine(t)
    ensures !Glob(p, t)
    decreases |p|
  {
    if p != "" && p[0] == '*' {
      forall k | 0 <= k <= |t| && Free(t[..k]) ensures !Glob(p[1..], t[k..]) {
        assert t == t[..k] + t[k..];
        BreakUncovered(p[1..], t[k..]);
      }
    } else if p != "" && t[0] == p[0] {
      BreakUncovered(p[1..], t[1..]);
    }
  }

  /** The scan agrees with the grammar on the patterns of all rules exactly for the targets
      whose stars are guarded and those no rule covers; a target without `*` is one of them. */
  lemma MatcherExact(t: string)
    ensures (forall p | IsPattern(p) :: Accepts(p, t) <==> Glob(p, t)) <==> StarsGuarded(t) || BreaksLine(t)
    ensures '*' !in t ==> StarsGuarded(t)
  {
    if StarsGuarded(t) || BreaksLine(t) {
      forall p | IsPattern(p) ensures Accepts(p, t) <==> Glob(p, t) {
        GreedySound(p, t);
        if BreaksLine(t) { BreakUncovered(p, t); } else if Glob(p, t) { GreedyComplete(p, t); }
      }
    } else {
      var i :| 0 <= i < |t| && t[i] == '*' && i + 1 < |t| && !Forbidden(t[i + 1]);
      var j := RunEnd(t, i, i + 2);
      var p := Misjudged(t, i, j);
    }
  }

  // ---------------------------------------------------------------- rules and requests

  predicate NameChar(c: char) {
    'A' <= c <= 'Z' || 'a' <= c <= 'z' || '0' <= c <= '9' || c == '_'
  }

  predicate IsName(tool: string) {
    tool != "" && NameChar(tool[0]) && forall i | 0 <= i < |tool| :: NameChar(tool[i]) || tool[i] == '.' || tool[i] == '-'
  }

  /** The grammar of a rule: a tool name, a colon, and a pattern. */
  predicate RuleText(rule: string, tool: string, pattern: string) {
    rule == tool + ":" + pattern && IsName(tool) && IsPattern(pattern)
  }

  function IndexOfColon(s: string): (r: nat)
    ensures r <= |s| && ':' !in s[..r] && (r < |s| ==> s[r] == ':')
  {
    if s == "" || s[0] == ':' then 0
    else
      var r := 1 + IndexOfColon(s[1..]);
      assert s[..r] == [s[0]] + s[1..][..r - 1];
      r
  }

  lemma {:induction false} FirstColon(tool: string, pattern: string)
    requires ':' !in tool
    ensures IndexOfColon(tool + ":" + pattern) == |tool|
    decreases |tool|
  {
    if tool == "" {
      assert tool + ":" + pattern == ":" + pattern;
    } else {
      FirstColon(tool[1..], pattern);
      assert (tool + ":" + pattern)[1..] == tool[1..] + ":" + pattern;
    }
  }

  /** `parseStandingRule` accepts the text. */
  predicate IsRule(text: string) {
    var colon := IndexOfColon(text);
    colon < |text| && RuleText(text, text[..colon], text[colon + 1..])
  }

  /** The accepted texts are those of the grammar, and each has one reading. */
  lemma RuleReads(text: string, tool: string, pattern: string)
    ensures RuleText(text, tool, pattern) <==>
      IsRule(text) && tool == text[..IndexOfColon(text)] && pattern == text[IndexOfColon(text) + 1..]
  {
    if RuleText(text, tool, pattern) {
      FirstColon(tool, pattern);
      assert text[..|tool|] == tool && text[|tool| + 1..] == pattern;
    }
  }

  datatype Request = Request(tool: string, matchTarget: Option<string>)

  /** `match` on a rule that has a colon. */
  predicate Matches(rule: string, request: Request) {
    var colon := IndexOfColon(rule);
    && colon < |rule| && request.matchTarget.Some?
    && rule[..colon] == request.tool && Accepts(rule[colon + 1..], request.matchTarget.value)
  }

  /** A rule approves only requests of its own tool whose target its pattern covers, and all of
      them where stars are guarded or the target breaks the line: the tool ends at the first
      colon, later colons belong to the pattern. */
  lemma RuleMeaning(rule: string, tool: string, pattern: string, request: Request)
    requires RuleText(rule, tool, pattern)
    ensures Matches(rule, request) ==>
      request.tool == tool && request.matchTarget.Some? && Glob(pattern, request.matchTarget.value)
    ensures request.matchTarget.Some? && (StarsGuarded(request.matchTarget.value) || BreaksLine(request.matchTarget.value)) ==>
      (Matches(rule, request) <==> request.tool == tool && Glob(pattern, request.matchTarget.value))
  {
    RuleReads(rule, tool, pattern);
    if request.matchTarget.Some? {
      GreedySound(pattern, request.matchTarget.value);
      MatcherExact(request.matchTarget.value);
    }
  }
}
