/**
Subscriptions of `src/agent-console/core/index.ts` over whole runs, measured against what each
subscriber asked for: the position it named in its call, and how long the history was then.
*/
module ReplayAsked {
  import opened Common
  import opened Replay

  function Min(a: nat, b: nat): nat {
    if a <= b then a else b
  }

  /** What no later step takes back. */
  ghost predicate Continues(sub: Sub, later: Sub) {
    && later.after == sub.after && later.start == sub.start && sub.got <= later.got
    && (later.mode.Replaying? ==> sub.mode.Replaying? && later.mode.goal == sub.mode.goal)
  }

  lemma StepContinues(caps: Caps, reentry: Reentry, s: State, a: Action, id: Id)
    requires Enabled(reentry, s, a) && id < |s.subs|
    ensures id < |Next(caps, reentry, s, a).subs| && Continues(s.subs[id], Next(caps, reentry, s, a).subs[id])
    ensures History(s) <= History(Next(caps, reentry, s, a))
  {
  }

  lemma {:induction false} RunContinues(caps: Caps, reentry: Reentry, s: State, acts: seq<Action>, end: State, id: Id)
    requires Path(caps, reentry, s, acts, end) && id < |s.subs|
    ensures id < |end.subs| && Continues(s.subs[id], end.subs[id]) && History(s) <= History(end)
    decreases |acts|
  {
    hide Enabled, Next;
    if acts != [] {
      StepContinues(caps, reentry, s, acts[0], id);
      RunContinues(caps, reentry, Next(caps, reentry, s, acts[0]), acts[1..], end, id);
    }
  }

  /** Where a call of `subscribe` is answered from: the position asked for, or the end of the
      history if that is earlier; and whoever asked for more than there is is told where the
      history ends, before anything else. */
  lemma AnsweredFrom(caps: Caps, reentry: Reentry, s: State, after: nat, acts: seq<Action>, end: State)
    requires Enabled(reentry, s, Subscribe(after)) && Path(caps, reentry, Next(caps, reentry, s, Subscribe(after)), acts, end)
    ensures |s.subs| < |end.subs|
    ensures var sub := end.subs[|s.subs|];
      && sub.after == after && sub.start == Min(after, s.lastSeq)
      && (after > s.lastSeq ==> sub.got != [] && sub.got[0] == Gap(s.lastSeq))
      && (sub.mode.Replaying? ==> sub.mode.goal == s.lastSeq)
  {
    RunContinues(caps, reentry, Next(caps, reentry, s, Subscribe(after)), acts, end, |s.subs|);
  }

  /** What a subscriber that asked for `after` when the history was `earlier` has got, before its
      first gap: the history from there, and a gap names the last envelope up to which nothing is
      missing. Whoever asked for more than there was has got nothing before its gap. */
  ghost predicate Answers(earlier: seq<Envelope>, now: seq<Envelope>, after: nat, got: seq<Item>) {
    && earlier <= now && (after > |earlier| ==> got != [] && got[0].Gap?)
    && forall n: nat | FirstGap(got, n) :: AnswersTo(now, Min(after, |earlier|), got, n)
  }

  ghost predicate AnswersTo(now: seq<Envelope>, from: nat, got: seq<Item>, n: nat)
    requires FirstGap(got, n)
  {
    from + n <= |now| && got[..n] == Events(now[from..from + n]) && (n < |got| ==> got[n] == Gap(from + n))
  }

  /** Exact delivery in terms of the call alone, for every run before and after it. */
  lemma AskedIsAnswered(caps: Caps, reentry: Reentry, s: State, after: nat, acts: seq<Action>, end: State)
    requires Safe(caps, reentry) && Reachable(caps, reentry, s) && Enabled(reentry, s, Subscribe(after))
    requires Path(caps, reentry, Next(caps, reentry, s, Subscribe(after)), acts, end)
    ensures |s.subs| < |end.subs| && Answers(History(s), History(end), after, end.subs[|s.subs|].got)
  {
    AnsweredFrom(caps, reentry, s, after, acts, end);
    StepAfter(caps, reentry, s, Subscribe(after), acts, end);
    ReplayIsExact(caps, reentry, s);
    ReplayIsExact(caps, reentry, end);
    RunContinues(caps, reentry, Next(caps, reentry, s, Subscribe(after)), acts, end, |s.subs|);
    var sub := end.subs[|s.subs|];
    forall n: nat | FirstGap(sub.got, n) ensures AnswersTo(History(end), Min(after, |History(s)|), sub.got, n) {
      assert Exact(History(end), sub) && ExactTo(History(end), sub, n);
    }
  }

  lemma {:induction false} Extended(caps: Caps, reentry: Reentry, s: State, past: seq<Action>, mid: State, acts: seq<Action>, end: State)
    requires Path(caps, reentry, s, past, mid) && Path(caps, reentry, mid, acts, end)
    ensures Path(caps, reentry, s, past + acts, end)
    decreases |past|
  {
    hide Enabled, Next;
    if past == [] {
      assert past + acts == acts;
    } else {
      assert (past + acts)[1..] == past[1..] + acts;
      Extended(caps, reentry, Next(caps, reentry, s, past[0]), past[1..], mid, acts, end);
    }
  }

  lemma StepAfter(caps: Caps, reentry: Reentry, s: State, a: Action, acts: seq<Action>, end: State)
    requires Reachable(caps, reentry, s) && Enabled(reentry, s, a) && Path(caps, reentry, Next(caps, reentry, s, a), acts, end)
    ensures Reachable(caps, reentry, end)
  {
    hide Enabled, Next;
    var init, past :| Init(init) && Path(caps, reentry, init, past, s);
    assert [a] + acts != [] && ([a] + acts)[1..] == acts;
    Extended(caps, reentry, init, past, s, [a] + acts, end);
  }

  // ---------------------------------------------------------------- when a gap is told

  /** A subscriber without a gap is told of one only if its spill could not be read, or if more
      than the high-water mark of events has been emitted since it asked. */
  lemma GapOnlyWhen(caps: Caps, reentry: Reentry, s: State, a: Action, id: Id)
    requires Safe(caps, reentry) && Reachable(caps, reentry, s) && Enabled(reentry, s, a) && id < |s.subs|
    requires GapFree(s.subs[id].got) && !GapFree(Next(caps, reentry, s, a).subs[id].got)
    ensures s.subs[id].mode.Replaying?
    ensures a == ReplayFail(id) || (a.FanOut? && s.lastSeq - |s.fanout| - s.subs[id].mode.goal >= caps.highWater)
  {
    var init, acts :| Init(init) && Path(caps, reentry, init, acts, s);
    PathKeepsInv(caps, reentry, init, acts, s);
    var sub := s.subs[id];
    assert SubInv(History(s), s.lastSeq - |s.fanout|, |s.spill|, sub);
    if AboutOne(a) {
      assert a.id == id;
      if a.ReplayNext? { NoFalseGap(caps, reentry, s, id); }
    }
  }

  /** Whose replay is under way has been told of no gap: a gap ends the replay. */
  lemma GapEndsReplay(caps: Caps, reentry: Reentry, s: State, id: Id)
    requires Reachable(caps, reentry, s) && id < |s.subs| && s.subs[id].mode.Replaying?
    ensures GapFree(s.subs[id].got)
  {
    var init, acts :| Init(init) && Path(caps, reentry, init, acts, s);
    ReplayingIsGapFree(caps, reentry, init, acts, s);
  }

  lemma {:induction false} ReplayingIsGapFree(caps: Caps, reentry: Reentry, s: State, acts: seq<Action>, end: State)
    requires forall id | 0 <= id < |s.subs| && s.subs[id].mode.Replaying? :: GapFree(s.subs[id].got)
    requires Path(caps, reentry, s, acts, end)
    ensures forall id | 0 <= id < |end.subs| && end.subs[id].mode.Replaying? :: GapFree(end.subs[id].got)
    decreases |acts|
  {
    if acts != [] { ReplayingIsGapFree(caps, reentry, Next(caps, reentry, s, acts[0]), acts[1..], end); }
  }

  /** Telling of a gap inside `subscribe` is a call of the subscriber: it may emit, and nothing
      else happens until it returns. */
  lemma TellingIsACall(caps: Caps, reentry: Reentry, s: State, a: Action, id: Id, b: Action)
    requires Quiet(s) && Enabled(reentry, s, a) && id < |Next(caps, reentry, s, a).subs|
    requires (a.Subscribe? && id == |s.subs| && a.after > s.lastSeq)
      || (AboutOne(a) && a.id == id && GapFree(s.subs[id].got) && !GapFree(Next(caps, reentry, s, a).subs[id].got))
    ensures Enabled(reentry, Next(caps, reentry, s, a), b) <==> b.Emit? || b == Return(id)
  {
    var t := Next(caps, reentry, s, a);
    if AboutOne(a) {
      forall e ensures GapFree(s.subs[id].got + [Event(e)]) {
        StaysGapFree(s.subs[id].got, e);
      }
    }
    assert t.subs[id].handed.Some? && !t.subs[id].mode.Flushing? && !t.subs[id].mode.Replaying?;
    assert Engaged(t.subs[id]) && MayEmit(reentry, t.subs[id]);
    assert forall k | 0 <= k < |t.subs| && k != id :: !Engaged(t.subs[k]);
  }

  /** Nothing reaches a subscriber that has closed, or was dropped for falling behind. */
  lemma {:induction false} ClosedIsSilent(caps: Caps, reentry: Reentry, s: State, acts: seq<Action>, end: State, id: Id)
    requires Path(caps, reentry, s, acts, end) && id < |s.subs| && s.subs[id].mode.Closed? && s.subs[id].handed.None?
    ensures id < |end.subs| && end.subs[id] == s.subs[id]
    decreases |acts|
  {
    if acts != [] { ClosedIsSilent(caps, reentry, Next(caps, reentry, s, acts[0]), acts[1..], end, id); }
  }

  lemma CloseEnds(caps: Caps, reentry: Reentry, s: State, id: Id, acts: seq<Action>, end: State)
    requires Enabled(reentry, s, Close(id)) && Path(caps, reentry, Next(caps, reentry, s, Close(id)), acts, end)
    ensures id < |end.subs| && end.subs[id].got == s.subs[id].got
  {
    assert !Engaged(s.subs[id]);
    ClosedIsSilent(caps, reentry, Next(caps, reentry, s, Close(id)), acts, end, id);
  }

  // ---------------------------------------------------------------- catching up

  /** `subscribe` serves this subscriber, and nobody else is being called. */
  ghost predicate Serving(s: State, id: Id) {
    && id < |s.subs| && s.fanout == [] && GapFree(s.subs[id].got)
    && (forall k | 0 <= k < |s.subs| && k != id :: !Engaged(s.subs[k]))
    && (s.subs[id].mode.Flushing? || (s.subs[id].mode.Replaying? && s.subs[id].mode.goal <= |s.spill|))
  }

  /** What is left to do for it. */
  function Chores(sub: Sub): nat {
    match sub.mode
    case Replaying(next, goal) =>
      if next < goal then 2 * (goal - next) - (if sub.handed.Some? then 1 else 0) else if sub.handed.Some? then 1 else 0
    case Flushing(rest) => 2 * |rest| + if sub.handed.Some? then 1 else 0
    case _ => 0
  }

  predicate Fewer(later: Sub, sub: Sub) {
    if later.mode.Replaying? == sub.mode.Replaying? then Chores(later) < Chores(sub) else sub.mode.Replaying?
  }

  function Chore(s: State, id: Id): Action
    requires id < |s.subs|
  {
    var sub := s.subs[id];
    if sub.handed.Some? then Return(id)
    else if sub.mode.Flushing? then Flush(id)
    else if sub.mode.Replaying? && sub.mode.next < sub.mode.goal then ReplayNext(id)
    else ReplayEnd(id)
  }

  /** One more item handed over, and no gap told. */
  lemma StaysGapFree(got: seq<Item>, e: Envelope)
    requires GapFree(got)
    ensures GapFree(got + [Event(e)])
  {
  }

  /** The line after those replayed is the next one due, so it is handed over. */
  lemma LineIsDue(s: State, id: Id)
    requires LogInv(s) && id < |s.subs| && SubInv(History(s), s.lastSeq - |s.fanout|, |s.spill|, s.subs[id])
    requires GapFree(s.subs[id].got) && s.subs[id].handed.None? && s.subs[id].mode.Replaying? && s.subs[id].mode.next < |s.spill|
    ensures var sub := s.subs[id]; var e := s.spill[sub.mode.next];
      Replayed(sub, e) == if e.seqNo <= sub.after then sub.(mode := sub.mode.(next := sub.mode.next + 1)) else Handed(sub, e)
  {
    var sub := s.subs[id];
    assert s.spill[sub.mode.next] == History(s)[sub.mode.next];
  }

  lemma DoesChore(caps: Caps, reentry: Reentry, s: State, id: Id)
    requires Safe(caps, reentry) && Reachable(caps, reentry, s) && Serving(s, id)
    ensures Enabled(reentry, s, Chore(s, id))
    ensures var t := Next(caps, reentry, s, Chore(s, id));
      && t == s.(subs := t.subs) && |t.subs| == |s.subs| && GapFree(t.subs[id].got)
      && (forall k | 0 <= k < |s.subs| && k != id :: t.subs[k] == s.subs[k])
      && (t.subs[id].mode.Live? || (Serving(t, id) && Fewer(t.subs[id], s.subs[id])))
  {
    var sub, a := s.subs[id], Chore(s, id);
    ReachableSub(caps, reentry, s, id);
    if sub.mode.Replaying? && sub.handed.None? {
      assert Quiet(s);
      if sub.mode.next < sub.mode.goal { LineIsDue(s, id); }
    }
    hide SubInv, LogInv, Reachable;
    var moved := SubNext(s.spill, sub, a);
    assert moved.got == sub.got || exists e :: moved.got == sub.got + [Event(e)];
    forall e ensures GapFree(sub.got + [Event(e)]) { StaysGapFree(sub.got, e); }
    assert Next(caps, reentry, s, a).subs == s.subs[id := moved];
  }

  lemma ReachableSub(caps: Caps, reentry: Reentry, s: State, id: Id)
    requires Safe(caps, reentry) && Reachable(caps, reentry, s) && id < |s.subs|
    ensures LogInv(s) && SubInv(History(s), s.lastSeq - |s.fanout|, |s.spill|, s.subs[id])
  {
    var init, acts :| Init(init) && Path(caps, reentry, init, acts, s);
    PathKeepsInv(caps, reentry, init, acts, s);
  }

  lemma {:induction false} ServesThrough(caps: Caps, reentry: Reentry, s: State, id: Id) returns (acts: seq<Action>, end: State)
    requires Safe(caps, reentry) && Reachable(caps, reentry, s) && Serving(s, id)
    ensures Path(caps, reentry, s, acts, end) && Reachable(caps, reentry, end) && History(end) == History(s) && end.fanout == []
    ensures id < |end.subs| && end.subs[id].mode.Live? && GapFree(end.subs[id].got)
    decreases s.subs[id].mode.Replaying?, Chores(s.subs[id])
  {
    DoesChore(caps, reentry, s, id);
    var a := Chore(s, id);
    var t := Go(caps, reentry, s, a);
    hide Enabled, Next, Reachable, Chore, Chores, Serving, GapFree;
    if t.subs[id].mode.Live? {
      acts, end := [], t;
    } else {
      acts, end := ServesThrough(caps, reentry, t, id);
    }
    assert ([a] + acts)[0] == a && ([a] + acts)[1..] == acts;
    acts := [a] + acts;
  }

  /** What is queued can be written, all of it. */
  lemma {:induction false} WritesLand(caps: Caps, reentry: Reentry, s: State) returns (acts: seq<Action>, end: State)
    requires Reachable(caps, reentry, s) && Quiet(s)
    ensures Path(caps, reentry, s, acts, end) && Reachable(caps, reentry, end)
    ensures end == s.(spill := History(s), queue := [])
    decreases |s.queue|
  {
    hide Reachable;
    if s.queue == [] {
      acts, end := [], s;
      assert History(s) == s.spill;
    } else {
      var t := Go(caps, reentry, s, Write);
      assert History(t) == History(s);
      acts, end := WritesLand(caps, reentry, t);
      hide Enabled, Next, Quiet;
      assert ([Write] + acts)[0] == Write && ([Write] + acts)[1..] == acts;
      acts := [Write] + acts;
    }
  }

  /** Nobody waits for ever: once the writes have landed, a subscriber served from the spill can be
      given all of it and what was buffered, in one go, and is then live and holds the history from
      where it asked. */
  lemma CatchesUp(caps: Caps, reentry: Reentry, s: State, id: Id) returns (acts: seq<Action>, end: State)
    requires Safe(caps, reentry) && Reachable(caps, reentry, s) && Quiet(s)
    requires id < |s.subs| && s.subs[id].mode.Replaying?
    ensures Path(caps, reentry, s, acts, end) && id < |end.subs| && end.subs[id].mode.Live? && History(end) == History(s)
    ensures s.subs[id].after <= |History(s)| && end.subs[id].got == Events(History(s)[s.subs[id].after..])
  {
    GapEndsReplay(caps, reentry, s, id);
    ReachableSub(caps, reentry, s, id);
    var writes, mid := WritesLand(caps, reentry, s);
    assert History(mid) == History(s) && Serving(mid, id);
    var serves;
    serves, end := ServesThrough(caps, reentry, mid, id);
    acts := writes + serves;
    Extended(caps, reentry, s, writes, mid, serves, end);
    RunContinues(caps, reentry, s, acts, end, id);
    ReplayIsExact(caps, reentry, end);
  }

  // ---------------------------------------------------------------- the ring

  /** The ring is as long as it may be: all that was emitted since the process started, or as much
      of it as fits. */
  ghost predicate RingIsFull(caps: Caps, init: State, s: State) {
    && |init.spill| <= s.lastSeq
    && |s.ring| == (if caps.ring <= 0 then 0 else Min(caps.ring, s.lastSeq - |init.spill|))
  }

  lemma {:induction false} RingStaysFull(caps: Caps, reentry: Reentry, init: State, s: State, acts: seq<Action>, end: State)
    requires RingIsFull(caps, init, s) && Path(caps, reentry, s, acts, end)
    ensures RingIsFull(caps, init, end)
    decreases |acts|
  {
    if acts != [] {
      RingStaysFull(caps, reentry, init, Next(caps, reentry, s, acts[0]), acts[1..], end);
    }
  }

  /** Whoever asks for a position the ring reaches back to is served from memory, whatever is
      still in the write queue. */
  lemma RingServesRecent(caps: Caps, reentry: Reentry, init: State, acts: seq<Action>, s: State, after: nat)
    requires Safe(caps, reentry) && Init(init) && Path(caps, reentry, init, acts, s) && Enabled(reentry, s, Subscribe(after))
    requires |init.spill| <= after <= s.lastSeq && s.lastSeq - after <= caps.ring && 0 < caps.ring
    ensures after <= |History(s)|
    ensures s.lastSeq > |init.spill| ==>
      Next(caps, reentry, s, Subscribe(after)).subs[|s.subs|].mode == Flushing(History(s)[after..])
  {
    RingStaysFull(caps, reentry, init, init, acts, s);
    PathKeepsInv(caps, reentry, init, acts, s);
    if s.lastSeq > |init.spill| {
      var h, from := History(s), |History(s)| - |s.ring|;
      assert s.ring[0] == h[from];
      AfterSuffix(h, from, after);
    }
  }
}
