/**
The attempt a host keeps for each session it is asked to create
(`src/agent-console/core/create-attempts.ts`). `prepare`, `commit` and `abort` may be called
in any order and any number of times, from several callers at once; behind them stand three
effects, each of which may take its time. One call runs to its first wait before anything
else happens; the effects do not call back into the attempt they belong to.
*/
module CreateAttempts {
  type Sid = nat

  datatype Progress = New | Prepared | Committing | Committed | Aborted

  /** A promise of the attempt: not there yet, waiting for its effect, or done. */
  datatype Promise = Never | Running | Settled(ok: bool)

  /** `waiters` are the `abort` calls that wait for a commit to end. */
  datatype Attempt = Attempt(state: Progress, preparation: Promise, committing: Promise, aborting: bool, waiters: nat)

  const FRESH := Attempt(New, Never, Never, false, 0)

  /** What an attempt does to the host, and hears from it. */
  datatype Event = RunPrepare | PrepareOk | PrepareFailed | RunCommit | CommitOk | CommitFailed | RunAbort

  datatype Act = CallPrepare | PrepareSettles(ok: bool) | CallCommit | CommitSettles(ok: bool) | CallAbort | AbortResumes

  // ---------------------------------------------------------------- steps

  /** When a continuation can run; calls can always come. */
  predicate Enabled(a: Attempt, act: Act) {
    match act
    case PrepareSettles(_) => a.preparation.Running?
    case CommitSettles(_) => a.committing.Running?
    case AbortResumes => a.waiters > 0 && a.committing.Settled?
    case _ => true
  }

  /** `abort` once no commit is running. */
  function AbortNow(a: Attempt): (Attempt, seq<Event>) {
    if a.state.Committed? || a.aborting then (a, []) else (a.(state := Aborted, aborting := true), [RunAbort])
  }

  function Next(a: Attempt, act: Act): (Attempt, seq<Event>)
    requires Enabled(a, act)
  {
    match act
    case CallPrepare =>
      if a.state.Aborted? || !a.preparation.Never? then (a, []) else (a.(preparation := Running), [RunPrepare])
    case PrepareSettles(ok) =>
      var heard := if ok then PrepareOk else PrepareFailed;
      var done := a.(preparation := Settled(ok));
      if a.state.Aborted? then (done, [heard, RunAbort])
      else if ok then (done.(state := Prepared), [heard])
      else (done.(state := Aborted), [heard, RunAbort])
    case CallCommit =>
      if !a.committing.Never? || !a.state.Prepared? then (a, [])
      else (a.(state := Committing, committing := Running), [RunCommit])
    case CommitSettles(ok) =>
      if ok then (a.(state := Committed, committing := Settled(true)), [CommitOk])
      else (a.(state := Aborted, committing := Settled(false)), [CommitFailed, RunAbort])
    case CallAbort =>
      if a.state.Committing? then (a.(waiters := a.waiters + 1), []) else AbortNow(a)
    case AbortResumes => AbortNow(a.(waiters := a.waiters - 1))
  }

  /** An attempt and all that has happened between it and the host. */
  datatype History = History(attempt: Attempt, trace: seq<Event>)

  function Step(h: History, act: Act): History
    requires Enabled(h.attempt, act)
  {
    var (a, events) := Next(h.attempt, act);
    History(a, h.trace + events)
  }

  ghost predicate Path(h: History, acts: seq<Act>, end: History)
    decreases |acts|
  {
    if acts == [] then h == end else Enabled(h.attempt, acts[0]) && Path(Step(h, acts[0]), acts[1..], end)
  }

  ghost predicate Reachable(h: History) {
    exists acts :: Path(History(FRESH, []), acts, h)
  }

  // ---------------------------------------------------------------- what every run keeps

  ghost predicate Once(trace: seq<Event>, e: Event) {
    forall i, j | 0 <= i < j < |trace| :: !(trace[i] == e && trace[j] == e)
  }

  /** Every `RunCommit` comes behind a `PrepareOk`. */
  ghost predicate PreparedFirst(trace: seq<Event>) {
    forall i | 0 <= i < |trace| && trace[i].RunCommit? :: PrepareOk in trace[..i]
  }

  /** The abort effect has run, and the prepare effect neither started nor succeeded after it. */
  ghost predicate Freed(trace: seq<Event>) {
    exists k :: 0 <= k < |trace| && trace[k].RunAbort? && NoPrepare(trace[k..])
  }

  ghost predicate NoPrepare(trace: seq<Event>) {
    RunPrepare !in trace && PrepareOk !in trace
  }

  /** Where an attempt stands, as its trace tells. */
  ghost predicate Told(a: Attempt, trace: seq<Event>) {
    && (RunPrepare in trace <==> !a.preparation.Never?)
    && (PrepareOk in trace <==> a.preparation == Settled(true))
    && (RunCommit in trace <==> !a.committing.Never?)
    && (CommitOk in trace <==> a.state.Committed?)
    && (RunAbort in trace ==> a.state.Aborted?)
    && (a.aborting ==> RunAbort in trace)
  }

  ghost predicate Shape(a: Attempt) {
    && (a.committing.Running? <==> a.state.Committing?)
    && (a.committing == Settled(true) <==> a.state.Committed?)
    && (!a.committing.Never? ==> a.preparation == Settled(true))
    && (a.state.New? ==> !a.preparation.Settled?)
    && (a.state.Prepared? ==> a.preparation == Settled(true) && a.committing.Never?)
    && (a.waiters > 0 ==> !a.committing.Never?)
  }

  ghost predicate Inv(h: History) {
    && Shape(h.attempt) && Told(h.attempt, h.trace)
    && Once(h.trace, RunPrepare) && Once(h.trace, RunCommit) && PreparedFirst(h.trace)
    && (h.attempt.state.Aborted? && !h.attempt.preparation.Running? ==> Freed(h.trace))
  }

  lemma FreedAgain(trace: seq<Event>, events: seq<Event>)
    requires events != [] && events[|events| - 1].RunAbort?
    ensures Freed(trace + events)
  {
    var all := trace + events;
    assert all[|all| - 1..] == [RunAbort];
  }

  lemma FreedStays(trace: seq<Event>, events: seq<Event>)
    requires Freed(trace) && NoPrepare(events)
    ensures Freed(trace + events)
  {
    var k :| 0 <= k < |trace| && trace[k].RunAbort? && NoPrepare(trace[k..]);
    assert (trace + events)[k..] == trace[k..] + events;
  }

  lemma PreparedFirstGrows(trace: seq<Event>, events: seq<Event>)
    requires PreparedFirst(trace) && (RunCommit in events ==> PrepareOk in trace && events == [RunCommit])
    ensures PreparedFirst(trace + events)
  {
    var all := trace + events;
    forall i | 0 <= i < |all| && all[i].RunCommit? ensures PrepareOk in all[..i] {
      if i < |trace| { assert all[..i] == trace[..i]; } else { assert all[..i] == trace; }
    }
  }

  lemma OnceGrows(trace: seq<Event>, events: seq<Event>, e: Event)
    requires Once(trace, e) && (e in events ==> e !in trace && events == [e])
    ensures Once(trace + events, e)
  {
    var all := trace + events;
    forall i, j | 0 <= i < j < |all| ensures !(all[i] == e && all[j] == e) {
      assert i < |trace| ==> all[i] == trace[i];
      assert j >= |trace| ==> all[j] == events[j - |trace|];
    }
  }

  lemma StepKeepsTold(h: History, act: Act)
    requires Inv(h) && Enabled(h.attempt, act)
    ensures Shape(Step(h, act).attempt) && Told(Step(h, act).attempt, Step(h, act).trace)
  {
    hide Once, PreparedFirst, Freed;
  }

  lemma StepKeepsInv(h: History, act: Act)
    requires Inv(h) && Enabled(h.attempt, act)
    ensures Inv(Step(h, act))
  {
    hide Once, PreparedFirst, Freed;
    var (a, events) := Next(h.attempt, act);
    StepKeepsTold(h, act);
    OnceGrows(h.trace, events, RunPrepare);
    OnceGrows(h.trace, events, RunCommit);
    PreparedFirstGrows(h.trace, events);
    if events != [] && events[|events| - 1].RunAbort? {
      FreedAgain(h.trace, events);
    } else if Freed(h.trace) && NoPrepare(events) {
      FreedStays(h.trace, events);
    }
  }

  lemma {:induction false} PathKeepsInv(h: History, acts: seq<Act>, end: History)
    requires Inv(h) && Path(h, acts, end)
    ensures Inv(end)
    decreases |acts|
  {
    if acts != [] {
      StepKeepsInv(h, acts[0]);
      PathKeepsInv(Step(h, acts[0]), acts[1..], end);
    }
  }

  /** In every run: the prepare and the commit effect run at most once; commit runs only after
      prepare has succeeded; and the abort effect and a successful commit exclude each other. */
  lemma EffectsAreSafe(h: History)
    requires Reachable(h)
    ensures Once(h.trace, RunPrepare) && Once(h.trace, RunCommit) && PreparedFirst(h.trace)
    ensures !(CommitOk in h.trace && RunAbort in h.trace)
  {
    var acts :| Path(History(FRESH, []), acts, h);
    PathKeepsInv(History(FRESH, []), acts, h);
  }

  /** An attempt that ended as aborted leaves nothing prepared behind: once its prepare effect
      has settled, the abort effect has run after it. */
  lemma AbortedIsFreed(h: History)
    requires Reachable(h) && h.attempt.state.Aborted? && !h.attempt.preparation.Running?
    ensures Freed(h.trace)
  {
    var acts :| Path(History(FRESH, []), acts, h);
    PathKeepsInv(History(FRESH, []), acts, h);
  }

  /** What a caller of `abort`, and a failed effect, leave behind. */
  ghost predicate Ended(h: History, acts: seq<Act>) {
    && (CallAbort in acts ==> h.attempt.waiters > 0 || h.attempt.state.Aborted? || h.attempt.state.Committed?)
    && (PrepareFailed in h.trace || CommitFailed in h.trace ==> h.attempt.state.Aborted?)
    && (h.attempt.state.Aborted? ==> RunAbort in h.trace)
  }

  lemma StepEnds(h: History, done: seq<Act>, act: Act)
    requires Inv(h) && Ended(h, done) && Enabled(h.attempt, act)
    ensures Ended(Step(h, act), done + [act])
  {
    hide Once, PreparedFirst, Freed;
  }

  lemma {:induction false} PathEnds(h: History, done: seq<Act>, acts: seq<Act>, end: History)
    requires Inv(h) && Ended(h, done) && Path(h, acts, end)
    ensures Ended(end, done + acts)
    decreases |acts|
  {
    if acts == [] {
      assert done + acts == done;
    } else {
      StepKeepsInv(h, acts[0]);
      StepEnds(h, done, acts[0]);
      PathEnds(Step(h, acts[0]), done + [acts[0]], acts[1..], end);
      assert done + [acts[0]] + acts[1..] == done + acts;
    }
  }

  /** `abort` aborts. Once every call of it has returned, the attempt is aborted and its abort
      effect has run, unless the session was committed; and so it is after an effect that failed.
      Nothing brings an aborted attempt back. */
  lemma AbortAborts(acts: seq<Act>, h: History, more: seq<Act>, later: History)
    requires Path(History(FRESH, []), acts, h) && Path(h, more, later)
    ensures CallAbort in acts && h.attempt.waiters == 0 ==> h.attempt.state.Aborted? || CommitOk in h.trace
    ensures PrepareFailed in h.trace || CommitFailed in h.trace ==> h.attempt.state.Aborted?
    ensures h.attempt.state.Aborted? ==> RunAbort in h.trace && later.attempt.state.Aborted? && CommitOk !in later.trace
  {
    PathKeepsInv(History(FRESH, []), acts, h);
    assert [] + acts == acts;
    PathEnds(History(FRESH, []), [], acts, h);
    PathKeepsInv(h, more, later);
    if h.attempt.state.Aborted? { AbortedStays(h, more, later); }
  }

  lemma {:induction false} AbortedStays(h: History, acts: seq<Act>, end: History)
    requires Inv(h) && Path(h, acts, end) && h.attempt.state.Aborted?
    ensures end.attempt.state.Aborted?
    decreases |acts|
  {
    if acts != [] {
      StepKeepsInv(h, acts[0]);
      AbortedStays(Step(h, acts[0]), acts[1..], end);
    }
  }

  function Count(trace: seq<Event>, e: Event): nat {
    if trace == [] then 0 else Count(trace[..|trace| - 1], e) + if trace[|trace| - 1] == e then 1 else 0
  }

  lemma {:induction false} CountConcat(a: seq<Event>, b: seq<Event>, e: Event)
    ensures Count(a + b, e) == Count(a, e) + Count(b, e)
    decreases |b|
  {
    if b == [] {
      assert a + b == a;
    } else {
      CountConcat(a, b[..|b| - 1], e);
      assert (a + b)[..|a + b| - 1] == a + b[..|b| - 1];
    }
  }

  /** The abort effects an attempt has had: one for its `abort` calls, however many, and one for an
      effect that failed, or that succeeded too late. */
  function Aborts(a: Attempt): nat {
    (if a.aborting then 1 else 0)
    + if a.committing == Settled(false) || (a.committing.Never? && a.preparation.Settled? && a.state.Aborted?) then 1 else 0
  }

  function Among(events: seq<Event>): nat
    requires |events| <= 2
  {
    (if |events| > 0 && events[0].RunAbort? then 1 else 0) + if |events| > 1 && events[1].RunAbort? then 1 else 0
  }

  lemma NextAborts(a: Attempt, act: Act)
    requires Shape(a) && Enabled(a, act) && (a.aborting ==> a.state.Aborted?)
    ensures var (b, events) := Next(a, act);
      |events| <= 2 && Aborts(a) + Among(events) <= Aborts(b) && (b.aborting ==> b.state.Aborted?)
  {
  }

  lemma StepAborts(h: History, act: Act)
    requires Inv(h) && Count(h.trace, RunAbort) <= Aborts(h.attempt) && Enabled(h.attempt, act)
    requires h.attempt.aborting ==> h.attempt.state.Aborted?
    ensures Count(Step(h, act).trace, RunAbort) <= Aborts(Step(h, act).attempt)
    ensures Step(h, act).attempt.aborting ==> Step(h, act).attempt.state.Aborted?
  {
    NextAborts(h.attempt, act);
    var events := Next(h.attempt, act).1;
    CountConcat(h.trace, events, RunAbort);
    CountFew(events);
    hide Count, Next, Aborts, Among, Inv;
  }

  lemma CountFew(events: seq<Event>)
    requires |events| <= 2
    ensures Count(events, RunAbort) == Among(events)
  {
    if |events| > 0 { assert |events[..|events| - 1]| < 2 && Count([], RunAbort) == 0; }
    if |events| == 1 { assert events[..0] == []; }
    if |events| == 2 { assert events[..1][..0] == [] && events[..1][0] == events[0]; }
  }

  lemma {:induction false} PathAborts(h: History, acts: seq<Act>, end: History)
    requires Inv(h) && Count(h.trace, RunAbort) <= Aborts(h.attempt) && Path(h, acts, end)
    requires h.attempt.aborting ==> h.attempt.state.Aborted?
    ensures Count(end.trace, RunAbort) <= Aborts(end.attempt)
    decreases |acts|
  {
    if acts != [] {
      StepKeepsInv(h, acts[0]);
      StepAborts(h, acts[0]);
      hide Aborts, Inv;
      PathAborts(Step(h, acts[0]), acts[1..], end);
    }
  }

  /** The abort effect runs at most twice, however often `abort` is called, and at most once while
      no effect of the attempt has failed or come too late. */
  lemma AbortsAreFew(h: History)
    requires Reachable(h)
    ensures Count(h.trace, RunAbort) <= 2
    ensures !h.attempt.preparation.Settled? ==> Count(h.trace, RunAbort) <= 1
  {
    var acts :| Path(History(FRESH, []), acts, h);
    PathKeepsInv(History(FRESH, []), acts, h);
    PathAborts(History(FRESH, []), acts, h);
  }

  /** Once the commit has ended, every `abort` that waits for it returns. */
  lemma {:induction false} WaitersReturn(h: History) returns (acts: seq<Act>, end: History)
    requires h.attempt.committing.Settled?
    ensures Path(h, acts, end) && end.attempt.waiters == 0
    decreases h.attempt.waiters
  {
    if h.attempt.waiters == 0 {
      acts, end := [], h;
    } else {
      acts, end := WaitersReturn(Step(h, AbortResumes));
      assert ([AbortResumes] + acts)[1..] == acts;
      acts := [AbortResumes] + acts;
    }
  }

  /** Not all runs end in nothing: prepare, then commit, goes through. */
  lemma CommitGoesThrough()
    ensures Reachable(History(Attempt(Committed, Settled(true), Settled(true), false, 0), [RunPrepare, PrepareOk, RunCommit, CommitOk]))
  {
    var h0 := History(FRESH, []);
    var acts := [CallPrepare, PrepareSettles(true), CallCommit, CommitSettles(true)];
    var h1 := Step(h0, acts[0]);
    var h2 := Step(h1, acts[1]);
    var h3 := Step(h2, acts[2]);
    var h4 := Step(h3, acts[3]);
    assert h4 == History(Attempt(Committed, Settled(true), Settled(true), false, 0), [RunPrepare, PrepareOk, RunCommit, CommitOk]);
    assert Path(h3, acts[3..], h4) by { assert acts[3..][1..] == []; }
    assert Path(h2, acts[2..], h4) by { assert acts[2..][1..] == acts[3..]; }
    assert Path(h1, acts[1..], h4) by { assert acts[1..][1..] == acts[2..]; }
    assert Path(h0, acts, h4);
  }

  // ---------------------------------------------------------------- the table of attempts

  class HostAttempts {
    var attempts: map<Sid, Attempt>

    constructor ()
      ensures attempts == map[]
    {
      attempts := map[];
    }

    /** `get`: an attempt comes into being when it is first asked for. */
    function Get(id: Sid): Attempt
      reads this
    {
      if id in attempts then attempts[id] else FRESH
    }

    /** Each method runs up to its first wait, and tells which effect it has called. */
    method Prepare(id: Sid) returns (runs: seq<Event>)
      modifies this
      ensures var n := Next(old(Get(id)), CallPrepare); runs == n.1 && attempts == old(attempts)[id := n.0]
    {
      var a := Get(id);
      attempts, runs := attempts[id := a], [];
      if a.state.Aborted? { return; }
      if !a.preparation.Never? { return; }
      runs := [RunPrepare];
      attempts := attempts[id := a.(preparation := Running)];
    }

    method PreparationThen(id: Sid, ok: bool) returns (runs: seq<Event>)
      requires Enabled(Get(id), PrepareSettles(ok))
      modifies this
      ensures var n := Next(old(Get(id)), PrepareSettles(ok)); runs == n.1 && attempts == old(attempts)[id := n.0]
    {
      var a := Get(id).(preparation := Settled(ok));
      runs := [if ok then PrepareOk else PrepareFailed];
      if a.state.Aborted? {
        runs := runs + [RunAbort];
      } else if ok {
        a := a.(state := Prepared);
      } else {
        a := a.(state := Aborted);
        runs := runs + [RunAbort];
      }
      attempts := attempts[id := a];
    }

    method Commit(id: Sid) returns (runs: seq<Event>)
      modifies this
      ensures var n := Next(old(Get(id)), CallCommit); runs == n.1 && attempts == old(attempts)[id := n.0]
    {
      var a := Get(id);
      attempts, runs := attempts[id := a], [];
      if !a.committing.Never? { return; }
      if !a.state.Prepared? { return; }
      runs := [RunCommit];
      attempts := attempts[id := a.(state := Committing, committing := Running)];
    }

    method CommittingThen(id: Sid, ok: bool) returns (runs: seq<Event>)
      requires Enabled(Get(id), CommitSettles(ok))
      modifies this
      ensures var n := Next(old(Get(id)), CommitSettles(ok)); runs == n.1 && attempts == old(attempts)[id := n.0]
    {
      var a := Get(id).(committing := Settled(ok));
      a := a.(state := if ok then Committed else Aborted);
      runs := [if ok then CommitOk else CommitFailed];
      if !ok { runs := runs + [RunAbort]; }
      attempts := attempts[id := a];
    }

    /** `abort` up to its wait for a running commit, or, `resumed`, from there on. */
    method Abort(id: Sid, resumed: bool) returns (runs: seq<Event>)
      requires resumed ==> Enabled(Get(id), AbortResumes)
      modifies this
      ensures var n := Next(old(Get(id)), if resumed then AbortResumes else CallAbort);
        runs == n.1 && attempts == old(attempts)[id := n.0]
    {
      var a := Get(id);
      runs := [];
      if !resumed && a.state.Committing? {
        attempts := attempts[id := a.(waiters := a.waiters + 1)];
        return;
      }
      if resumed { a := a.(waiters := a.waiters - 1); }
      if !a.state.Committed? && !a.aborting {
        a := a.(state := Aborted, aborting := true);
        runs := [RunAbort];
      }
      attempts := attempts[id := a];
    }
  }
}
