/**
What becomes of the requisitions of `Requisitions.dfy` when an append goes wrong half way
(`src/agent-console/process/append-log.ts`), or is undone later. One may report failure although
its line has reached the log. It may be cut short, by an error or a crash, within its line:
nothing repairs the log, so the next line is appended to the fragment, and the fold drops both.
And since these lines are not synced, a crash of the machine may leave only a first part of the
log, without lines that were acknowledged.
*/
module RequisitionFaults {
  import opened Common
  import A = CreateAttempts
  import R = Requisitions

  type Rid = R.Rid
  type Sid = A.Sid

  /** The append that used a requisition up for a session was acknowledged. */
  datatype Use = Use(r: Rid, x: Sid)

  /** `torn`: the log ends within a line. `uses`: what was acknowledged, over all restarts. */
  datatype World = World(s: R.State, torn: bool, uses: seq<Use>)

  /** Which faults can happen. */
  datatype Faults = Faults(misreport: bool, tear: bool, forget: bool)

  /** `Forget`: a restart on the first `kept` lines of the log, and on a fragment of the next one
      if lines can be torn. */
  datatype Step =
    | Usual(a: R.Action) | Misreport(r: Rid) | Tear(r: Rid, crash: bool) | Forget(kept: nat, torn: bool)

  // ---------------------------------------------------------------- steps

  predicate CanStep(f: Faults, w: World, step: Step) {
    match step
    case Usual(a) => R.CanAct(w.s, a)
    case Misreport(r) => f.misreport && r in w.s.writing && w.s.writing[r].landed
    case Tear(r, _) => f.tear && r in w.s.writing && !w.s.writing[r].landed
    case Forget(kept, torn) => f.forget && kept <= |w.s.log| && (torn ==> f.tear)
  }

  /** The append of `r` is, or is not, taken to have put its line into the log. */
  function Marked(s: R.State, r: Rid, landed: bool): R.State
    requires r in s.writing
  {
    s.(writing := s.writing[r := s.writing[r].(landed := landed)])
  }

  function UsesBy(s: R.State, a: R.Action): seq<Use>
    requires R.CanAct(s, a)
  {
    if a.Settle? && s.writing[a.r].landed && s.writing[a.r].why.Attaching? then [Use(a.r, s.writing[a.r].why.sid)] else []
  }

  function After(f: Faults, w: World, step: Step): World
    requires CanStep(f, w, step)
  {
    match step
    case Usual(a) =>
      if a.Land? && w.torn then World(Marked(w.s, a.r, true), false, w.uses)
      else World(R.Advance(w.s, a), w.torn, w.uses + UsesBy(w.s, a))
    case Misreport(r) => World(R.Settled(Marked(w.s, r, false), r), w.torn, w.uses)
    case Tear(r, crash) => World(if crash then R.Boot(w.s.log) else R.Settled(w.s, r), true, w.uses)
    case Forget(kept, torn) => World(R.Boot(w.s.log[..kept]), torn, w.uses)
  }

  const START := World(R.Boot([]), false, [])

  ghost predicate Path(f: Faults, w: World, steps: seq<Step>, end: World)
    decreases |steps|
  {
    if steps == [] then w == end else CanStep(f, w, steps[0]) && Path(f, After(f, w, steps[0]), steps[1..], end)
  }

  ghost predicate Reachable(f: Faults, w: World) {
    exists steps :: Path(f, START, steps, w)
  }

  // ---------------------------------------------------------------- the two promises

  /** No requisition is ever used up for two sessions. */
  ghost predicate UsedOnce(w: World) {
    forall i, j | 0 <= i < j < |w.uses| :: w.uses[i].r != w.uses[j].r
  }

  /** The log never tells of two sessions for one requisition. */
  ghost predicate ToldOnce(w: World) {
    forall r :: |R.Uses(w.s.log, r)| <= 1
  }

  // ---------------------------------------------------------------- faults leave the core intact

  lemma MarkedCore(s: R.State, r: Rid, landed: bool)
    requires R.Core(s) && r in s.writing
    ensures R.Core(Marked(s, r, landed))
  {
    hide A.Shape, R.Holding;
    var t := Marked(s, r, landed);
    assert R.WriteInv(s, r);
    R.OwnersStay(s, t);
  }

  lemma StepKeepsCore(f: Faults, w: World, step: Step)
    requires R.Core(w.s) && CanStep(f, w, step)
    ensures R.Core(After(f, w, step).s)
  {
    match step
    case Usual(a) => if a.Land? && w.torn { MarkedCore(w.s, a.r, true); } else { R.StepKeepsCore(w.s, a); }
    case Misreport(r) =>
      MarkedCore(w.s, r, false);
      R.SettleKeeps(Marked(w.s, r, false), r);
    case Tear(r, crash) => if crash { R.BootKeeps(w.s.log); } else { R.SettleKeeps(w.s, r); }
    case Forget(kept, _) => R.BootKeeps(w.s.log[..kept]);
  }

  ghost predicate IsConsumed(q: Option<R.Requisition>) {
    q.Some? && q.value.state.Consumed?
  }

  function Told(s: R.State, r: Rid): Option<R.Requisition> {
    R.Lookup(R.Fold(s.log), r)
  }

  /** While an append for a requisition is out, the registry does not have it as used up. */
  lemma WrittenNotConsumed(s: R.State, r: Rid)
    requires R.Core(s) && r in s.writing
    ensures !IsConsumed(R.Lookup(s.reqs, r))
    ensures s.writing[r].why.Attaching? ==> s.writing[r].req.state.Consumed?
  {
    hide A.Shape, R.Fold;
    assert R.WriteInv(s, r);
    if s.writing[r].why.Attaching? { assert R.ClaimInv(s, s.writing[r].why.sid); }
  }

  // ---------------------------------------------------------------- what the log tells

  /** The log may lack what the registry knows, but what it says was used up was. */
  ghost predicate LogInv(s: R.State, r: Rid) {
    R.UsedAsTold(s.log, r) && (IsConsumed(Told(s, r)) ==> R.Latest(s, r) == Told(s, r))
  }

  /** One more line, as far as one requisition is concerned. */
  ghost predicate Appended(s: R.State, t: R.State, l: R.Line, q: Rid) {
    && Told(t, q) == (if q == l.id then Some(l.req) else Told(s, q))
    && R.Uses(t.log, q) == R.Uses(s.log, q) + if q == l.id && l.req.state.Consumed? then [l.req.session] else []
  }

  lemma LandTells(s: R.State, t: R.State, r: Rid, q: Rid)
    requires r in s.writing && !s.writing[r].landed && !IsConsumed(R.Lookup(s.reqs, r)) && LogInv(s, q)
    requires t.reqs == s.reqs && t.writing == Marked(s, r, true).writing
    requires t.log == s.log || Appended(s, t, R.Line(r, s.writing[r].req), q)
    ensures LogInv(t, q)
  {
    hide R.Fold, R.Uses;
  }

  lemma SettleTells(s: R.State, r: Rid, q: Rid)
    requires r in s.writing && LogInv(s, q)
    ensures LogInv(R.Settled(s, r), q)
  {
    hide R.Fold, R.Uses, R.Settled;
  }

  lemma StartTells(s: R.State, t: R.State, q: Rid)
    requires R.Started(s, t) && LogInv(s, q)
    ensures LogInv(t, q)
  {
    hide R.Fold, R.Uses;
  }

  lemma BootTells(s: R.State, q: Rid)
    requires LogInv(s, q)
    ensures LogInv(R.Boot(s.log), q)
  {
    hide R.Fold, R.Uses;
  }

  lemma {:induction false} ConsumedIsUsed(log: seq<R.Line>, q: Rid)
    requires IsConsumed(R.Lookup(R.Fold(log), q))
    ensures R.Uses(log, q) != []
    decreases |log|
  {
    var n := |log| - 1;
    if log[n].id != q { ConsumedIsUsed(log[..n], q); }
  }

  /** If a log tells of a requisition's use as it should, so does every first part of it. */
  lemma {:induction false} PrefixTells(log: seq<R.Line>, kept: nat, q: Rid)
    requires R.UsedAsTold(log, q) && kept <= |log|
    ensures R.UsedAsTold(log[..kept], q)
    decreases |log|
  {
    if kept == |log| {
      assert log[..kept] == log;
    } else {
      var shorter := log[..|log| - 1];
      if IsConsumed(R.Lookup(R.Fold(shorter), q)) { ConsumedIsUsed(shorter, q); }
      PrefixTells(shorter, kept, q);
      assert shorter[..kept] == log[..kept];
    }
  }

  lemma ForgetTells(s: R.State, kept: nat, q: Rid)
    requires LogInv(s, q) && kept <= |s.log|
    ensures LogInv(R.Boot(s.log[..kept]), q)
  {
    PrefixTells(s.log, kept, q);
    hide R.Fold, R.Uses;
  }

  lemma StepTells(f: Faults, w: World, step: Step, q: Rid)
    requires !f.misreport && R.Core(w.s) && CanStep(f, w, step) && LogInv(w.s, q)
    ensures LogInv(After(f, w, step).s, q)
  {
    hide R.Core, LogInv, R.Settled, R.Started;
    match step
    case Usual(a) =>
      if a.Land? {
        WrittenNotConsumed(w.s, a.r);
        R.FoldSnoc(w.s.log, R.Line(a.r, w.s.writing[a.r].req), q);
        LandTells(w.s, After(f, w, step).s, a.r, q);
      } else if a.Settle? {
        SettleTells(w.s, a.r, q);
      } else if a.Restart? {
        BootTells(w.s, q);
      } else {
        R.StepStarts(w.s, a);
        StartTells(w.s, R.Advance(w.s, a), q);
      }
    case Tear(r, crash) =>
      if crash {
        BootTells(w.s, q);
      } else {
        SettleTells(w.s, r, q);
      }
    case Forget(kept, _) => ForgetTells(w.s, kept, q);
    case _ =>
  }

  lemma {:induction false} PathTells(f: Faults, w: World, steps: seq<Step>, end: World, q: Rid)
    requires !f.misreport && R.Core(w.s) && LogInv(w.s, q) && Path(f, w, steps, end)
    ensures LogInv(end.s, q)
    decreases |steps|
  {
    hide R.Core, LogInv, After, CanStep;
    if steps != [] {
      StepKeepsCore(f, w, steps[0]);
      StepTells(f, w, steps[0], q);
      PathTells(f, After(f, w, steps[0]), steps[1..], end, q);
    }
  }

  // ---------------------------------------------------------------- what was acknowledged

  /** As long as no line is lost, what was acknowledged is in the registry and in the log. */
  ghost predicate UseInv(w: World) {
    && !w.torn && UsedOnce(w)
    && (forall r | r in w.s.writing && w.s.writing[r].landed :: Told(w.s, r) == Some(w.s.writing[r].req))
    && (forall u | u in w.uses :: IsConsumed(R.Lookup(w.s.reqs, u.r)) && IsConsumed(Told(w.s, u.r)))
  }

  lemma LandUses(f: Faults, w: World, r: Rid)
    requires CanStep(f, w, Usual(R.Land(r))) && UseInv(w) && !IsConsumed(R.Lookup(w.s.reqs, r))
    ensures UseInv(After(f, w, Usual(R.Land(r))))
  {
    hide R.Fold, R.Uses;
    R.FoldSnoc(w.s.log, R.Line(r, w.s.writing[r].req), r);
    assert w.uses + [] == w.uses;
  }

  lemma SettleUses(f: Faults, w: World, r: Rid)
    requires CanStep(f, w, Usual(R.Settle(r))) && UseInv(w) && !IsConsumed(R.Lookup(w.s.reqs, r))
    requires w.s.writing[r].why.Attaching? ==> w.s.writing[r].req.state.Consumed?
    ensures UseInv(After(f, w, Usual(R.Settle(r))))
  {
    hide R.Fold, R.Uses, R.Settled;
    assert w.uses + [] == w.uses;
  }

  lemma MisreportUses(f: Faults, w: World, r: Rid)
    requires CanStep(f, w, Misreport(r)) && UseInv(w)
    ensures UseInv(After(f, w, Misreport(r)))
  {
    hide R.Fold, R.Uses, R.Settled;
  }

  lemma RestartUses(f: Faults, w: World)
    requires UseInv(w)
    ensures UseInv(After(f, w, Usual(R.Restart)))
  {
    hide R.Fold;
    assert w.uses + [] == w.uses;
  }

  lemma StartUses(w: World, t: R.State)
    requires R.Started(w.s, t) && UseInv(w)
    ensures UseInv(World(t, w.torn, w.uses))
  {
    hide R.Fold;
  }

  lemma StepUses(f: Faults, w: World, step: Step)
    requires !f.tear && !f.forget && R.Core(w.s) && CanStep(f, w, step) && UseInv(w)
    ensures UseInv(After(f, w, step))
  {
    hide R.Core, UseInv, R.Settled, R.Started;
    match step
    case Usual(a) =>
      if a.Land? {
        WrittenNotConsumed(w.s, a.r);
        LandUses(f, w, a.r);
      } else if a.Settle? {
        WrittenNotConsumed(w.s, a.r);
        SettleUses(f, w, a.r);
      } else if a.Restart? {
        RestartUses(f, w);
      } else {
        R.StepStarts(w.s, a);
        StartUses(w, R.Advance(w.s, a));
        assert w.uses + [] == w.uses && After(f, w, step) == World(R.Advance(w.s, a), w.torn, w.uses);
      }
    case Misreport(r) => MisreportUses(f, w, r);
    case _ =>
  }

  lemma {:induction false} PathUses(f: Faults, w: World, steps: seq<Step>, end: World)
    requires !f.tear && !f.forget && R.Core(w.s) && UseInv(w) && Path(f, w, steps, end)
    ensures UseInv(end)
    decreases |steps|
  {
    hide R.Core, UseInv, After, CanStep;
    if steps != [] {
      StepKeepsCore(f, w, steps[0]);
      StepUses(f, w, steps[0]);
      PathUses(f, After(f, w, steps[0]), steps[1..], end);
    }
  }

  // ---------------------------------------------------------------- two runs

  lemma {:induction false} PathSnoc(f: Faults, w: World, steps: seq<Step>, mid: World, step: Step)
    requires Path(f, w, steps, mid) && CanStep(f, mid, step)
    ensures Path(f, w, steps + [step], After(f, mid, step))
    decreases |steps|
  {
    hide CanStep, After;
    if steps != [] {
      assert (steps + [step])[1..] == steps[1..] + [step];
      PathSnoc(f, After(f, w, steps[0]), steps[1..], mid, step);
    }
  }

  lemma Go(f: Faults, w: World, step: Step) returns (v: World)
    requires Reachable(f, w) && CanStep(f, w, step)
    ensures v == After(f, w, step) && Reachable(f, v)
  {
    hide CanStep, After;
    v := After(f, w, step);
    var steps :| Path(f, START, steps, w);
    PathSnoc(f, START, steps, w, step);
  }

  /** A run without faults is one of these. */
  lemma {:induction false} Lifted(f: Faults, w: World, acts: seq<R.Action>, end: R.State) returns (v: World)
    requires Reachable(f, w) && !w.torn && R.Path(w.s, acts, end)
    ensures Reachable(f, v) && !v.torn && v.s == end
    decreases |acts|
  {
    hide Reachable, R.CanAct, R.Advance, UsesBy;
    if acts == [] {
      v := w;
    } else {
      v := Go(f, w, Usual(acts[0]));
      v := Lifted(f, v, acts[1..], end);
    }
  }

  /** One requisition, approved; nothing else is going on. */
  ghost predicate Quiet(s: R.State, r: Rid) {
    && s.reqs == map[r := R.Requisition(R.Approved, Some(0), None)]
    && s.reserved == {} && s.writing == map[] && s.claimed == map[] && s.commits == map[]
  }

  lemma QuietRun(f: Faults, r: Rid) returns (w: World)
    ensures Reachable(f, w) && !w.torn && Quiet(w.s, r) && R.Fold(w.s.log) == w.s.reqs && w.s.attempts == map[]
  {
    var s := R.ApprovedRun(r, 0);
    R.IdleLogIsRegistry(s);
    var acts :| R.Path(R.Boot([]), acts, s);
    assert Path(f, START, [], START);
    w := Lifted(f, START, acts, s);
  }

  /** The append that uses it up for `x` is out. */
  ghost predicate Attaching(s: R.State, r: Rid, x: Sid) {
    && s.reqs == map[r := R.Requisition(R.Approved, Some(0), None)] && s.reserved == {r}
    && s.writing == map[r := R.Write(R.Requisition(R.Consumed, Some(0), Some(x)), R.Why.Attaching(x), false)]
    && s.claimed == map[x := r] && s.commits == map[x := R.AtStore]
    && x in s.attempts && s.attempts[x] == A.Attempt(A.Committing, A.Promise.Settled(true), A.Running, false, 0)
  }

  lemma Commits(f: Faults, w0: World, r: Rid, x: Sid) returns (w: World)
    requires Reachable(f, w0) && Quiet(w0.s, r) && x !in w0.s.attempts
    ensures Reachable(f, w) && Attaching(w.s, r, x) && w.s.log == w0.s.log && w.torn == w0.torn && w.uses == w0.uses
    ensures w.s.attempts.Keys == w0.s.attempts.Keys + {x}
  {
    hide Reachable, R.Fold;
    w := Go(f, w0, Usual(R.Prepare(x, Some(r))));
    w := Go(f, w, Usual(R.PrepareThen(x)));
    w := Go(f, w, Usual(R.Commit(x)));
  }

  /** The log tells of two sessions: the first append's line is there, but its attempt was told
      of a failure and freed the requisition. */
  lemma MisreportTellsTwo(f: Faults) returns (w: World)
    requires f.misreport
    ensures Reachable(f, w) && !ToldOnce(w)
  {
    hide Reachable;
    w := QuietRun(f, 0);
    w := Commits(f, w, 0, 1);
    w := Misreported(f, w, 0, 1);
    ghost var before := w.s.log;
    w := Commits(f, w, 0, 2);
    w := LandNow(f, w, 0);
    R.FoldSnoc(before, w.s.log[|w.s.log| - 1], 0);
    assert |R.Uses(w.s.log, 0)| >= 2;
  }

  lemma LandNow(f: Faults, w0: World, r: Rid) returns (w: World)
    requires Reachable(f, w0) && r in w0.s.writing && !w0.s.writing[r].landed && !w0.torn
    ensures Reachable(f, w) && w.s.log == w0.s.log + [R.Line(r, w0.s.writing[r].req)]
  {
    hide Reachable;
    w := Go(f, w0, Usual(R.Land(r)));
  }

  lemma Misreported(f: Faults, w0: World, r: Rid, x: Sid) returns (w: World)
    requires f.misreport && Reachable(f, w0) && Attaching(w0.s, r, x) && !w0.torn
    ensures Reachable(f, w) && Quiet(w.s, r) && !w.torn && |R.Uses(w.s.log, r)| >= 1
    ensures w.s.attempts.Keys == w0.s.attempts.Keys
  {
    hide Reachable, R.Fold, R.Uses;
    w := Go(f, w0, Usual(R.Land(r)));
    R.FoldSnoc(w0.s.log, R.Line(r, w0.s.writing[r].req), r);
    w := Go(f, w, Misreport(r));
    w := Go(f, w, Usual(R.HostThen(x)));
    w := Go(f, w, Usual(R.CommitThen(x)));
  }

  /** A line joined to a fragment is lost, and after a restart its requisition is used again. */
  lemma TearUsesTwice(f: Faults) returns (w: World)
    requires f.tear
    ensures Reachable(f, w) && !UsedOnce(w)
  {
    hide Reachable;
    w := TornRun(f, 0);
    w := Commits(f, w, 0, 1);
    w := Lost(f, w, 0, 1);
    ghost var n := |w.uses|;
    w := Commits(f, w, 0, 2);
    w := Acknowledged(f, w, 0, 2);
    assert w.uses[n - 1].r == 0 && w.uses[n].r == 0;
  }

  /** Another requisition's append is cut short by a crash. */
  lemma TornRun(f: Faults, r: Rid) returns (w: World)
    requires f.tear
    ensures Reachable(f, w) && w.torn && Quiet(w.s, r) && R.Fold(w.s.log) == w.s.reqs && w.s.attempts == map[]
  {
    hide Reachable, R.Fold;
    w := QuietRun(f, r);
    w := Go(f, w, Usual(R.Raise(r + 1)));
    w := Go(f, w, Tear(r + 1, true));
  }

  lemma Lost(f: Faults, w0: World, r: Rid, x: Sid) returns (w: World)
    requires Reachable(f, w0) && Attaching(w0.s, r, x) && w0.torn && R.Fold(w0.s.log) == w0.s.reqs
    ensures Reachable(f, w) && Quiet(w.s, r) && !w.torn && w.s.attempts == map[]
    ensures w.uses == w0.uses + [Use(r, x)]
  {
    hide Reachable, R.Fold;
    w := Go(f, w0, Usual(R.Land(r)));
    w := Go(f, w, Usual(R.Settle(r)));
    w := Go(f, w, Usual(R.Restart));
  }

  lemma Acknowledged(f: Faults, w0: World, r: Rid, x: Sid) returns (w: World)
    requires Reachable(f, w0) && Attaching(w0.s, r, x) && !w0.torn
    ensures Reachable(f, w) && w.uses == w0.uses + [Use(r, x)] && w0.s.log <= w.s.log
  {
    hide Reachable, R.Fold;
    w := Go(f, w0, Usual(R.Land(r)));
    w := Go(f, w, Usual(R.Settle(r)));
  }

  /** An acknowledged line is lost with the machine, and its requisition is used again. */
  lemma ForgetUsesTwice(f: Faults) returns (w: World)
    requires f.forget
    ensures Reachable(f, w) && !UsedOnce(w)
  {
    hide Reachable;
    w := QuietRun(f, 0);
    w := Commits(f, w, 0, 1);
    w := Forgotten(f, w, 0, 1);
    ghost var n := |w.uses|;
    w := Commits(f, w, 0, 2);
    w := Acknowledged(f, w, 0, 2);
    assert w.uses[n - 1].r == 0 && w.uses[n].r == 0;
  }

  lemma Forgotten(f: Faults, w0: World, r: Rid, x: Sid) returns (w: World)
    requires f.forget && Reachable(f, w0) && Attaching(w0.s, r, x) && !w0.torn && R.Fold(w0.s.log) == w0.s.reqs
    ensures Reachable(f, w) && Quiet(w.s, r) && !w.torn && w.s.attempts == map[]
    ensures w.uses == w0.uses + [Use(r, x)]
  {
    hide Reachable, R.Fold;
    w := Acknowledged(f, w0, r, x);
    assert w.s.log[..|w0.s.log|] == w0.s.log;
    w := Go(f, w, Forget(|w0.s.log|, false));
  }

  // ---------------------------------------------------------------- the main results

  /** Over every interleaving, failure, crash and restart, a requisition is used up for at most
      one session if and only if no append is cut short within its line and no line that was
      acknowledged is lost. */
  lemma UsedOnceExactly(f: Faults)
    ensures (forall w | Reachable(f, w) :: UsedOnce(w)) <==> !f.tear && !f.forget
  {
    if f.tear {
      var w := TearUsesTwice(f);
    } else if f.forget {
      var w := ForgetUsesTwice(f);
    } else {
      forall w | Reachable(f, w) ensures UsedOnce(w) {
        var steps :| Path(f, START, steps, w);
        R.BootKeeps([]);
        PathUses(f, START, steps, w);
      }
    }
  }

  /** Whatever is torn or lost, the log tells of at most one session for each requisition if and
      only if no append whose line has landed reports failure. */
  lemma ToldOnceExactly(f: Faults)
    ensures (forall w | Reachable(f, w) :: ToldOnce(w)) <==> !f.misreport
  {
    if f.misreport {
      var w := MisreportTellsTwo(f);
    } else {
      forall w | Reachable(f, w) ensures ToldOnce(w) {
        var steps :| Path(f, START, steps, w);
        R.BootKeeps([]);
        forall r ensures |R.Uses(w.s.log, r)| <= 1 { PathTells(f, START, steps, w, r); }
      }
    }
  }
}
