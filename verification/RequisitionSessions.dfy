/**
What a session owes to the requisition it was asked for (`src/session-manager/index.ts`), over whole
runs: a create that names a requisition comes through only by using that one up, one that names none
comes through without, and one that is aborted gives back what it had claimed.
*/
module RequisitionSessions {
  import opened Common
  import CA = CreateAttempts
  import opened Requisitions

  /** The step starts the preparation of an attempt. */
  predicate Begins(s: State, a: Action) {
    a.Prepare? && Calls(s, a.x, CA.CallPrepare, CA.RunPrepare)
  }

  function Noted(s: State, orders: map<CA.Sid, Option<Rid>>, a: Action): map<CA.Sid, Option<Rid>> {
    if a.Restart? then map[] else if Begins(s, a) then orders[a.x := a.data] else orders
  }

  /** What the attempts of this process were asked for: the data of the call that started each. */
  ghost function Orders(s: State, orders: map<CA.Sid, Option<Rid>>, acts: seq<Action>, end: State): map<CA.Sid, Option<Rid>>
    requires Path(s, acts, end)
    decreases |acts|
  {
    if acts == [] then orders else Orders(Advance(s, acts[0]), Noted(s, orders, acts[0]), acts[1..], end)
  }

  // ---------------------------------------------------------------- what every run keeps

  /** The requisition has been used up by this session. */
  ghost predicate Got(s: State, x: CA.Sid, r: Rid) {
    r in s.reqs && s.reqs[r].state.Consumed? && s.reqs[r].session == Some(x)
  }

  ghost predicate Succeeds(s: State, x: CA.Sid) {
    x in s.commits && (s.commits[x] == Answered(true) || s.commits[x] == Returned(true))
  }

  /** An attempt asked to use up `r` holds it until it has used it up or has failed. */
  ghost predicate Served(s: State, x: CA.Sid, r: Rid) {
    && x in s.attempts && x in s.prepared && !s.attempts[x].preparation.Never?
    && var a := s.attempts[x];
    if !s.prepared[x] then
      a.preparation != CA.Settled(true) && x !in s.claimed && (a.state.New? || a.state.Aborted?)
    else
      && (Holding(a) && !(x in s.commits && s.commits[x] == Returned(true)) ==> x in s.claimed && s.claimed[x] == r)
      && (Succeeds(s, x) || a.state.Committed? ==> Got(s, x, r))
  }

  /** An attempt asked for no requisition claims none, and nothing stands in its way. */
  ghost predicate Plain(s: State, x: CA.Sid) {
    && x in s.attempts && x in s.prepared && s.prepared[x] && !s.attempts[x].preparation.Never?
    && x !in s.claimed && (x in s.commits ==> s.commits[x] == Returned(true))
  }

  ghost predicate AsOrdered(s: State, orders: map<CA.Sid, Option<Rid>>) {
    && (forall x | x in s.attempts && !s.attempts[x].preparation.Never? :: x in orders)
    && forall x | x in orders :: if orders[x].Some? then Served(s, x, orders[x].value) else Plain(s, x)
  }

  lemma GotStays(s: State, a: Action, x: CA.Sid, r: Rid)
    requires Core(s) && CanAct(s, a) && !a.Restart? && Got(s, x, r)
    ensures Got(Advance(s, a), x, r)
  {
    if a.Settle? {
      hide Fold, CA.Shape, Attempts, Holding;
      assert r in s.writing ==> WriteInv(s, r);
      assert forall y | y in s.claimed :: ClaimInv(s, y);
    } else {
      ReqsStay(s, a);
      hide Advance, CanAct, Core;
    }
  }

  /** The attempt the step is about, if it is about one. */
  predicate About(s: State, a: Action, x: CA.Sid) {
    match a
    case Settle(r) => r in s.writing && s.writing[r].why == Attaching(x)
    case Raise(_) => false
    case Decide(_, _, _) => false
    case Land(_) => false
    case Restart => true
    case _ => a.x == x
  }

  function At<V>(m: map<CA.Sid, V>, x: CA.Sid): Option<V> {
    if x in m then Some(m[x]) else None
  }

  predicate Same(s: State, t: State, x: CA.Sid) {
    && At(t.attempts, x) == At(s.attempts, x) && At(t.prepared, x) == At(s.prepared, x)
    && At(t.commits, x) == At(s.commits, x) && At(t.claimed, x) == At(s.claimed, x)
  }

  /** One attempt takes a step, and its effect one of the host's. */
  lemma AttemptedElsewhere(s: State, y: CA.Sid, act: CA.Act, x: CA.Sid)
    requires CA.Enabled(AttemptOf(s, y), act)
    ensures x != y ==> Same(s, Attempted(s, y, act), x)
    ensures Attempted(s, y, act).attempts == s.attempts[y := CA.Next(AttemptOf(s, y), act).0]
  {
    hide CA.Next, AttemptOf;
  }

  lemma HostPrepareElsewhere(s: State, y: CA.Sid, data: Option<Rid>, x: CA.Sid)
    ensures x != y ==> Same(s, HostPrepare(s, y, data), x)
    ensures HostPrepare(s, y, data).attempts == s.attempts
  {
    hide CanClaim;
  }

  lemma HostCommitFrame(s: State, y: CA.Sid)
    ensures var t := HostCommit(s, y);
      y in t.commits && t == s.(commits := s.commits[y := t.commits[y]], writing := t.writing)
  {
  }

  lemma HostCommitElsewhere(s: State, y: CA.Sid, x: CA.Sid)
    ensures x != y ==> Same(s, HostCommit(s, y), x)
    ensures HostCommit(s, y).attempts == s.attempts
  {
    HostCommitFrame(s, y);
    hide HostCommit;
  }

  lemma HostAbortElsewhere(s: State, y: CA.Sid, x: CA.Sid)
    ensures x != y ==> Same(s, HostAbort(s, y), x)
    ensures HostAbort(s, y).attempts == s.attempts
  {
  }

  lemma AbortsElsewhere(s: State, y: CA.Sid, act: CA.Act, x: CA.Sid)
    requires CA.Enabled(AttemptOf(s, y), act)
    ensures x != y ==> Same(s, AbortIfCalled(s, y, act), x)
    ensures AbortIfCalled(s, y, act).attempts == s.attempts[y := CA.Next(AttemptOf(s, y), act).0]
  {
    var t := Attempted(s, y, act);
    AttemptedElsewhere(s, y, act, x);
    HostAbortElsewhere(t, y, x);
    hide Attempted, HostAbort, CA.Next, Calls, AttemptOf;
  }

  lemma StepElsewhere(s: State, a: Action, x: CA.Sid)
    requires CanAct(s, a) && ByAttempt(a)
    ensures a.x != x ==> Same(s, Advance(s, a), x)
    ensures Advance(s, a).attempts == s.attempts[a.x := CA.Next(AttemptOf(s, a.x), Does(s, a)).0]
  {
    var y, act := a.x, Does(s, a);
    var t := Attempted(s, y, act);
    if a.Prepare? || a.Commit? {
      AttemptedElsewhere(s, y, act, x);
      if a.Prepare? { HostPrepareElsewhere(t, y, a.data, x); } else { HostCommitElsewhere(t, y, x); }
    } else {
      AbortsElsewhere(s, y, act, x);
    }
    hide Attempted, HostPrepare, HostCommit, AbortIfCalled, CA.Next, Calls, AttemptOf, Fold;
  }

  lemma OthersSame(s: State, a: Action, x: CA.Sid)
    requires CanAct(s, a) && !About(s, a, x)
    ensures Same(s, Advance(s, a), x)
  {
    if ByAttempt(a) {
      StepElsewhere(s, a, x);
      hide Advance, Same;
    } else if a.Settle? {
      SettlesElsewhere(s, a.r, x);
    } else {
      hide Fold, Settled;
    }
  }

  lemma SettlesElsewhere(s: State, r: Rid, x: CA.Sid)
    requires r in s.writing && s.writing[r].why != Attaching(x)
    ensures Same(s, Settled(s, r), x)
  {
  }

  predicate ByAttempt(a: Action) {
    a.Prepare? || a.PrepareThen? || a.Commit? || a.CommitThen? || a.Abort? || a.AbortThen?
  }

  /** The step of the attempt behind a step of the host. */
  function Does(s: State, a: Action): CA.Act
    requires ByAttempt(a) && CanAct(s, a)
  {
    match a
    case Prepare(_, _) => CA.CallPrepare
    case PrepareThen(x) => CA.PrepareSettles(s.prepared[x])
    case Commit(_) => CA.CallCommit
    case CommitThen(x) => CA.CommitSettles(s.commits[x].ok)
    case Abort(_) => CA.CallAbort
    case _ => CA.AbortResumes
  }

  lemma AttemptsMove(s: State, a: Action)
    requires CanAct(s, a) && !a.Restart?
    ensures Advance(s, a).attempts ==
      if ByAttempt(a) then s.attempts[a.x := CA.Next(AttemptOf(s, a.x), Does(s, a)).0] else s.attempts
  {
    if ByAttempt(a) { StepElsewhere(s, a, a.x); } else { hide Fold; }
    hide CA.Next;
  }

  lemma PrepareServes(s: State, a: Action, x: CA.Sid, r: Rid)
    requires Core(s) && CanAct(s, a) && a.Prepare? && a.x == x
    requires if Begins(s, a) then a.data == Some(r) else Served(s, x, r)
    ensures Served(Advance(s, a), x, r)
  {
    AttemptFacts(s, x);
    hide Fold, Core, CanClaim;
  }

  lemma PrepareServesPlain(s: State, a: Action, x: CA.Sid)
    requires Core(s) && CanAct(s, a) && a.Prepare? && a.x == x
    requires if Begins(s, a) then a.data == None else Plain(s, x)
    ensures Plain(Advance(s, a), x)
  {
    AttemptFacts(s, x);
    hide Fold, Core, CanClaim;
  }

  /** Hearing that the preparation has ended. */
  lemma PreparedServes(s: State, x: CA.Sid, r: Rid)
    requires Core(s) && CanAct(s, PrepareThen(x)) && Served(s, x, r)
    ensures Served(Advance(s, PrepareThen(x)), x, r)
  {
    AttemptFacts(s, x);
    hide Fold, Core;
  }

  lemma AbortServes(s: State, x: CA.Sid, act: CA.Act, r: Rid)
    requires Core(s) && CA.Enabled(AttemptOf(s, x), act) && Served(s, x, r) && (act.CallAbort? || act.AbortResumes?)
    ensures Served(AbortIfCalled(s, x, act), x, r)
  {
    AttemptFacts(s, x);
    hide Fold, Core;
  }

  lemma AbortServesPlain(s: State, x: CA.Sid, act: CA.Act)
    requires CA.Enabled(AttemptOf(s, x), act) && Plain(s, x)
    ensures Plain(AbortIfCalled(s, x, act), x)
  {
    hide Fold;
  }

  lemma CommitServes(s: State, x: CA.Sid, r: Rid)
    requires Core(s) && Served(s, x, r)
    ensures Served(Advance(s, Commit(x)), x, r)
  {
    AttemptFacts(s, x);
    assert x in s.claimed ==> ClaimInv(s, x);
    hide Fold, Core;
  }

  lemma CommitServesPlain(s: State, x: CA.Sid)
    requires Plain(s, x)
    ensures Plain(Advance(s, Commit(x)), x)
  {
    hide Fold;
  }

  lemma SettleServes(s: State, q: Rid, x: CA.Sid, r: Rid)
    requires Core(s) && CanAct(s, Settle(q)) && s.writing[q].why == Attaching(x) && Served(s, x, r)
    ensures Served(Advance(s, Settle(q)), x, r)
  {
    assert WriteInv(s, q) && ClaimInv(s, x);
    hide Fold, Core;
  }

  lemma ThenServes(s: State, a: Action, x: CA.Sid, r: Rid)
    requires Core(s) && CanAct(s, a) && (a == HostThen(x) || a == CommitThen(x)) && Served(s, x, r)
    ensures Served(Advance(s, a), x, r)
  {
    AttemptFacts(s, x);
    assert x in s.claimed ==> ClaimInv(s, x);
    hide Fold, Core;
  }

  lemma ThenServesPlain(s: State, a: Action, x: CA.Sid)
    requires Core(s) && CanAct(s, a) && (a == HostThen(x) || a == CommitThen(x)) && Plain(s, x)
    ensures Plain(Advance(s, a), x)
  {
    hide Fold, Core;
  }

  lemma StepServes(s: State, a: Action, x: CA.Sid, r: Rid)
    requires Core(s) && CanAct(s, a) && !a.Restart?
    requires if Begins(s, a) && a.x == x then a.data == Some(r) else Served(s, x, r)
    ensures Served(Advance(s, a), x, r)
  {
    if !About(s, a, x) {
      OthersSame(s, a, x);
      if Got(s, x, r) { GotStays(s, a, x, r); }
      hide Core, Advance, CanAct, Begins, Got;
    } else {
      match a
      case Prepare(_, _) => PrepareServes(s, a, x, r);
      case PrepareThen(_) => PreparedServes(s, x, r);
      case Abort(_) => AbortServes(s, x, CA.CallAbort, r);
      case AbortThen(_) => AbortServes(s, x, CA.AbortResumes, r);
      case Commit(_) => CommitServes(s, x, r);
      case Settle(q) => SettleServes(s, q, x, r);
      case _ => ThenServes(s, a, x, r);
    }
  }

  lemma NotAttaching(s: State, x: CA.Sid)
    requires Core(s) && x !in s.claimed
    ensures forall q | q in s.writing :: s.writing[q].why != Attaching(x)
  {
    hide Fold;
    assert forall q | q in s.writing :: WriteInv(s, q);
  }

  lemma StepServesPlain(s: State, a: Action, x: CA.Sid)
    requires Core(s) && CanAct(s, a) && !a.Restart?
    requires if Begins(s, a) && a.x == x then a.data == None else Plain(s, x)
    ensures Plain(Advance(s, a), x)
  {
    if !(Begins(s, a) && a.x == x) { NotAttaching(s, x); }
    if !About(s, a, x) {
      OthersSame(s, a, x);
      hide Core, Advance, CanAct, Begins;
    } else {
      match a
      case Prepare(_, _) => PrepareServesPlain(s, a, x);
      case PrepareThen(_) => AbortServesPlain(s, x, CA.PrepareSettles(s.prepared[x]));
      case Abort(_) => AbortServesPlain(s, x, CA.CallAbort);
      case AbortThen(_) => AbortServesPlain(s, x, CA.AbortResumes);
      case Commit(_) => CommitServesPlain(s, x);
      case Settle(_) =>
      case _ => ThenServesPlain(s, a, x);
    }
  }

  /** An attempt is prepared only by a step that starts it. */
  lemma BegunIsNoted(s: State, a: Action, x: CA.Sid)
    requires CanAct(s, a) && !a.Restart? && x in Advance(s, a).attempts && !Advance(s, a).attempts[x].preparation.Never?
    ensures (x in s.attempts && !s.attempts[x].preparation.Never?) || (Begins(s, a) && a.x == x)
  {
    AttemptsMove(s, a);
    hide Advance;
  }

  lemma StepAsOrdered(s: State, orders: map<CA.Sid, Option<Rid>>, a: Action)
    requires Core(s) && AsOrdered(s, orders) && CanAct(s, a)
    ensures AsOrdered(Advance(s, a), Noted(s, orders, a))
  {
    if !a.Restart? {
      var t, now := Advance(s, a), Noted(s, orders, a);
      hide Core, Advance, CanAct, Served, Plain;
      forall x | x in t.attempts && !t.attempts[x].preparation.Never? ensures x in now { BegunIsNoted(s, a, x); }
      forall x | x in now ensures if now[x].Some? then Served(t, x, now[x].value) else Plain(t, x) {
        if now[x].Some? { StepServes(s, a, x, now[x].value); } else { StepServesPlain(s, a, x); }
      }
    }
  }

  lemma {:induction false} PathAsOrdered(s: State, orders: map<CA.Sid, Option<Rid>>, acts: seq<Action>, end: State)
    requires Core(s) && AsOrdered(s, orders) && Path(s, acts, end)
    ensures Core(end) && AsOrdered(end, Orders(s, orders, acts, end))
    decreases |acts|
  {
    hide Core, Advance, CanAct, AsOrdered, Noted;
    if acts != [] {
      StepKeepsCore(s, acts[0]);
      StepAsOrdered(s, orders, acts[0]);
      PathAsOrdered(Advance(s, acts[0]), Noted(s, orders, acts[0]), acts[1..], end);
    }
  }

  // ---------------------------------------------------------------- results

  /** A session that has been created for a requisition has used up that very one, in its own name;
      while its create is under way it holds it, from the moment its claim was granted. */
  lemma CreatedOnItsRequisition(acts: seq<Action>, s: State, x: CA.Sid, r: Rid)
    requires Path(Boot([]), acts, s)
    requires x in Orders(Boot([]), map[], acts, s) && Orders(Boot([]), map[], acts, s)[x] == Some(r)
    ensures x in s.attempts
    ensures s.attempts[x].state.Committed? ==> Got(s, x, r)
    ensures s.attempts[x].state.Prepared? ==> x in s.claimed && s.claimed[x] == r && r in s.reserved
    ensures s.attempts[x].state.Aborted? ==> x !in s.claimed
  {
    BootKeeps([]);
    PathAsOrdered(Boot([]), map[], acts, s);
    AttemptFacts(s, x);
    assert x in s.claimed ==> ClaimInv(s, x);
    assert x in s.commits ==> CommitInv(s, x);
    hide Fold;
  }

  /** A create that names no requisition claims none. */
  lemma CreatedWithout(acts: seq<Action>, s: State, x: CA.Sid)
    requires Path(Boot([]), acts, s)
    requires x in Orders(Boot([]), map[], acts, s) && Orders(Boot([]), map[], acts, s)[x] == None
    ensures x !in s.claimed && (x in s.commits ==> s.commits[x] == Returned(true))
  {
    BootKeeps([]);
    PathAsOrdered(Boot([]), map[], acts, s);
  }

  /** Every session that exists was asked for. */
  lemma CreatedWasAsked(acts: seq<Action>, s: State, x: CA.Sid)
    requires Path(Boot([]), acts, s) && x in s.attempts && s.attempts[x].state.Committed?
    ensures x in Orders(Boot([]), map[], acts, s)
  {
    BootKeeps([]);
    PathAsOrdered(Boot([]), map[], acts, s);
    AttemptFacts(s, x);
  }

  lemma Two(s: State, a: Action, b: Action)
    requires CanAct(s, a) && CanAct(Advance(s, a), b)
    ensures Path(s, [a, b], Advance(Advance(s, a), b))
  {
    assert [a, b][1..] == [b] && [b][1..] == [];
    assert Path(Advance(s, a), [b], Advance(Advance(s, a), b));
  }

  lemma {:induction false} Joined(s: State, a: seq<Action>, mid: State, b: seq<Action>, end: State)
    requires Path(s, a, mid) && Path(mid, b, end)
    ensures Path(s, a + b, end)
    decreases |a|
  {
    hide Advance, CanAct;
    if a == [] {
      assert a + b == b;
    } else {
      assert (a + b)[1..] == a[1..] + b;
      Joined(Advance(s, a[0]), a[1..], mid, b, end);
    }
  }

  lemma PreparesWithout(s: State, x: CA.Sid) returns (mid: State)
    requires AttemptOf(s, x) == CA.FRESH && x !in s.claimed && x !in s.commits
    ensures Path(s, [Prepare(x, None), PrepareThen(x)], mid)
    ensures mid == s.(attempts := mid.attempts, prepared := mid.prepared)
    ensures AttemptOf(mid, x) == CA.Attempt(CA.Prepared, CA.Settled(true), CA.Never, false, 0)
  {
    hide Fold;
    Two(s, Prepare(x, None), PrepareThen(x));
    mid := Advance(Advance(s, Prepare(x, None)), PrepareThen(x));
  }

  lemma CommitsWithout(s: State, x: CA.Sid) returns (end: State)
    requires AttemptOf(s, x) == CA.Attempt(CA.Prepared, CA.Settled(true), CA.Never, false, 0) && x !in s.claimed && x !in s.commits
    ensures Path(s, [Commit(x), CommitThen(x)], end)
    ensures end == s.(attempts := end.attempts) && x in end.attempts && end.attempts[x].state.Committed?
  {
    hide Fold;
    Two(s, Commit(x), CommitThen(x));
    end := Advance(Advance(s, Commit(x)), CommitThen(x));
    assert end.commits == s.commits;
  }

  /** It comes through by itself, whatever else is going on, and leaves registry, log, appends and
      all claims alone. */
  lemma CreateWithoutGoesThrough(s: State, x: CA.Sid) returns (acts: seq<Action>, end: State)
    requires AttemptOf(s, x) == CA.FRESH && x !in s.claimed && x !in s.commits
    ensures Path(s, acts, end) && x in end.attempts && end.attempts[x].state.Committed?
    ensures end == s.(attempts := end.attempts, prepared := end.prepared)
  {
    hide Advance, CanAct;
    var mid := PreparesWithout(s, x);
    end := CommitsWithout(mid, x);
    acts := [Prepare(x, None), PrepareThen(x)] + [Commit(x), CommitThen(x)];
    Joined(s, [Prepare(x, None), PrepareThen(x)], mid, [Commit(x), CommitThen(x)], end);
  }

  ghost predicate AbortsOnce(s: State) {
    forall x | x in s.attempts && s.attempts[x].aborting :: s.attempts[x].state.Aborted?
  }

  lemma {:induction false} PathAbortsOnce(s: State, acts: seq<Action>, end: State)
    requires Core(s) && AbortsOnce(s) && Path(s, acts, end)
    ensures Core(end) && AbortsOnce(end)
    decreases |acts|
  {
    if acts != [] {
      StepKeepsCore(s, acts[0]);
      StepAbortsOnce(s, acts[0]);
      hide Advance, CanAct, Core, AbortsOnce;
      PathAbortsOnce(Advance(s, acts[0]), acts[1..], end);
    }
  }

  lemma StepAbortsOnce(s: State, a: Action)
    requires Core(s) && AbortsOnce(s) && CanAct(s, a)
    ensures AbortsOnce(Advance(s, a))
  {
    if !a.Restart? {
      AttemptsMove(s, a);
      if ByAttempt(a) { AttemptFacts(s, a.x); }
      hide Advance, Core;
    }
  }

  /** Aborting a create that is not being committed gives its requisition back at once, for
      anybody to claim. */
  lemma AbortGivesBack(s: State, x: CA.Sid)
    requires Reachable(s) && x in s.claimed && x in s.attempts && !s.attempts[x].state.Committing?
    ensures CanAct(s, Abort(x))
    ensures var t := Advance(s, Abort(x)); x !in t.claimed && CanClaim(t, s.claimed[x]) && t.attempts[x].state.Aborted?
  {
    var acts :| Path(Boot([]), acts, s);
    BootKeeps([]);
    PathAbortsOnce(Boot([]), acts, s);
    hide Fold, Reachable;
    AttemptFacts(s, x);
    assert ClaimInv(s, x);
  }

  /** An `abort` that waits for the commit returns once that has ended. */
  lemma AbortReturns(s: State, x: CA.Sid)
    requires x in s.attempts && s.attempts[x].waiters > 0 && s.attempts[x].committing.Settled?
    ensures CanAct(s, AbortThen(x)) && x in Advance(s, AbortThen(x)).attempts
    ensures Advance(s, AbortThen(x)).attempts[x].waiters == s.attempts[x].waiters - 1
  {
  }
}
