/**
What becomes of a decision on a requisition (`decide` in `src/records/index.ts`), over whole runs
with failed appends, crashes and restarts: whoever is approved, rejected or used up was so because
an operator's decision, accepted as it was asked, says so.
*/
module RequisitionDecisions {
  import opened Common
  import CreateAttempts
  import opened Requisitions

  /** A decision as an operator asked for it. */
  datatype Asked = Asked(id: Rid, who: Who, approve: bool)

  /** A decision is accepted while the requisition is open and no other one is being recorded. */
  predicate Accepts(s: State, a: Action) {
    a.Decide? && a.r in s.reqs && s.reqs[a.r].state.Open? && a.r !in s.deciding
  }

  function Heard(s: State, a: Action): seq<Asked> {
    if Accepts(s, a) then [Asked(a.r, a.who, a.approve)] else []
  }

  /** The decisions accepted in a run, as they were asked. */
  ghost function Accepted(s: State, acts: seq<Action>, end: State): seq<Asked>
    requires Path(s, acts, end)
    decreases |acts|
  {
    if acts == [] then [] else Heard(s, acts[0]) + Accepted(Advance(s, acts[0]), acts[1..], end)
  }

  // ---------------------------------------------------------------- what every run keeps

  /** A requisition's state and who decided it, as some accepted decision put it. */
  ghost predicate Backed(done: seq<Asked>, r: Rid, q: Requisition) {
    match q.state
    case Open => q.decidedBy.None?
    case Rejected => q.decidedBy.Some? && Asked(r, q.decidedBy.value, false) in done
    case _ => q.decidedBy.Some? && Asked(r, q.decidedBy.value, true) in done
  }

  ghost predicate LogBacked(log: seq<Line>, done: seq<Asked>) {
    forall l | l in log :: Backed(done, l.id, l.req)
  }

  ghost predicate AllBacked(s: State, done: seq<Asked>) {
    && (forall r | r in s.reqs :: Backed(done, r, s.reqs[r]))
    && (forall r | r in s.writing :: Backed(done, r, s.writing[r].req))
    && LogBacked(s.log, done)
  }

  lemma {:induction false} FoldBacked(log: seq<Line>, done: seq<Asked>)
    requires LogBacked(log, done)
    ensures forall r | r in Fold(log) :: Backed(done, r, Fold(log)[r])
  {
    if log != [] { FoldBacked(log[..|log| - 1], done); }
  }

  lemma BackedGrows(s: State, done: seq<Asked>, more: seq<Asked>)
    requires AllBacked(s, done)
    ensures AllBacked(s, done + more)
  {
  }

  /** What a step has appended to the log next. */
  ghost predicate Starts(s: State, a: Action, r: Rid, q: Requisition) {
    match a
    case Raise(x) => r == x && q == Requisition(Open, None, None)
    case Decide(x, who, approve) =>
      r == x && Accepts(s, a) && q.decidedBy == Some(who) && q.state == if approve then Approved else Rejected
    case Commit(x) => r in s.reqs && s.reqs[r].state.Approved? && q == s.reqs[r].(state := Consumed, session := Some(x))
    case _ => false
  }

  lemma StepWrites(s: State, a: Action, r: Rid)
    requires Core(s) && CanAct(s, a) && r in Advance(s, a).writing
    ensures (r in s.writing && Advance(s, a).writing[r].req == s.writing[r].req) || Starts(s, a, r, Advance(s, a).writing[r].req)
  {
    if a.Commit? {
      CommitWrites(s, a.x, r);
    } else if !a.Raise? && !a.Decide? && !a.Land? && !a.Settle? && !a.Restart? {
      OthersWriteNothing(s, a);
    } else {
      hide Fold, Core;
    }
  }

  lemma OthersWriteNothing(s: State, a: Action)
    requires CanAct(s, a) && !a.Commit? && !a.Raise? && !a.Decide? && !a.Land? && !a.Settle? && !a.Restart?
    ensures Advance(s, a).writing == s.writing
  {
    hide HostAbort, HostPrepare, Attempted, AbortIfCalled, Calls, CreateAttempts.Next, Fold, AttemptOf;
  }

  /** Only what is reserved, and so approved, is ever used up. */
  lemma ClaimedIsApproved(s: State, x: CreateAttempts.Sid)
    requires Core(s) && Calls(s, x, CreateAttempts.CallCommit, CreateAttempts.RunCommit) && x in s.claimed
    ensures s.claimed[x] in s.reqs && s.reqs[s.claimed[x]].state.Approved?
  {
    AttemptFacts(s, x);
    hide Fold, CreateAttempts.Shape, Holding, Writes, Attempts;
    assert x !in s.commits;
    assert ClaimInv(s, x) && s.claimed[x] in s.reserved;
  }

  lemma CommitWrites(s: State, x: CreateAttempts.Sid, r: Rid)
    requires Core(s) && r in Advance(s, Commit(x)).writing
    ensures (r in s.writing && Advance(s, Commit(x)).writing[r].req == s.writing[r].req)
      || Starts(s, Commit(x), r, Advance(s, Commit(x)).writing[r].req)
  {
    hide Fold, Core, CreateAttempts.Next;
    if Calls(s, x, CreateAttempts.CallCommit, CreateAttempts.RunCommit) && x in s.claimed { ClaimedIsApproved(s, x); }
    hide Calls;
  }

  lemma StepBacks(s: State, done: seq<Asked>, a: Action)
    requires Core(s) && AllBacked(s, done) && CanAct(s, a)
    ensures AllBacked(Advance(s, a), done + Heard(s, a))
  {
    var t, now := Advance(s, a), done + Heard(s, a);
    BackedGrows(s, done, Heard(s, a));
    forall r | r in t.writing ensures Backed(now, r, t.writing[r].req) { StepWrites(s, a, r); }
    StepBacksLog(s, now, a);
    if a.Restart? {
      FoldBacked(s.log, now);
    } else if !a.Settle? {
      ReqsStay(s, a);
    }
    hide Backed, Heard, Fold;
  }

  lemma StepBacksLog(s: State, now: seq<Asked>, a: Action)
    requires AllBacked(s, now) && CanAct(s, a)
    ensures LogBacked(Advance(s, a).log, now)
  {
    if !a.Land? { LogStays(s, a); }
    hide Backed;
  }

  lemma LogStays(s: State, a: Action)
    requires CanAct(s, a) && !a.Land?
    ensures Advance(s, a).log == s.log
  {
    hide CreateAttempts.Next, Calls, Fold, AttemptOf;
  }

  lemma {:induction false} PathBacks(s: State, done: seq<Asked>, acts: seq<Action>, end: State)
    requires Core(s) && AllBacked(s, done) && Path(s, acts, end)
    ensures Core(end) && AllBacked(end, done + Accepted(s, acts, end))
    decreases |acts|
  {
    hide Core, Advance, CanAct, AllBacked, Heard;
    if acts == [] {
      assert done + [] == done;
    } else {
      var a := acts[0];
      StepKeepsCore(s, a);
      StepBacks(s, done, a);
      PathBacks(Advance(s, a), done + Heard(s, a), acts[1..], end);
      assert done + Heard(s, a) + Accepted(Advance(s, a), acts[1..], end) == done + Accepted(s, acts, end);
    }
  }

  // ---------------------------------------------------------------- results

  /** A requisition that is approved or used up was approved by the operator it names, one that is
      rejected was rejected by the operator it names, and an open one names nobody; so does every
      line of the log. Only approved ones are ever claimed or reserved. */
  lemma DecidedAsAsked(acts: seq<Action>, s: State)
    requires Path(Boot([]), acts, s)
    ensures forall r | r in s.reqs :: Backed(Accepted(Boot([]), acts, s), r, s.reqs[r])
    ensures forall l | l in s.log :: Backed(Accepted(Boot([]), acts, s), l.id, l.req)
    ensures forall x | x in s.claimed ::
      s.claimed[x] in s.reqs && exists who :: Asked(s.claimed[x], who, true) in Accepted(Boot([]), acts, s)
    ensures forall r | r in s.reserved || CanClaim(s, r) ::
      r in s.reqs && exists who :: Asked(r, who, true) in Accepted(Boot([]), acts, s)
  {
    BootKeeps([]);
    PathBacks(Boot([]), [], acts, s);
    var done := Accepted(Boot([]), acts, s);
    assert [] + done == done;
    forall r | r in s.reqs && (s.reqs[r].state.Approved? || s.reqs[r].state.Consumed?)
      ensures exists who :: Asked(r, who, true) in done
    {
      assert Asked(r, s.reqs[r].decidedBy.value, true) in done;
    }
    forall x | x in s.claimed
      ensures s.claimed[x] in s.reqs && (s.reqs[s.claimed[x]].state.Approved? || s.reqs[s.claimed[x]].state.Consumed?)
    {
      assert ClaimInv(s, x);
    }
  }

  /** A rejected requisition stays rejected, by the same operator, and no session ever claims it. */
  lemma RejectedForGood(s: State, acts: seq<Action>, end: State, r: Rid)
    requires Reachable(s) && Path(s, acts, end) && r in s.reqs && s.reqs[r].state.Rejected?
    ensures r in end.reqs && end.reqs[r] == s.reqs[r]
    ensures !CanClaim(end, r) && r !in end.reserved && !Owned(end, r)
  {
    ReachableInv(s);
    RejectedThrough(s, acts, end, r);
  }

  lemma {:induction false} RejectedThrough(s: State, acts: seq<Action>, end: State, r: Rid)
    requires Inv(s) && Path(s, acts, end) && r in s.reqs && s.reqs[r].state.Rejected?
    ensures r in end.reqs && end.reqs[r] == s.reqs[r]
    ensures !CanClaim(end, r) && r !in end.reserved && !Owned(end, r)
    decreases |acts|
  {
    hide Fold, CreateAttempts.Shape, Holding, Attempts, Used;
    assert forall x | x in s.claimed :: ClaimInv(s, x);
    if acts != [] {
      StepKeepsInv(s, acts[0]);
      RejectedStays(s, acts[0], r);
      RejectedThrough(Advance(s, acts[0]), acts[1..], end, r);
    }
  }

  lemma RejectedStays(s: State, a: Action, r: Rid)
    requires Inv(s) && CanAct(s, a) && r in s.reqs && s.reqs[r].state.Rejected?
    ensures r in Advance(s, a).reqs && Advance(s, a).reqs[r] == s.reqs[r]
  {
    NothingOut(s, r);
    assert Lookup(Fold(s.log), r) == Latest(s, r);
    if !a.Settle? && !a.Restart? { ReqsStay(s, a); }
    hide Fold, Inv;
  }

  lemma NothingOut(s: State, r: Rid)
    requires Core(s) && r in s.reqs && s.reqs[r].state.Rejected?
    ensures r !in s.writing
  {
    if r in s.writing { SettleMoves(s, r); }
    assert r in s.writing ==> WriteInv(s, r);
    assert forall x | x in s.claimed :: ClaimInv(s, x);
    hide Fold, CreateAttempts.Shape, Attempts;
  }

  /** And an accepted decision takes effect as it was asked, once its append has gone through:
      approved if it approved, rejected if not, in the name of who asked. */
  lemma DecisionTakes(s: State, r: Rid, who: Who, approve: bool) returns (acts: seq<Action>, end: State)
    requires Core(s) && Accepts(s, Decide(r, who, approve))
    ensures Path(s, acts, end)
    ensures end.reqs == s.reqs[r := s.reqs[r].(state := if approve then Approved else Rejected, decidedBy := Some(who))]
    ensures CanClaim(end, r) <==> approve
  {
    hide Fold;
    acts := [Decide(r, who, approve), Land(r), Settle(r)];
    var one := Advance(s, acts[0]);
    var two := Advance(one, acts[1]);
    end := Advance(two, acts[2]);
    assert acts[1..] == [acts[1], acts[2]] && acts[1..][1..] == [acts[2]] && [acts[2]][1..] == [];
    assert Path(two, [acts[2]], end);
    assert Path(one, acts[1..], end);
  }
}
