/**
What the acts of a session, as `Permissions.dfy` traces them, owe to what was asked and answered:
every record, every answer to the adapter and every resolution is traced back to the calls and
notifications of the run (`src/agent-console/core/index.ts`).
*/
module PermissionDecisions {
  import opened Common
  import opened Permissions
  import StandingRules

  // ---------------------------------------------------------------- what a run explains

  /** The operator has answered the request, and the answer was accepted. */
  ghost predicate IsAnswered(done: seq<Action>, r: Req) {
    exists d, rule :: Answer(r, d, rule) in done
  }

  /** The decision was given: by the operator, with or without a rule, or by a standing rule for a
      request the operator has not answered. */
  ghost predicate Backed(done: seq<Action>, r: Req, d: Decision, scope: Scope) {
    match scope
    case Once => Answer(r, d, None) in done
    case Always(rule) => d == Allow && Answer(r, Allow, Some(rule)) in done
    case Standing(_) => d == Allow && AutoApprove(r) in done && !IsAnswered(done, r)
  }

  ghost predicate Unrecorded(done: seq<Action>, r: Req) {
    AppendDone(r, false) in done
  }

  ghost predicate Explained(done: seq<Action>, e: Effect) {
    match e
    case Requested(_, r, what) => Ask(r, what) in done
    case Audited(r, d, scope) => Backed(done, r, d, scope) && AppendDone(r, true) in done
    case RuleHeld(rule) => exists r :: Answer(r, Allow, Some(rule)) in done
    case Responded(r, d) => (d == Deny && Unrecorded(done, r)) || exists scope :: Backed(done, r, d, scope)
    case Resolved(_, r, d, why) =>
      (match why
       case Answered => exists rule :: Answer(r, d, rule) in done
       case Preapproved => Backed(done, r, d, Standing(""))
       case AuditUnavailable => d == Deny && Unrecorded(done, r)
       case Cancelled => d == Deny)
    case _ => true
  }

  /** The request has been asked and is pending nowhere any more. */
  ghost predicate Gone(s: State, r: Req) {
    (exists t :: WasRequested(s.trace, t, r)) && forall t | t in s.slots :: r !in Reqs(s.slots[t].pending)
  }

  predicate About(e: Effect, r: Req) {
    (e.Audited? || e.Responded? || e.Resolved?) && e.req == r
  }

  ghost predicate Handled(s: State, done: seq<Action>, r: Req) {
    IsAnswered(done, r) || r in s.flows || exists e :: e in s.trace && About(e, r)
  }

  ghost predicate FlowExplained(done: seq<Action>, r: Req, flow: Flow) {
    Backed(done, r, flow.decision, flow.scope) && (flow.stage.Failed? ==> Unrecorded(done, r))
  }

  /** The table of pending requests holds what was asked. */
  ghost predicate PendTrue(s: State) {
    forall t, p | t in s.slots && p in s.slots[t].pending :: Requested(t, p.req, p.what) in s.trace
  }

  /** A request is answered at most once, and with a rule only if it has a target to match. */
  ghost predicate AnswersOnce(done: seq<Action>) {
    forall i, j | 0 <= i < j < |done| && done[i].Answer? && done[j].Answer? :: done[i].r != done[j].r
  }

  ghost predicate RulesTargeted(s: State, done: seq<Action>) {
    forall r, d, rule | Answer(r, d, Some(rule)) in done ::
      d == Allow && exists t, what :: Requested(t, r, what) in s.trace && what.matchTarget.Some?
  }

  ghost predicate TraceExplained(s: State, done: seq<Action>) {
    forall e | e in s.trace :: Explained(done, e)
  }

  ghost predicate FlowsExplained(s: State, done: seq<Action>) {
    forall r | r in s.flows :: FlowExplained(done, r, s.flows[r])
  }

  ghost predicate HandledGone(s: State, done: seq<Action>) {
    forall r | Handled(s, done, r) :: Gone(s, r)
  }

  ghost predicate Explains(s: State, done: seq<Action>) {
    && Inv(s) && TraceExplained(s, done) && FlowsExplained(s, done) && HandledGone(s, done)
    && PendTrue(s) && AnswersOnce(done) && RulesTargeted(s, done)
  }

  // ---------------------------------------------------------------- one more step

  lemma AnsweredGrows(done: seq<Action>, a: Action, r: Req)
    ensures IsAnswered(done + [a], r) <==> IsAnswered(done, r) || (a.Answer? && a.r == r)
  {
    if IsAnswered(done, r) {
      var d, rule :| Answer(r, d, rule) in done;
      assert Answer(r, d, rule) in done + [a];
    }
    if a.Answer? && a.r == r { assert Answer(r, a.decision, a.rule) in done + [a]; }
  }

  lemma BackedGrows(done: seq<Action>, a: Action, r: Req, d: Decision, scope: Scope)
    requires Backed(done, r, d, scope) && !(a.Answer? && a.r == r)
    ensures Backed(done + [a], r, d, scope)
  {
    AnsweredGrows(done, a, r);
  }

  lemma ExplainedGrows(done: seq<Action>, a: Action, e: Effect)
    requires Explained(done, e) && !(a.Answer? && About(e, a.r))
    ensures Explained(done + [a], e)
  {
    match e
    case Audited(r, d, scope) => BackedGrows(done, a, r, d, scope);
    case RuleHeld(rule) =>
      var r :| Answer(r, Allow, Some(rule)) in done;
      assert Answer(r, Allow, Some(rule)) in done + [a];
    case Responded(r, d) =>
      if !(d == Deny && Unrecorded(done, r)) {
        var scope :| Backed(done, r, d, scope);
        BackedGrows(done, a, r, d, scope);
      }
    case Resolved(_, r, d, why) =>
      if why.Preapproved? { BackedGrows(done, a, r, d, Standing("")); }
      if why.Answered? {
        var rule :| Answer(r, d, rule) in done;
        assert Answer(r, d, rule) in done + [a];
      }
    case _ =>
  }

  /** Whoever can be answered has not been handled. */
  lemma PendingUnhandled(v: Vendor, s: State, done: seq<Action>, a: Action)
    requires HandledGone(s, done) && Enabled(v, s, a) && a.Answer?
    ensures !Handled(s, done, a.r)
  {
    assert !Gone(s, a.r);
  }

  lemma OldExplained(v: Vendor, s: State, done: seq<Action>, a: Action)
    requires Explains(s, done) && Enabled(v, s, a)
    ensures TraceExplained(s, done + [a]) && FlowsExplained(s, done + [a])
  {
    if a.Answer? { PendingUnhandled(v, s, done, a); }
    forall e | e in s.trace ensures Explained(done + [a], e) { ExplainedGrows(done, a, e); }
    forall r | r in s.flows ensures FlowExplained(done + [a], r, s.flows[r]) {
      assert Handled(s, done, r);
      BackedGrows(done, a, r, s.flows[r].decision, s.flows[r].scope);
    }
  }

  /** What a step traces is explained by the run up to and with that step. */
  lemma NewExplained(v: Vendor, s: State, done: seq<Action>, a: Action, more: seq<Effect>)
    requires Explains(s, done) && Enabled(v, s, a) && Next(v, s, a).trace == s.trace + more
    requires FlowsExplained(s, done + [a])
    ensures forall e | e in more :: Explained(done + [a], e)
  {
    var now := done + [a];
    assert a in now;
    if a.Continue? {
      ContinueExplained(v, s, now, a.r, a.response, more);
    } else {
      StepTraces(v, s, a);
      assert more == (s.trace + more)[|s.trace|..];
      hide Next, Enabled, Explains;
      TracingExplained(s, now, a);
    }
  }

  function Tracing(s: State, a: Action): (more: seq<Effect>)
    requires a.Ask? || a.EndTurn? ==> s.turn.Some?
    requires a.AppendDone? ==> a.r in s.flows
    requires a.Exited? && s.turn.Some? ==> s.turn.value in s.slots
  {
    match a
    case Ask(r, what) => [Requested(s.turn.value, r, what)]
    case AppendDone(r, ok) => if ok then [Audited(r, s.flows[r].decision, s.flows[r].scope)] else []
    case Exited => if s.turn.Some? then Cancellations(s.turn.value, Outstanding(s.slots[s.turn.value])) else []
    case EndTurn => [TurnEnded(s.turn.value)]
    case _ => []
  }

  lemma TracingExplained(s: State, now: seq<Action>, a: Action)
    requires (a.Ask? || a.EndTurn? ==> s.turn.Some?) && (a.Exited? && s.turn.Some? ==> s.turn.value in s.slots)
    requires a in now && (a.AppendDone? ==> a.r in s.flows && FlowExplained(now, a.r, s.flows[a.r]))
    ensures forall e | e in Tracing(s, a) :: Explained(now, e)
  {
  }

  lemma StepTraces(v: Vendor, s: State, a: Action)
    requires Enabled(v, s, a) && !a.Continue?
    ensures Next(v, s, a).trace == s.trace + Tracing(s, a)
  {
    hide FirstMatch, CanRespond, StandingRules.IsRule, StandingRules.Matches;
  }

  lemma ContinueAdds(v: Vendor, s: State, r: Req, response: Response)
    requires Enabled(v, s, Continue(r, response)) && r in s.slots[s.flows[r].turn].inFlight
    ensures var flow := s.flows[r];
      Next(v, s, Continue(r, response)).trace == s.trace
        + ((if flow.stage.Durable? && flow.scope.Always? then [RuleHeld(flow.scope.rule)] else [])
        + [Responded(r, ToldDecision(flow)), Ending(flow, r, response)])
  {
  }

  lemma ContinueExplained(v: Vendor, s: State, now: seq<Action>, r: Req, response: Response, more: seq<Effect>)
    requires Enabled(v, s, Continue(r, response)) && Next(v, s, Continue(r, response)).trace == s.trace + more
    requires FlowExplained(now, r, s.flows[r])
    ensures forall e | e in more :: Explained(now, e)
  {
    var flow := s.flows[r];
    if r !in s.slots[flow.turn].inFlight {
      assert s.trace + more == s.trace + [];
      assert more == (s.trace + more)[|s.trace|..];
    } else {
      ContinueAdds(v, s, r, response);
      assert more == (s.trace + more)[|s.trace|..];
      hide Next, Enabled;
      assert flow.stage.Durable? || flow.stage.Failed?;
      assert Explained(now, Responded(r, ToldDecision(flow)));
      assert Explained(now, Ending(flow, r, response));
    }
  }

  lemma StepExplainsTrace(v: Vendor, s: State, done: seq<Action>, a: Action)
    requires Explains(s, done) && Enabled(v, s, a)
    ensures TraceExplained(Next(v, s, a), done + [a])
  {
    OldExplained(v, s, done, a);
    var more := StepAdds(v, s, a);
    NewExplained(v, s, done, a, more);
    hide Explained, Next, Enabled;
  }

  function ScopeOf(rule: Option<string>): Scope {
    if rule.Some? then Always(rule.value) else Once
  }

  /** Where a continuation comes from. */
  ghost predicate Comes(s: State, a: Action, r: Req, flow: Flow) {
    match a
    case Answer(x, d, rule) => r == x && flow.decision == d && flow.scope == ScopeOf(rule) && flow.stage.Appending?
    case AutoApprove(x) =>
      && r == x && r in s.auto && IsPending(s, s.auto[r].0, r)
      && flow.decision == Allow && flow.scope == Standing(s.auto[r].1) && flow.stage.Appending?
    case AppendDone(x, ok) => r == x && r in s.flows && flow == s.flows[r].(stage := if ok then Durable else Failed)
    case _ => false
  }

  lemma StepFlows(v: Vendor, s: State, a: Action, r: Req)
    requires Enabled(v, s, a) && r in Next(v, s, a).flows
    ensures (r in s.flows && Next(v, s, a).flows[r] == s.flows[r]) || Comes(s, a, r, Next(v, s, a).flows[r])
  {
    hide FirstMatch, CanRespond, StandingRules.IsRule, StandingRules.Matches;
  }

  /** What a step makes of the continuations under way. */
  lemma StepExplainsFlows(v: Vendor, s: State, done: seq<Action>, a: Action)
    requires Explains(s, done) && Enabled(v, s, a)
    ensures FlowsExplained(Next(v, s, a), done + [a])
  {
    OldExplained(v, s, done, a);
    var later, now := Next(v, s, a), done + [a];
    forall r | r in later.flows ensures FlowExplained(now, r, later.flows[r]) {
      StepFlows(v, s, a, r);
      if !(r in s.flows && later.flows[r] == s.flows[r]) { CameExplained(v, s, done, a, r, later.flows[r]); }
    }
  }

  lemma CameExplained(v: Vendor, s: State, done: seq<Action>, a: Action, r: Req, flow: Flow)
    requires HandledGone(s, done) && FlowsExplained(s, done + [a]) && Enabled(v, s, a) && Comes(s, a, r, flow)
    ensures FlowExplained(done + [a], r, flow)
  {
    assert a in done + [a];
    if a.AutoApprove? {
      AnsweredGrows(done, a, r);
      AutoUnanswered(v, s, done, r);
    }
  }

  /** A request that a rule takes has not been answered by the operator. */
  lemma AutoUnanswered(v: Vendor, s: State, done: seq<Action>, r: Req)
    requires HandledGone(s, done) && Enabled(v, s, AutoApprove(r))
    ensures IsPending(s, s.auto[r].0, r) ==> !IsAnswered(done, r)
  {
    if IsPending(s, s.auto[r].0, r) {
      assert !Gone(s, r);
      assert !Handled(s, done, r);
    }
  }

  lemma StepKeepsGone(v: Vendor, s: State, a: Action, r: Req)
    requires Inv(s) && Enabled(v, s, a) && Gone(s, r)
    ensures Gone(Next(v, s, a), r)
  {
    var t :| WasRequested(s.trace, t, r);
    var more := StepAdds(v, s, a);
    RequestedGrows(s.trace, Next(v, s, a).trace, t, r);
    StepKeepsPendings(v, s, a);
    if a.Ask? { assert a.r != r by { var w :| Requested(t, r, w) in s.trace; } }
    hide Next, Enabled, Inv;
  }

  /** Pending requests only become fewer, but for one that is asked. */
  lemma StepKeepsPendings(v: Vendor, s: State, a: Action)
    requires Inv(s) && Enabled(v, s, a)
    ensures forall t, x | t in Next(v, s, a).slots && x in Reqs(Next(v, s, a).slots[t].pending) ::
      (t in s.slots && x in Reqs(s.slots[t].pending)) || (a.Ask? && x == a.r)
  {
    hide FirstMatch, StandingRules.Matches, StandingRules.IsRule, CanRespond, Lawful, Tables, LiveInv, OneTurnEach;
    match a
    case StartTurn(_) => assert Reqs([]) == [];
    case Exited => assert Reqs([]) == [];
    case Ask(r, what) =>
      var ps := s.slots[s.turn.value].pending;
      assert Reqs(ps + [Pend(r, what)]) == Reqs(ps) + [r];
    case Answer(r, _, _) => TakenFewer(s, s.turn.value, r);
    case AutoApprove(r) => if IsPending(s, s.auto[r].0, r) { TakenFewer(s, s.auto[r].0, r); }
    case _ =>
  }

  lemma TakenFewer(s: State, t: Turn, r: Req)
    requires SlotsInv(s) && t in s.slots
    ensures forall x :: x in Reqs(Taken(s.slots[t], r).pending) <==> x in Reqs(s.slots[t].pending) && x != r
  {
    assert SlotInv(s.trace, s.flows, t, s.slots[t]);
    DropSpec(s.slots[t].pending, r);
  }

  /** A request that is taken, or cancelled, is pending in no turn any more. */
  lemma OutstandingGone(s: State, later: State, t: Turn, r: Req)
    requires Inv(s) && t in s.slots && r in Outstanding(s.slots[t])
    requires s.trace <= later.trace && t in later.slots && r !in Reqs(later.slots[t].pending)
    requires forall u | u in later.slots && u != t && r in Reqs(later.slots[u].pending) :: u in s.slots && r in Reqs(s.slots[u].pending)
    ensures Gone(later, r)
  {
    assert SlotInv(s.trace, s.flows, t, s.slots[t]) && Open(s.trace, t, r);
    RequestedGrows(s.trace, later.trace, t, r);
    forall u | u in s.slots && r in Reqs(s.slots[u].pending) ensures u == t {
      assert SlotInv(s.trace, s.flows, u, s.slots[u]) && Open(s.trace, u, r);
    }
  }

  lemma StepKeepsHandled(v: Vendor, s: State, done: seq<Action>, a: Action)
    requires Explains(s, done) && Enabled(v, s, a)
    ensures HandledGone(Next(v, s, a), done + [a])
  {
    forall r | Handled(Next(v, s, a), done + [a], r) ensures Gone(Next(v, s, a), r) {
      if Handled(s, done, r) { StepKeepsGone(v, s, a, r); } else { NewlyHandled(v, s, done, a, r); }
    }
  }

  /** Whom a step's records, answers and resolutions are about. */
  lemma StepAbout(v: Vendor, s: State, a: Action, e: Effect, r: Req)
    requires Enabled(v, s, a) && e in Next(v, s, a).trace && e !in s.trace && About(e, r)
    ensures r in s.flows || (a.Exited? && s.turn.Some? && r in Outstanding(s.slots[s.turn.value]))
  {
    if !a.Continue? {
      StepTraces(v, s, a);
    } else if a.r in s.slots[s.flows[a.r].turn].inFlight {
      ContinueAdds(v, s, a.r, a.response);
      hide Next;
    }
  }

  /** Whom a step handles first was outstanding until then. */
  lemma NewlyHandled(v: Vendor, s: State, done: seq<Action>, a: Action, r: Req)
    requires Inv(s) && Enabled(v, s, a) && !Handled(s, done, r) && Handled(Next(v, s, a), done + [a], r)
    ensures Gone(Next(v, s, a), r)
  {
    var later := Next(v, s, a);
    AnsweredGrows(done, a, r);
    var more := StepAdds(v, s, a);
    forall e | e in later.trace && e !in s.trace && About(e, r)
      ensures a.Exited? && s.turn.Some? && r in Outstanding(s.slots[s.turn.value])
    {
      StepAbout(v, s, a, e, r);
    }
    if r in later.flows { StepFlows(v, s, a, r); }
    if a.Exited? {
      assert Reqs([]) == [];
      OutstandingGone(s, later, s.turn.value, r);
    } else {
      var t := if a.Answer? then s.turn.value else s.auto[r].0;
      TakenFewer(s, t, r);
      OutstandingGone(s, later, t, r);
    }
  }

  lemma {:induction false} DropKeeps(ps: seq<Pend>, r: Req)
    ensures forall p | p in Drop(ps, r) :: p in ps
    decreases |ps|
  {
    if ps != [] { DropKeeps(ps[1..], r); }
  }

  lemma StepKeepsPendTrue(v: Vendor, s: State, a: Action)
    requires PendTrue(s) && Enabled(v, s, a)
    ensures PendTrue(Next(v, s, a))
  {
    var later := Next(v, s, a);
    var more := StepAdds(v, s, a);
    if a.Answer? { DropKeeps(s.slots[s.turn.value].pending, a.r); }
    if a.AutoApprove? { DropKeeps(s.slots[s.auto[a.r].0].pending, a.r); }
    hide FirstMatch, CanRespond, StandingRules.IsRule, StandingRules.Matches;
    forall t, p | t in later.slots && p in later.slots[t].pending ensures Requested(t, p.req, p.what) in later.trace {
      if !(t in s.slots && p in s.slots[t].pending) { assert a.Ask? && p == Pend(a.r, a.what) && t == s.turn.value; }
    }
  }

  lemma {:induction false} WhatIsPending(pending: seq<Pend>, r: Req)
    requires r in Reqs(pending)
    ensures Pend(r, What(pending, r)) in pending
    decreases |pending|
  {
    if pending[0].req != r { WhatIsPending(pending[1..], r); }
  }

  lemma StepKeepsAnswers(v: Vendor, s: State, done: seq<Action>, a: Action)
    requires Explains(s, done) && Enabled(v, s, a)
    ensures AnswersOnce(done + [a]) && RulesTargeted(Next(v, s, a), done + [a])
  {
    var now, later := done + [a], Next(v, s, a);
    if a.Answer? {
      PendingUnhandled(v, s, done, a);
      WhatIsPending(s.slots[s.turn.value].pending, a.r);
    }
    var more := StepAdds(v, s, a);
    forall i | 0 <= i < |done| && done[i].Answer? ensures IsAnswered(done, done[i].r) {
      assert Answer(done[i].r, done[i].decision, done[i].rule) in done;
    }
    forall r, d, rule | Answer(r, d, Some(rule)) in now
      ensures d == Allow && exists t, what :: Requested(t, r, what) in later.trace && what.matchTarget.Some?
    {
      if Answer(r, d, Some(rule)) in done {
        var t, what :| Requested(t, r, what) in s.trace && what.matchTarget.Some?;
        assert Requested(t, r, what) in later.trace;
      } else {
        var t, what := s.turn.value, What(s.slots[s.turn.value].pending, r);
        assert Pend(r, what) in s.slots[t].pending;
        assert Requested(t, r, what) in s.trace;
        assert Requested(t, r, what) in later.trace;
      }
    }
  }

  lemma StepExplains(v: Vendor, s: State, done: seq<Action>, a: Action)
    requires Explains(s, done) && Enabled(v, s, a)
    ensures Explains(Next(v, s, a), done + [a])
  {
    StepKeepsInv(v, s, a);
    StepExplainsTrace(v, s, done, a);
    StepExplainsFlows(v, s, done, a);
    StepKeepsHandled(v, s, done, a);
    StepKeepsPendTrue(v, s, a);
    StepKeepsAnswers(v, s, done, a);
    hide Next, Enabled, Inv, TraceExplained, FlowsExplained, HandledGone, PendTrue, AnswersOnce, RulesTargeted;
  }

  lemma {:induction false} PathExplains(v: Vendor, s: State, done: seq<Action>, acts: seq<Action>, end: State)
    requires Explains(s, done) && Path(v, s, acts, end)
    ensures Explains(end, done + acts)
    decreases |acts|
  {
    hide Next, Enabled, Explains;
    if acts == [] {
      assert done + acts == done;
    } else {
      StepExplains(v, s, done, acts[0]);
      PathExplains(v, Next(v, s, acts[0]), done + [acts[0]], acts[1..], end);
      assert done + acts == done + [acts[0]] + acts[1..];
    }
  }

  // ---------------------------------------------------------------- results

  ghost predicate Run(v: Vendor, acts: seq<Action>, s: State) {
    exists init :: Init(init) && Path(v, init, acts, s)
  }

  lemma RunExplains(v: Vendor, acts: seq<Action>, s: State)
    requires Run(v, acts, s)
    ensures Explains(s, acts)
  {
    var init :| Init(init) && Path(v, init, acts, s);
    assert [] + acts == acts;
    PathExplains(v, init, [], acts, s);
  }

  /** No tool runs unless it was allowed: whenever an allow has been told to the adapter, or a
      request has been resolved as allowed, the operator has answered that request with an allow,
      or a standing rule took it and the operator has not answered it at all. */
  lemma AllowIsDecided(v: Vendor, acts: seq<Action>, s: State, r: Req)
    requires Run(v, acts, s)
    requires Responded(r, Allow) in s.trace || exists t, why :: Resolved(t, r, Allow, why) in s.trace
    ensures (exists rule :: Answer(r, Allow, rule) in acts) || (AutoApprove(r) in acts && !IsAnswered(acts, r))
  {
    RunExplains(v, acts, s);
    var e :| e in s.trace && (e == Responded(r, Allow) || (e.Resolved? && e.req == r && e.decision == Allow));
    assert Explained(acts, e);
    if e.Responded? {
      var scope :| Backed(acts, r, Allow, scope);
    }
  }

  /** What the operator answered stands: the record, what the adapter is told and the resolution
      all carry that decision, unless the record could not be written or the child was gone. No
      rule resolves what the operator has answered. */
  lemma AnswerStands(v: Vendor, acts: seq<Action>, s: State, r: Req, d: Decision, rule: Option<string>)
    requires Run(v, acts, s) && Answer(r, d, rule) in acts
    ensures forall d2, scope | Audited(r, d2, scope) in s.trace :: d2 == d && scope == ScopeOf(rule)
    ensures forall d2 | Responded(r, d2) in s.trace :: d2 == d || (d2 == Deny && AppendDone(r, false) in acts)
    ensures forall t, d2, why | Resolved(t, r, d2, why) in s.trace ::
      match why
      case Answered => d2 == d
      case Cancelled => d2 == Deny
      case AuditUnavailable => d2 == Deny && AppendDone(r, false) in acts
      case Preapproved => false
  {
    RunExplains(v, acts, s);
    assert IsAnswered(acts, r);
    forall d2, rule2 | Answer(r, d2, rule2) in acts ensures d2 == d && rule2 == rule { OneAnswer(acts, r, d, rule, d2, rule2); }
    forall d2, scope | Audited(r, d2, scope) in s.trace ensures d2 == d && scope == ScopeOf(rule) {
      assert Explained(acts, Audited(r, d2, scope));
    }
    forall d2 | Responded(r, d2) in s.trace ensures d2 == d || (d2 == Deny && AppendDone(r, false) in acts) {
      assert Explained(acts, Responded(r, d2));
    }
    forall t, d2, why | Resolved(t, r, d2, why) in s.trace
      ensures Explained(acts, Resolved(t, r, d2, why))
    {
    }
  }

  lemma OneAnswer(acts: seq<Action>, r: Req, d: Decision, rule: Option<string>, d2: Decision, rule2: Option<string>)
    requires AnswersOnce(acts) && Answer(r, d, rule) in acts && Answer(r, d2, rule2) in acts
    ensures d2 == d && rule2 == rule
  {
    var i :| 0 <= i < |acts| && acts[i] == Answer(r, d, rule);
    var j :| 0 <= j < |acts| && acts[j] == Answer(r, d2, rule2);
    assert !(i < j) && !(j < i);
  }

  /** An answer whose record is durable, and which the adapter takes while the request is in
      flight, ends in that decision, told and resolved; and if it granted a rule, the rule is held
      from then on. */
  lemma AnswerArrives(v: Vendor, acts: seq<Action>, s: State, r: Req, d: Decision, rule: Option<string>)
    requires Run(v, acts, s) && Answer(r, d, rule) in acts && r in s.flows && s.flows[r].stage.Durable?
    requires Enabled(v, s, Continue(r, Delivered)) && r in s.slots[s.flows[r].turn].inFlight
    ensures var later, t := Next(v, s, Continue(r, Delivered)), s.flows[r].turn;
      && s.trace + (if rule.Some? then [RuleHeld(rule.value)] else []) + [Responded(r, d), Resolved(t, r, d, Answered)] == later.trace
      && later.rules == s.rules + (if rule.Some? then [rule.value] else [])
      && Audited(r, d, ScopeOf(rule)) in s.trace && WasRequested(s.trace, t, r)
  {
    RunExplains(v, acts, s);
    assert FlowExplained(acts, r, s.flows[r]) && FlowInv(s.trace, r, s.flows[r]);
    assert IsAnswered(acts, r);
    forall d2, rule2 | Answer(r, d2, rule2) in acts ensures d2 == d && rule2 == rule { OneAnswer(acts, r, d, rule, d2, rule2); }
    assert s.flows[r].decision == d && s.flows[r].scope == ScopeOf(rule);
    ContinueAdds(v, s, r, Delivered);
  }

  ghost predicate Continued(done: seq<Action>, r: Req) {
    exists response :: Continue(r, response) in done
  }

  ghost predicate Finished(s: State, done: seq<Action>) {
    forall r | Continued(done, r) :: r !in s.flows && Gone(s, r)
  }

  lemma StepFinishes(v: Vendor, s: State, done: seq<Action>, a: Action)
    requires Explains(s, done) && Finished(s, done) && Enabled(v, s, a)
    ensures Finished(Next(v, s, a), done + [a])
  {
    var later := Next(v, s, a);
    forall r | Continued(done + [a], r) ensures r !in later.flows && Gone(later, r) {
      if Continued(done, r) {
        StepKeepsGone(v, s, a, r);
        if r in later.flows { StepFlows(v, s, a, r); }
      } else {
        assert a.Continue? && a.r == r && Handled(s, done, r);
        StepKeepsGone(v, s, a, r);
        ContinueDrops(v, s, r, a.response);
      }
    }
  }

  lemma ContinueDrops(v: Vendor, s: State, r: Req, response: Response)
    requires Enabled(v, s, Continue(r, response))
    ensures r !in Next(v, s, Continue(r, response)).flows
  {
  }

  lemma {:induction false} PathFinishes(v: Vendor, s: State, done: seq<Action>, acts: seq<Action>, end: State)
    requires Explains(s, done) && Finished(s, done) && Path(v, s, acts, end)
    ensures Finished(end, done + acts)
    decreases |acts|
  {
    hide Next, Enabled, Explains, Finished;
    if acts == [] {
      assert done + acts == done;
    } else {
      StepExplains(v, s, done, acts[0]);
      StepFinishes(v, s, done, acts[0]);
      PathFinishes(v, Next(v, s, acts[0]), done + [acts[0]], acts[1..], end);
      assert done + acts == done + [acts[0]] + acts[1..];
    }
  }

  /** An answer is dealt with once: what is done about a request after its record is written, or
      has failed, never happens a second time, in any run. */
  lemma DealtWithOnce(v: Vendor, acts: seq<Action>, s: State, r: Req, response: Response)
    requires Run(v, acts, s) && Enabled(v, s, Continue(r, response))
    ensures !Continued(acts, r)
  {
    var init :| Init(init) && Path(v, init, acts, s);
    assert [] + acts == acts;
    PathFinishes(v, init, [], acts, s);
  }

  /** A standing rule is only ever granted with an allow, for a request that names a target. */
  lemma RuleNeedsTarget(v: Vendor, acts: seq<Action>, s: State, r: Req, d: Decision, rule: string)
    requires Run(v, acts, s) && Answer(r, d, Some(rule)) in acts
    ensures d == Allow && exists t, what :: Requested(t, r, what) in s.trace && what.matchTarget.Some? && Ask(r, what) in acts
  {
    RunExplains(v, acts, s);
    var t, what :| Requested(t, r, what) in s.trace && what.matchTarget.Some?;
    assert Explained(acts, Requested(t, r, what));
  }

  /** Once the child has exited nothing is asked until a turn is handed to the adapter. */
  lemma NothingAskedBetween(v: Vendor, s: State, acts: seq<Action>, end: State)
    requires Enabled(v, s, Exited) && Path(v, Next(v, s, Exited), acts, end) && Send !in acts
    ensures forall a | a in acts :: !a.Ask?
  {
    QuietWithoutChild(v, Next(v, s, Exited), acts, end);
  }

  lemma {:induction false} QuietWithoutChild(v: Vendor, s: State, acts: seq<Action>, end: State)
    requires Path(v, s, acts, end) && !s.child && Send !in acts
    ensures forall a | a in acts :: !a.Ask?
    decreases |acts|
  {
    if acts != [] {
      ChildStaysAway(v, s, acts[0]);
      hide Next;
      QuietWithoutChild(v, Next(v, s, acts[0]), acts[1..], end);
      assert forall a | a in acts :: a == acts[0] || a in acts[1..];
    }
  }

  lemma ChildStaysAway(v: Vendor, s: State, a: Action)
    requires Enabled(v, s, a) && !s.child && !a.Send?
    ensures !Next(v, s, a).child && !a.Ask?
  {
    hide FirstMatch, CanRespond, StandingRules.IsRule, StandingRules.Matches;
  }

  lemma {:induction false} FirstMatchIsFirst(rules: seq<string>, what: StandingRules.Request, k: nat)
    requires k < |rules| && StandingRules.Matches(rules[k], what)
    ensures FirstMatch(rules, what).Some? && FirstMatch(rules, what).value in rules[..k + 1]
    decreases |rules|
  {
    if !StandingRules.Matches(rules[0], what) {
      FirstMatchIsFirst(rules[1..], what, k - 1);
      assert rules[1..][..k] == rules[1..k + 1];
    } else {
      assert rules[..k + 1][0] == rules[0];
    }
  }

  /** A request is taken by a rule exactly if one of those held when it comes in matches, and then
      by the one that has been held longest. */
  lemma EarliestRuleTakes(v: Vendor, acts: seq<Action>, s: State, r: Req, what: StandingRules.Request)
    requires Run(v, acts, s) && Enabled(v, s, Ask(r, what))
    ensures r in Next(v, s, Ask(r, what)).auto <==> exists rule :: rule in s.rules && StandingRules.Matches(rule, what)
    ensures forall k | 0 <= k < |s.rules| && StandingRules.Matches(s.rules[k], what) ::
      Next(v, s, Ask(r, what)).auto[r].1 in s.rules[..k + 1]
  {
    RunExplains(v, acts, s);
    assert forall x | x in s.auto :: WasRequested(s.trace, s.auto[x].0, x) && x != r by {
      assert forall x | x in s.auto :: AutoInv(s.trace, x, s.auto[x].0, s.auto[x].1);
    }
    forall k | 0 <= k < |s.rules| && StandingRules.Matches(s.rules[k], what)
      ensures FirstMatch(s.rules, what).Some? && FirstMatch(s.rules, what).value in s.rules[..k + 1]
    {
      FirstMatchIsFirst(s.rules, what, k);
    }
  }
}
