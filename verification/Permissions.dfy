/**
Permission resolution in `src/agent-console/core/index.ts`: `answerPermission`,
`resolvePreapproved`, `finalizeResolution`, `respondOrCancel` and the `exited` and `event`
handlers of one session. Each step is what runs between two awaits; a `Flow` is the
continuation of an answer whose audit append has not been dealt with yet.

The adapter may refuse an answer (`no_child`) although its child lives and the turn is open. It
refuses every answer from the tick in which `turn.ended` is reported until the next turn is
handed to it (`src/agent-console/providers/adapter-session.ts`). Request ids and turn ids are
fresh, and no request is reported without a child.
*/
module Permissions {
  import opened Common
  import StandingRules

  type Req = int
  type Turn = int

  datatype Decision = Allow | Deny
  datatype Reason = Answered | Preapproved | Cancelled | AuditUnavailable

  /** What a decision covers. `Always` carries the rule it creates, `Standing` the rule that
      was matched. */
  datatype Scope = Once | Always(rule: string) | Standing(rule: string)

  /** The observable acts of the session, in order: envelopes, durable audit records, answers
      handed to the adapter, those it refused, and rules held. */
  datatype Effect =
    | Requested(turn: Turn, req: Req, what: StandingRules.Request)
    | Audited(req: Req, decision: Decision, scope: Scope)
    | RuleHeld(rule: string)
    | Responded(req: Req, decision: Decision)
    | Refused(req: Req)
    | Resolved(turn: Turn, req: Req, decision: Decision, reason: Reason)
    | TurnEnded(turn: Turn)

  datatype Pend = Pend(req: Req, what: StandingRules.Request)

  /** The two maps of a turn, in insertion order. */
  datatype Slot = Slot(pending: seq<Pend>, inFlight: seq<Req>)

  datatype Stage = Appending | Durable | Failed
  datatype Flow = Flow(turn: Turn, decision: Decision, scope: Scope, stage: Stage)

  /** What the adapter makes of an answer. */
  datatype Response = Delivered | WriteFailed | NoChild

  /** `open`: the live turn has been handed to the adapter and has not been reported as ended. */
  datatype State = State(
    turn: Option<Turn>,
    open: bool,
    child: bool,
    slots: map<Turn, Slot>,
    rules: seq<string>,
    flows: map<Req, Flow>,
    auto: map<Req, (Turn, string)>,
    trace: seq<Effect>)

  /** What an adapter may do. `refuses`: answer `no_child` although child and turn are there, as
      after an operator's interrupt. `early`: report `turn.ended` while its child lives.
      `carries`: take, in a later turn, an answer to a request of an earlier one. */
  datatype Vendor = Vendor(refuses: bool, early: bool, carries: bool)

  // ---------------------------------------------------------------- steps

  datatype Action =
    | StartTurn(t: Turn)
    | Send
    | Ask(r: Req, what: StandingRules.Request)
    | Answer(r: Req, decision: Decision, rule: Option<string>)
    | AutoApprove(r: Req)
    | AppendDone(r: Req, ok: bool)
    | Continue(r: Req, response: Response)
    | Exited
    | EndTurn

  function Reqs(pending: seq<Pend>): (rs: seq<Req>)
    ensures |rs| == |pending| && forall i | 0 <= i < |rs| :: rs[i] == pending[i].req
  {
    seq(|pending|, i requires 0 <= i < |pending| => pending[i].req)
  }

  function Without(rs: seq<Req>, r: Req): (kept: seq<Req>)
    ensures forall x :: x in kept <==> x in rs && x != r
  {
    if rs == [] then [] else (if rs[0] == r then [] else [rs[0]]) + Without(rs[1..], r)
  }

  function Drop(ps: seq<Pend>, r: Req): seq<Pend> {
    if ps == [] then [] else (if ps[0].req == r then [] else [ps[0]]) + Drop(ps[1..], r)
  }

  /** The request leaves `pending` and is in flight until it is resolved. */
  function Taken(slot: Slot, r: Req): Slot {
    Slot(Drop(slot.pending, r), slot.inFlight + [r])
  }

  function FirstMatch(rules: seq<string>, what: StandingRules.Request): (m: Option<string>)
    ensures m.Some? ==> m.value in rules && StandingRules.Matches(m.value, what)
    ensures m.None? ==> forall r | r in rules :: !StandingRules.Matches(r, what)
  {
    if rules == [] then None
    else if StandingRules.Matches(rules[0], what) then Some(rules[0])
    else FirstMatch(rules[1..], what)
  }

  predicate IsPending(s: State, t: Turn, r: Req) {
    t in s.slots && r in Reqs(s.slots[t].pending)
  }

  predicate InFlight(s: State, t: Turn, r: Req) {
    t in s.slots && r in s.slots[t].inFlight
  }

  function What(pending: seq<Pend>, r: Req): StandingRules.Request
    requires r in Reqs(pending)
  {
    if pending[0].req == r then pending[0].what else What(pending[1..], r)
  }

  /** The adapter has a child and an open turn to take the answer to. */
  predicate Takes(v: Vendor, s: State, t: Turn) {
    s.open && s.child && (s.turn == Some(t) || v.carries)
  }

  predicate CanRespond(v: Vendor, s: State, t: Turn, response: Response) {
    if response.NoChild? then v.refuses || !Takes(v, s, t) else Takes(v, s, t)
  }

  ghost predicate Enabled(v: Vendor, s: State, a: Action) {
    match a
    case StartTurn(t) => s.turn.None? && t !in s.slots
    case Send => s.turn.Some? && !s.open
    case Ask(r, _) => s.turn.Some? && s.turn.value in s.slots && s.child && forall t, w :: Requested(t, r, w) !in s.trace
    case Answer(r, decision, rule) =>
      && s.turn.Some? && IsPending(s, s.turn.value, r)
      && (rule.Some? ==>
            decision == Allow && StandingRules.IsRule(rule.value) && What(s.slots[s.turn.value].pending, r).matchTarget.Some?)
    case AutoApprove(r) => r in s.auto && s.auto[r].0 in s.slots
    case AppendDone(r, _) => r in s.flows && s.flows[r].stage.Appending?
    case Continue(r, response) =>
      && r in s.flows && !s.flows[r].stage.Appending? && s.flows[r].turn in s.slots
      && (r in s.slots[s.flows[r].turn].inFlight ==> CanRespond(v, s, s.flows[r].turn, response))
    case Exited => s.turn.Some? ==> s.turn.value in s.slots
    case EndTurn => s.turn.Some? && (v.early || !s.child)
  }

  function Take(s: State, t: Turn, r: Req, decision: Decision, scope: Scope): State
    requires t in s.slots
  {
    s.(slots := s.slots[t := Taken(s.slots[t], r)], flows := s.flows[r := Flow(t, decision, scope, Appending)])
  }

  function Cancellations(t: Turn, rs: seq<Req>): (es: seq<Effect>)
    ensures |es| == |rs| && forall i | 0 <= i < |rs| :: es[i] == Resolved(t, rs[i], Deny, Cancelled)
  {
    seq(|rs|, i requires 0 <= i < |rs| => Resolved(t, rs[i], Deny, Cancelled))
  }

  function ToldDecision(flow: Flow): Decision {
    if flow.stage.Failed? then Deny else flow.decision
  }

  /** `finalizeResolution` once the append is settled: a rule is held when its grant is
      durable, and then the adapter is told the decision (a denial if the append failed). */
  function Told(s: State, flow: Flow, r: Req): State {
    var s1 := if flow.stage.Durable? && flow.scope.Always? then Held(s, flow.scope.rule) else s;
    s1.(trace := s1.trace + [Responded(r, ToldDecision(flow))])
  }

  function Held(s: State, rule: string): State {
    s.(rules := s.rules + [rule], trace := s.trace + [RuleHeld(rule)])
  }

  /** The request stops being in flight. */
  function Landed(s: State, t: Turn, r: Req): State
    requires t in s.slots
  {
    s.(flows := s.flows - {r}, slots := s.slots[t := s.slots[t].(inFlight := Without(s.slots[t].inFlight, r))])
  }

  function Settled(s: State, t: Turn, r: Req, e: Effect): State
    requires t in s.slots
  {
    var s1 := Landed(s, t, r);
    s1.(trace := s1.trace + [e])
  }

  /** How the answer ends. A failed write is the child's exit seen early; of a refused answer
      (`no_child`) nothing more is told. */
  function Ending(flow: Flow, r: Req, response: Response): Effect {
    match response
    case NoChild => Refused(r)
    case WriteFailed => Resolved(flow.turn, r, Deny, Cancelled)
    case Delivered =>
      Resolved(flow.turn, r, ToldDecision(flow),
               if flow.stage.Failed? then AuditUnavailable else if flow.scope.Standing? then Preapproved else Answered)
  }

  /** The continuation of an answer, through `respondOrCancel`. */
  function Finalized(s: State, r: Req, response: Response): State
    requires r in s.flows && s.flows[r].turn in s.slots
  {
    var flow := s.flows[r];
    if r !in s.slots[flow.turn].inFlight then s.(flows := s.flows - {r}) // the sweep was here first
    else Settled(Told(s, flow, r), flow.turn, r, Ending(flow, r, response))
  }

  ghost function Next(v: Vendor, s: State, a: Action): State
    requires Enabled(v, s, a)
  {
    match a
    case StartTurn(t) => s.(turn := Some(t), slots := s.slots[t := Slot([], [])])
    case Send => s.(open := true, child := true)
    case Ask(r, what) =>
      var t := s.turn.value;
      var matched := FirstMatch(s.rules, what);
      s.(slots := s.slots[t := s.slots[t].(pending := s.slots[t].pending + [Pend(r, what)])],
         auto := if matched.Some? then s.auto[r := (t, matched.value)] else s.auto,
         trace := s.trace + [Requested(t, r, what)])
    case Answer(r, decision, rule) =>
      Take(s, s.turn.value, r, decision, if rule.Some? then Always(rule.value) else Once)
    case AutoApprove(r) =>
      var (t, rule) := s.auto[r];
      var s1 := s.(auto := s.auto - {r});
      if IsPending(s, t, r) then Take(s1, t, r, Allow, Standing(rule)) else s1
    case AppendDone(r, ok) =>
      var flow := s.flows[r];
      s.(flows := s.flows[r := flow.(stage := if ok then Durable else Failed)],
         trace := if ok then s.trace + [Audited(r, flow.decision, flow.scope)] else s.trace)
    case Continue(r, response) => Finalized(s, r, response)
    case Exited =>
      if s.turn.None? then s.(child := false)
      else
        var t, slot := s.turn.value, s.slots[s.turn.value];
        s.(child := false, slots := s.slots[t := Slot([], [])],
           trace := s.trace + Cancellations(t, Reqs(slot.pending) + slot.inFlight))
    case EndTurn => s.(turn := None, open := false, trace := s.trace + [TurnEnded(s.turn.value)])
  }

  ghost predicate Init(s: State) {
    s == State(None, false, false, map[], [], map[], map[], [])
  }

  ghost predicate Path(v: Vendor, s: State, acts: seq<Action>, end: State)
    decreases |acts|
  {
    if acts == [] then end == s
    else Enabled(v, s, acts[0]) && Path(v, Next(v, s, acts[0]), acts[1..], end)
  }

  ghost predicate Reachable(v: Vendor, s: State) {
    exists init, acts :: Init(init) && Path(v, init, acts, s)
  }

  // ---------------------------------------------------------------- the promise

  ghost predicate IsResolved(trace: seq<Effect>, r: Req) {
    exists t, d, why :: Resolved(t, r, d, why) in trace
  }

  ghost predicate WasRefused(trace: seq<Effect>, r: Req) {
    Refused(r) in trace
  }

  /** Nothing more will be told of the request. */
  ghost predicate IsSettled(trace: seq<Effect>, r: Req) {
    IsResolved(trace, r) || WasRefused(trace, r)
  }

  ghost predicate WasRequested(trace: seq<Effect>, t: Turn, r: Req) {
    exists what :: Requested(t, r, what) in trace
  }

  /** What must already have happened when an effect happens. */
  ghost predicate Justified(past: seq<Effect>, e: Effect) {
    match e
    case Requested(_, r, _) => forall t, w :: Requested(t, r, w) !in past
    case Audited(r, d, scope) =>
      && (scope.Always? ==> d == Allow && StandingRules.IsRule(scope.rule))
      && (scope.Standing? ==>
            && d == Allow && RuleHeld(scope.rule) in past
            && exists t, what :: Requested(t, r, what) in past && StandingRules.Matches(scope.rule, what))
    case RuleHeld(rule) => exists r :: Audited(r, Allow, Always(rule)) in past
    case Responded(r, d) => d == Allow ==> exists scope :: Audited(r, Allow, scope) in past
    case Resolved(t, r, d, _) =>
      && !IsSettled(past, r) && WasRequested(past, t, r)
      && (d == Allow ==> Responded(r, Allow) in past)
    case Refused(r) => !IsSettled(past, r) && (exists d :: Responded(r, d) in past) && exists t :: WasRequested(past, t, r)
    case TurnEnded(_) => true
  }

  ghost predicate Lawful(trace: seq<Effect>) {
    forall i | 0 <= i < |trace| :: Justified(trace[..i], trace[i])
  }

  // ---------------------------------------------------------------- the invariant

  ghost predicate NoDup(rs: seq<Req>) {
    forall i, j | 0 <= i < j < |rs| :: rs[i] != rs[j]
  }

  ghost predicate Covered(trace: seq<Effect>, t: Turn, r: Req, rule: string) {
    exists what :: Requested(t, r, what) in trace && StandingRules.Matches(rule, what)
  }

  ghost predicate Open(trace: seq<Effect>, t: Turn, r: Req) {
    WasRequested(trace, t, r) && !IsSettled(trace, r)
  }

  ghost predicate SlotInv(trace: seq<Effect>, flows: map<Req, Flow>, t: Turn, slot: Slot) {
    && NoDup(Reqs(slot.pending)) && NoDup(slot.inFlight)
    && (forall r | r in Reqs(slot.pending) :: r !in slot.inFlight && r !in flows && Open(trace, t, r))
    && (forall r | r in slot.inFlight :: r in flows && flows[r].turn == t && Open(trace, t, r))
  }

  ghost predicate FlowInv(trace: seq<Effect>, r: Req, flow: Flow) {
    && WasRequested(trace, flow.turn, r)
    && (flow.stage.Durable? ==> Audited(r, flow.decision, flow.scope) in trace)
    && (flow.scope.Always? ==> flow.decision == Allow && StandingRules.IsRule(flow.scope.rule))
    && (flow.scope.Standing? ==>
          flow.decision == Allow && RuleHeld(flow.scope.rule) in trace && Covered(trace, flow.turn, r, flow.scope.rule))
  }

  ghost predicate AutoInv(trace: seq<Effect>, r: Req, t: Turn, rule: string) {
    RuleHeld(rule) in trace && Covered(trace, t, r, rule)
  }

  ghost predicate OneTurnEach(trace: seq<Effect>) {
    forall t, u, r | WasRequested(trace, t, r) && WasRequested(trace, u, r) :: t == u
  }

  /** Every request of the live turn is outstanding, resolved or refused; without a child there
      is none outstanding. */
  ghost predicate LiveInv(s: State, t: Turn) {
    && t in s.slots && TurnEnded(t) !in s.trace
    && (!s.child ==> s.slots[t] == Slot([], []))
    && (forall r | WasRequested(s.trace, t, r) ::
          r in Reqs(s.slots[t].pending) || r in s.slots[t].inFlight || IsSettled(s.trace, r))
  }

  ghost predicate SlotsInv(s: State) {
    forall t | t in s.slots :: SlotInv(s.trace, s.flows, t, s.slots[t])
  }

  ghost predicate Tables(s: State) {
    && (forall r | r in s.flows :: s.flows[r].turn in s.slots && FlowInv(s.trace, r, s.flows[r]))
    && (forall r | r in s.auto :: s.auto[r].0 in s.slots && AutoInv(s.trace, r, s.auto[r].0, s.auto[r].1))
    && (forall rule | rule in s.rules :: RuleHeld(rule) in s.trace)
    && (forall t, r | WasRequested(s.trace, t, r) :: t in s.slots)
    && (forall t | TurnEnded(t) in s.trace :: t in s.slots)
  }

  ghost predicate Inv(s: State) {
    && Lawful(s.trace) && OneTurnEach(s.trace) && SlotsInv(s) && Tables(s)
    && (s.turn.Some? ==> LiveInv(s, s.turn.value)) && (s.open ==> s.turn.Some?)
  }

  // ---------------------------------------------------------------- growing the trace

  lemma LawfulSnoc(trace: seq<Effect>, e: Effect)
    requires Lawful(trace) && Justified(trace, e)
    ensures Lawful(trace + [e])
  {
    forall i | 0 <= i < |trace + [e]| ensures Justified((trace + [e])[..i], (trace + [e])[i]) {
      assert (trace + [e])[..i] == trace[..i];
      if i == |trace| { assert trace[..i] == trace; }
    }
  }

  lemma ResolvedSnoc(trace: seq<Effect>, e: Effect)
    ensures forall r :: IsResolved(trace + [e], r) <==> IsResolved(trace, r) || (e.Resolved? && e.req == r)
    ensures forall r :: WasRefused(trace + [e], r) <==> WasRefused(trace, r) || e == Refused(r)
  {
    forall r ensures IsResolved(trace + [e], r) <==> IsResolved(trace, r) || (e.Resolved? && e.req == r) {
      if IsResolved(trace, r) {
        var t, d, why :| Resolved(t, r, d, why) in trace;
        assert Resolved(t, r, d, why) in trace + [e];
      }
      if e.Resolved? && e.req == r { assert Resolved(e.turn, r, e.decision, e.reason) in trace + [e]; }
    }
  }

  lemma RequestedSnoc(trace: seq<Effect>, e: Effect)
    ensures forall t, r :: WasRequested(trace + [e], t, r) <==>
      WasRequested(trace, t, r) || (e.Requested? && e.turn == t && e.req == r)
    ensures forall t, r, rule | Covered(trace, t, r, rule) :: Covered(trace + [e], t, r, rule)
  {
    forall t, r
      ensures WasRequested(trace + [e], t, r) <==> WasRequested(trace, t, r) || (e.Requested? && e.turn == t && e.req == r)
    {
      if WasRequested(trace, t, r) {
        var w :| Requested(t, r, w) in trace;
        assert Requested(t, r, w) in trace + [e];
      }
      if e.Requested? && e.turn == t && e.req == r { assert Requested(t, r, e.what) in trace + [e]; }
    }
    forall t, r, rule | Covered(trace, t, r, rule) ensures Covered(trace + [e], t, r, rule) {
      var w :| Requested(t, r, w) in trace && StandingRules.Matches(rule, w);
      assert Requested(t, r, w) in trace + [e];
    }
  }

  /** An effect that neither asks nor resolves leaves every table as good as it was. */
  lemma NeutralSnoc(s: State, e: Effect)
    requires Inv(s) && Justified(s.trace, e) && !e.Requested? && !e.Resolved? && !e.Refused?
    requires e.TurnEnded? ==> e.turn in s.slots && s.turn != Some(e.turn)
    ensures Inv(s.(trace := s.trace + [e]))
  {
    LawfulSnoc(s.trace, e);
    ResolvedSnoc(s.trace, e);
    RequestedSnoc(s.trace, e);
  }

  // ---------------------------------------------------------------- steps keep the invariant

  lemma StartKeeps(v: Vendor, s: State, t: Turn)
    requires Inv(s) && Enabled(v, s, StartTurn(t))
    ensures Inv(Next(v, s, StartTurn(t)))
  {
  }

  lemma SendKeeps(v: Vendor, s: State)
    requires Inv(s) && Enabled(v, s, Send)
    ensures Inv(Next(v, s, Send))
  {
  }

  lemma EndKeeps(v: Vendor, s: State)
    requires Inv(s) && Enabled(v, s, EndTurn)
    ensures Inv(Next(v, s, EndTurn))
  {
    var s1 := s.(turn := None, open := false);
    NeutralSnoc(s1, TurnEnded(s.turn.value));
  }

  lemma AskedSlot(trace: seq<Effect>, flows: map<Req, Flow>, slot: Slot, e: Effect)
    requires e.Requested? && SlotInv(trace, flows, e.turn, slot) && !IsSettled(trace, e.req)
    requires e.req !in Reqs(slot.pending) && e.req !in slot.inFlight && e.req !in flows
    ensures SlotInv(trace + [e], flows, e.turn, slot.(pending := slot.pending + [Pend(e.req, e.what)]))
  {
    var rs := Reqs(slot.pending);
    assert Reqs(slot.pending + [Pend(e.req, e.what)]) == rs + [e.req];
    ResolvedSnoc(trace, e);
    RequestedSnoc(trace, e);
    assert forall x | x in rs + [e.req] :: x in rs || x == e.req;
    assert forall i | 0 <= i < |rs| :: rs[i] in rs;
    assert forall x | x in rs || x in slot.inFlight :: Open(trace, e.turn, x);
  }

  ghost predicate Unheard(s: State, r: Req) {
    && r !in s.flows && !IsSettled(s.trace, r) && (forall t :: !WasRequested(s.trace, t, r))
    && forall t | t in s.slots :: r !in Reqs(s.slots[t].pending) && r !in s.slots[t].inFlight
  }

  lemma NewIsUnheard(v: Vendor, s: State, r: Req, what: StandingRules.Request)
    requires Inv(s) && Enabled(v, s, Ask(r, what))
    ensures Unheard(s, r)
  {
    if IsSettled(s.trace, r) { SettledWasRequested(s.trace, r); }
    forall x | x in s.flows ensures x != r { assert WasRequested(s.trace, s.flows[x].turn, x); }
    forall t, x | t in s.slots && (x in Reqs(s.slots[t].pending) || x in s.slots[t].inFlight) ensures x != r {
      assert SlotInv(s.trace, s.flows, t, s.slots[t]) && Open(s.trace, t, x);
    }
  }

  lemma AskKeepsSlots(v: Vendor, s: State, r: Req, what: StandingRules.Request)
    requires Inv(s) && Enabled(v, s, Ask(r, what)) && Unheard(s, r)
    ensures SlotsInv(Next(v, s, Ask(r, what))) && OneTurnEach(Next(v, s, Ask(r, what)).trace)
  {
    var later, t := Next(v, s, Ask(r, what)), s.turn.value;
    var e := Requested(t, r, what);
    ResolvedSnoc(s.trace, e);
    RequestedSnoc(s.trace, e);
    AskedSlot(s.trace, s.flows, s.slots[t], e);
    forall u | u in s.slots && u != t ensures SlotInv(later.trace, s.flows, u, s.slots[u]) {
      assert SlotInv(s.trace, s.flows, u, s.slots[u]);
    }
  }

  lemma AskKeepsTables(v: Vendor, s: State, r: Req, what: StandingRules.Request)
    requires Inv(s) && Enabled(v, s, Ask(r, what))
    ensures Tables(Next(v, s, Ask(r, what)))
  {
    var later, e := Next(v, s, Ask(r, what)), Requested(s.turn.value, r, what);
    RequestedSnoc(s.trace, e);
    var matched := FirstMatch(s.rules, what);
    assert e in later.trace;
    if matched.Some? { assert Covered(later.trace, e.turn, r, matched.value); }
  }

  lemma AskKeepsLive(v: Vendor, s: State, r: Req, what: StandingRules.Request)
    requires Inv(s) && Enabled(v, s, Ask(r, what))
    ensures LiveInv(Next(v, s, Ask(r, what)), s.turn.value)
  {
    var later, t := Next(v, s, Ask(r, what)), s.turn.value;
    var e, slot := Requested(t, r, what), s.slots[t];
    ResolvedSnoc(s.trace, e);
    RequestedSnoc(s.trace, e);
    assert LiveInv(s, t);
    assert Reqs(later.slots[t].pending) == Reqs(slot.pending) + [r];
    assert forall x :: x in Reqs(slot.pending) + [r] <==> x in Reqs(slot.pending) || x == r;
  }

  lemma AskKeeps(v: Vendor, s: State, r: Req, what: StandingRules.Request)
    requires Inv(s) && Enabled(v, s, Ask(r, what))
    ensures Inv(Next(v, s, Ask(r, what)))
  {
    NewIsUnheard(v, s, r, what);
    LawfulSnoc(s.trace, Requested(s.turn.value, r, what));
    AskKeepsSlots(v, s, r, what);
    AskKeepsTables(v, s, r, what);
    AskKeepsLive(v, s, r, what);
  }

  lemma SettledWasRequested(trace: seq<Effect>, r: Req)
    requires Lawful(trace) && IsSettled(trace, r)
    ensures exists t :: WasRequested(trace, t, r)
  {
    var i :| 0 <= i < |trace| && ((trace[i].Resolved? && trace[i].req == r) || trace[i] == Refused(r));
    assert Justified(trace[..i], trace[i]);
    var t :| WasRequested(trace[..i], t, r);
    RequestedGrows(trace[..i], trace, t, r);
  }

  lemma RequestedGrows(trace: seq<Effect>, longer: seq<Effect>, t: Turn, r: Req)
    requires trace <= longer && WasRequested(trace, t, r)
    ensures WasRequested(longer, t, r)
  {
    var w :| Requested(t, r, w) in trace;
    assert Requested(t, r, w) in longer;
  }

  lemma {:induction false} WithoutNoDup(rs: seq<Req>, r: Req)
    requires NoDup(rs)
    ensures NoDup(Without(rs, r))
    decreases |rs|
  {
    if rs != [] {
      WithoutNoDup(rs[1..], r);
      assert rs[0] !in rs[1..];
    }
  }

  lemma {:induction false} DropIsWithout(ps: seq<Pend>, r: Req)
    ensures Reqs(Drop(ps, r)) == Without(Reqs(ps), r)
    decreases |ps|
  {
    if ps != [] {
      DropIsWithout(ps[1..], r);
      assert Reqs(ps)[1..] == Reqs(ps[1..]);
      var kept := if ps[0].req == r then [] else [ps[0]];
      assert Reqs(kept + Drop(ps[1..], r)) == Reqs(kept) + Reqs(Drop(ps[1..], r));
    }
  }

  lemma DropSpec(ps: seq<Pend>, r: Req)
    requires NoDup(Reqs(ps))
    ensures NoDup(Reqs(Drop(ps, r)))
    ensures forall x :: x in Reqs(Drop(ps, r)) <==> x in Reqs(ps) && x != r
  {
    DropIsWithout(ps, r);
    WithoutNoDup(Reqs(ps), r);
  }

  lemma TakeKeeps(s: State, t: Turn, r: Req, decision: Decision, scope: Scope)
    requires Inv(s) && IsPending(s, t, r)
    requires scope.Always? ==> decision == Allow && StandingRules.IsRule(scope.rule)
    requires scope.Standing? ==> decision == Allow && RuleHeld(scope.rule) in s.trace && Covered(s.trace, t, r, scope.rule)
    ensures Inv(Take(s, t, r, decision, scope))
  {
    var later := Take(s, t, r, decision, scope);
    assert SlotInv(s.trace, s.flows, t, s.slots[t]) && Open(s.trace, t, r);
    DropSpec(s.slots[t].pending, r);
    forall u | u in later.slots ensures SlotInv(later.trace, later.flows, u, later.slots[u]) {
      assert SlotInv(s.trace, s.flows, u, s.slots[u]);
      if u == t { TakenSlot(s.trace, s.flows, t, s.slots[t], r, later.flows[r]); }
    }
    assert Tables(later);
  }

  lemma TakenSlot(trace: seq<Effect>, flows: map<Req, Flow>, t: Turn, slot: Slot, r: Req, flow: Flow)
    requires SlotInv(trace, flows, t, slot) && r in Reqs(slot.pending) && flow.turn == t
    ensures SlotInv(trace, flows[r := flow], t, Taken(slot, r))
  {
    DropSpec(slot.pending, r);
  }

  /** What an answer in flight can end in. */
  ghost predicate Ends(e: Effect, t: Turn, r: Req) {
    (e.Resolved? && e.turn == t && e.req == r) || e == Refused(r)
  }

  lemma SettleKeeps(s: State, t: Turn, r: Req, e: Effect)
    requires Inv(s) && InFlight(s, t, r) && Ends(e, t, r)
    requires if e.Resolved? then e.decision == Allow ==> Responded(r, Allow) in s.trace else exists d :: Responded(r, d) in s.trace
    ensures Inv(Settled(s, t, r, e))
  {
    var later := Settled(s, t, r, e);
    assert SlotInv(s.trace, s.flows, t, s.slots[t]) && Open(s.trace, t, r);
    assert Justified(s.trace, e);
    LawfulSnoc(s.trace, e);
    ResolvedSnoc(s.trace, e);
    RequestedSnoc(s.trace, e);
    forall u | u in later.slots ensures SlotInv(later.trace, later.flows, u, later.slots[u]) { SettleKeepsSlot(s, t, r, e, u); }
    TablesSnoc(s, e);
    if s.turn.Some? { SettleKeepsLive(s, t, r, e, s.turn.value); }
  }

  lemma SettleKeepsLive(s: State, t: Turn, r: Req, e: Effect, live: Turn)
    requires LiveInv(s, live) && InFlight(s, t, r) && Ends(e, t, r)
    ensures LiveInv(Settled(s, t, r, e), live)
  {
    ResolvedSnoc(s.trace, e);
    RequestedSnoc(s.trace, e);
  }

  lemma TablesSnoc(s: State, e: Effect)
    requires Tables(s) && !e.Requested? && !e.TurnEnded?
    ensures Tables(s.(trace := s.trace + [e]))
  {
    RequestedSnoc(s.trace, e);
  }

  lemma SettleKeepsSlot(s: State, t: Turn, r: Req, e: Effect, u: Turn)
    requires SlotsInv(s) && OneTurnEach(s.trace) && InFlight(s, t, r) && u in s.slots && Ends(e, t, r)
    ensures SlotInv(s.trace + [e], s.flows - {r}, u,
                    if u == t then s.slots[t].(inFlight := Without(s.slots[t].inFlight, r)) else s.slots[u])
  {
    WithoutNoDup(s.slots[t].inFlight, r);
    assert SlotInv(s.trace, s.flows, t, s.slots[t]) && SlotInv(s.trace, s.flows, u, s.slots[u]);
    ResolvedSnoc(s.trace, e);
    RequestedSnoc(s.trace, e);
    forall x | x in Reqs(s.slots[u].pending) || (x in s.slots[u].inFlight && (x != r || u != t))
      ensures x != r && Open(s.trace + [e], u, x)
    {
      assert Open(s.trace, u, x) && Open(s.trace, t, r);
    }
  }

  lemma AppendDoneKeeps(v: Vendor, s: State, r: Req, ok: bool)
    requires Inv(s) && Enabled(v, s, AppendDone(r, ok))
    ensures Inv(Next(v, s, AppendDone(r, ok)))
  {
    var flow := s.flows[r];
    var e := Audited(r, flow.decision, flow.scope);
    assert FlowInv(s.trace, r, flow);
    if ok {
      assert Justified(s.trace, e);
      NeutralSnoc(s, e);
      assert e in s.trace + [e];
      RestageKeeps(s.(trace := s.trace + [e]), r, Durable);
    } else {
      RestageKeeps(s, r, Failed);
    }
  }

  lemma RestageKeeps(s: State, r: Req, stage: Stage)
    requires Inv(s) && r in s.flows
    requires stage.Durable? ==> Audited(r, s.flows[r].decision, s.flows[r].scope) in s.trace
    ensures Inv(s.(flows := s.flows[r := s.flows[r].(stage := stage)]))
  {
    var later := s.(flows := s.flows[r := s.flows[r].(stage := stage)]);
    assert FlowInv(s.trace, r, s.flows[r]);
    forall u | u in later.slots ensures SlotInv(later.trace, later.flows, u, later.slots[u]) {
      assert SlotInv(s.trace, s.flows, u, s.slots[u]);
    }
  }

  lemma AutoApproveKeeps(v: Vendor, s: State, r: Req)
    requires Inv(s) && Enabled(v, s, AutoApprove(r))
    ensures Inv(Next(v, s, AutoApprove(r)))
  {
    var (t, rule) := s.auto[r];
    assert AutoInv(s.trace, r, t, rule);
    var s1 := s.(auto := s.auto - {r});
    assert Inv(s1);
    if IsPending(s, t, r) { TakeKeeps(s1, t, r, Allow, Standing(rule)); }
  }

  lemma DropFlowKeeps(s: State, r: Req)
    requires Inv(s) && r in s.flows && s.flows[r].turn in s.slots && r !in s.slots[s.flows[r].turn].inFlight
    ensures Inv(s.(flows := s.flows - {r}))
  {
    forall u | u in s.slots ensures SlotInv(s.trace, s.flows - {r}, u, s.slots[u]) {
      assert SlotInv(s.trace, s.flows, u, s.slots[u]);
    }
  }

  lemma HeldKeeps(s: State, rule: string, r: Req)
    requires Inv(s) && Audited(r, Allow, Always(rule)) in s.trace
    ensures Inv(Held(s, rule)) && s.trace <= Held(s, rule).trace
  {
    var e := RuleHeld(rule);
    assert Justified(s.trace, e);
    NeutralSnoc(s, e);
    assert (s.trace + [e])[|s.trace|] == e;
    RuleAddedKeeps(s.(trace := s.trace + [e]), rule);
  }

  lemma RuleAddedKeeps(s: State, rule: string)
    requires Inv(s) && RuleHeld(rule) in s.trace
    ensures Inv(s.(rules := s.rules + [rule]))
  {
  }

  lemma ToldKeeps(s: State, flow: Flow, r: Req)
    requires Inv(s) && FlowInv(s.trace, r, flow) && !flow.stage.Appending?
    ensures Inv(Told(s, flow, r)) && Responded(r, ToldDecision(flow)) in Told(s, flow, r).trace
  {
    var s1 := s;
    if flow.stage.Durable? && flow.scope.Always? {
      HeldKeeps(s, flow.scope.rule, r);
      s1 := Held(s, flow.scope.rule);
    }
    var e := Responded(r, ToldDecision(flow));
    if flow.stage.Durable? { assert Audited(r, flow.decision, flow.scope) in s1.trace; }
    assert Justified(s1.trace, e);
    NeutralSnoc(s1, e);
    assert (s1.trace + [e])[|s1.trace|] == e;
  }

  lemma ContinueKeeps(v: Vendor, s: State, r: Req, response: Response)
    requires Inv(s) && Enabled(v, s, Continue(r, response))
    ensures Inv(Next(v, s, Continue(r, response)))
  {
    var flow := s.flows[r];
    if r !in s.slots[flow.turn].inFlight {
      DropFlowKeeps(s, r);
    } else {
      ToldKeeps(s, flow, r);
      var s1 := Told(s, flow, r);
      assert InFlight(s1, flow.turn, r);
      SettleKeeps(s1, flow.turn, r, Ending(flow, r, response));
    }
  }

  /** The sweep cancels each outstanding request once. */
  lemma {:induction false} SweepLawful(trace: seq<Effect>, t: Turn, rs: seq<Req>)
    requires Lawful(trace) && NoDup(rs) && forall r | r in rs :: Open(trace, t, r)
    ensures Lawful(trace + Cancellations(t, rs))
    ensures forall r :: IsResolved(trace + Cancellations(t, rs), r) <==> IsResolved(trace, r) || r in rs
    ensures forall r :: WasRefused(trace + Cancellations(t, rs), r) <==> WasRefused(trace, r)
    ensures forall u, r :: WasRequested(trace + Cancellations(t, rs), u, r) <==> WasRequested(trace, u, r)
    ensures forall u, r, rule | Covered(trace, u, r, rule) :: Covered(trace + Cancellations(t, rs), u, r, rule)
    decreases |rs|
  {
    hide Justified, Lawful, Covered, IsResolved, WasRefused, WasRequested, Open;
    if rs == [] {
      assert trace + Cancellations(t, rs) == trace;
    } else {
      var n := |rs| - 1;
      var front, last := rs[..n], rs[n];
      assert rs == front + [last] && last in rs;
      assert forall r | r in front :: r in rs;
      SweepLawful(trace, t, front);
      var mid, e := trace + Cancellations(t, front), Resolved(t, last, Deny, Cancelled);
      assert trace + Cancellations(t, rs) == mid + [e];
      SweepOne(trace, mid, t, last);
    }
  }

  lemma SweepOne(trace: seq<Effect>, mid: seq<Effect>, t: Turn, last: Req)
    requires Lawful(mid) && Open(trace, t, last)
    requires WasRequested(trace, t, last) ==> WasRequested(mid, t, last)
    requires IsResolved(mid, last) ==> IsResolved(trace, last)
    requires WasRefused(mid, last) ==> WasRefused(trace, last)
    ensures var e := Resolved(t, last, Deny, Cancelled);
      && Lawful(mid + [e])
      && (forall r :: IsResolved(mid + [e], r) <==> IsResolved(mid, r) || r == last)
      && (forall r :: WasRefused(mid + [e], r) <==> WasRefused(mid, r))
      && (forall u, r :: WasRequested(mid + [e], u, r) <==> WasRequested(mid, u, r))
      && (forall u, r, rule | Covered(mid, u, r, rule) :: Covered(mid + [e], u, r, rule))
  {
    var e := Resolved(t, last, Deny, Cancelled);
    assert WasRequested(mid, t, last);
    LawfulSnoc(mid, e);
    ResolvedSnoc(mid, e);
    RequestedSnoc(mid, e);
  }

  function Outstanding(slot: Slot): seq<Req> {
    Reqs(slot.pending) + slot.inFlight
  }

  lemma SweptSlot(trace: seq<Effect>, flows: map<Req, Flow>, t: Turn, rs: seq<Req>, u: Turn, slot: Slot)
    requires OneTurnEach(trace) && SlotInv(trace, flows, u, slot) && u != t
    requires Lawful(trace) && NoDup(rs) && forall r | r in rs :: Open(trace, t, r)
    ensures SlotInv(trace + Cancellations(t, rs), flows, u, slot)
  {
    SweepLawful(trace, t, rs);
    forall x | x in Reqs(slot.pending) || x in slot.inFlight ensures Open(trace + Cancellations(t, rs), u, x) {
      assert Open(trace, u, x);
      forall y | y in rs ensures y != x { assert Open(trace, t, y); }
    }
  }

  lemma SweptTables(s: State, t: Turn, rs: seq<Req>)
    requires Tables(s) && Lawful(s.trace) && NoDup(rs) && forall r | r in rs :: Open(s.trace, t, r)
    ensures Tables(s.(trace := s.trace + Cancellations(t, rs)))
  {
    SweepLawful(s.trace, t, rs);
  }

  lemma LiveOutstanding(s: State, t: Turn)
    requires Inv(s) && s.turn == Some(t)
    ensures t in s.slots && NoDup(Outstanding(s.slots[t]))
    ensures forall r | r in Outstanding(s.slots[t]) :: Open(s.trace, t, r)
    ensures forall r | WasRequested(s.trace, t, r) :: r in Outstanding(s.slots[t]) || IsSettled(s.trace, r)
  {
    assert LiveInv(s, t);
    var slot := s.slots[t];
    assert SlotInv(s.trace, s.flows, t, slot);
    OutstandingNoDup(slot);
    assert forall r :: r in Outstanding(slot) <==> r in Reqs(slot.pending) || r in slot.inFlight;
  }

  lemma ExitedKeeps(v: Vendor, s: State)
    requires Inv(s) && Enabled(v, s, Exited)
    ensures Inv(Next(v, s, Exited))
    ensures s.turn.Some? ==> forall r | WasRequested(s.trace, s.turn.value, r) ::
      IsResolved(Next(v, s, Exited).trace, r) || WasRefused(s.trace, r)
  {
    if s.turn.Some? {
      var t, later := s.turn.value, Next(v, s, Exited);
      LiveOutstanding(s, t);
      var rs := Outstanding(s.slots[t]);
      SweepLawful(s.trace, t, rs);
      SweptTables(s, t, rs);
      forall u | u in later.slots ensures SlotInv(later.trace, later.flows, u, later.slots[u]) {
        if u == t { assert Reqs([]) == []; } else { SweptSlot(s.trace, s.flows, t, rs, u, s.slots[u]); }
      }
      assert LiveInv(s, t);
    }
  }

  lemma OutstandingNoDup(slot: Slot)
    requires NoDup(Reqs(slot.pending)) && NoDup(slot.inFlight) && forall r | r in Reqs(slot.pending) :: r !in slot.inFlight
    ensures NoDup(Outstanding(slot))
  {
    var a, b := Reqs(slot.pending), slot.inFlight;
    forall i, j | 0 <= i < j < |a + b| ensures (a + b)[i] != (a + b)[j] {
      if i < |a| <= j { assert a[i] in a && b[j - |a|] in b; }
    }
  }

  lemma StepKeepsInv(v: Vendor, s: State, a: Action)
    requires Inv(s) && Enabled(v, s, a)
    ensures Inv(Next(v, s, a))
  {
    match a
    case StartTurn(t) => StartKeeps(v, s, t);
    case Send => SendKeeps(v, s);
    case Ask(r, what) => AskKeeps(v, s, r, what);
    case Answer(r, decision, rule) =>
      TakeKeeps(s, s.turn.value, r, decision, if rule.Some? then Always(rule.value) else Once);
    case AutoApprove(r) => AutoApproveKeeps(v, s, r);
    case AppendDone(r, ok) => AppendDoneKeeps(v, s, r, ok);
    case Continue(r, response) => ContinueKeeps(v, s, r, response);
    case Exited => ExitedKeeps(v, s);
    case EndTurn => EndKeeps(v, s);
  }

  lemma {:induction false} PathKeepsInv(v: Vendor, s: State, acts: seq<Action>, end: State)
    requires Inv(s) && Path(v, s, acts, end)
    ensures Inv(end)
    decreases |acts|
  {
    if acts != [] {
      StepKeepsInv(v, s, acts[0]);
      PathKeepsInv(v, Next(v, s, acts[0]), acts[1..], end);
    }
  }

  lemma ReachableInv(v: Vendor, s: State)
    requires Reachable(v, s)
    ensures Inv(s)
  {
    var init, acts :| Init(init) && Path(v, init, acts, s);
    PathKeepsInv(v, init, acts, s);
  }

  // ---------------------------------------------------------------- results

  /** Over any interleaving, a request is resolved at most once, and only after it was asked. */
  lemma ResolvedOnce(v: Vendor, s: State, i: nat, j: nat)
    requires Reachable(v, s) && i < j < |s.trace| && s.trace[i].Resolved? && s.trace[j].Resolved?
    ensures s.trace[i].req != s.trace[j].req
    ensures WasRequested(s.trace[..i], s.trace[i].turn, s.trace[i].req)
  {
    ReachableInv(v, s);
    assert Justified(s.trace[..i], s.trace[i]) && Justified(s.trace[..j], s.trace[j]);
    ResolvedIn(s.trace[..j], i);
  }

  lemma ResolvedIn(past: seq<Effect>, i: nat)
    requires i < |past| && past[i].Resolved?
    ensures IsResolved(past, past[i].req)
  {
    assert Resolved(past[i].turn, past[i].req, past[i].decision, past[i].reason) in past;
  }

  lemma IndexOf(past: seq<Effect>, e: Effect) returns (i: nat)
    requires e in past
    ensures i < |past| && past[i] == e
  {
    i :| 0 <= i < |past| && past[i] == e;
  }

  /** No `allow` reaches the adapter before the record of that very decision is durable. */
  lemma AllowIsRecorded(v: Vendor, s: State, i: nat) returns (j: nat)
    requires Reachable(v, s) && i < |s.trace| && s.trace[i].Responded? && s.trace[i].decision == Allow
    ensures j < i && s.trace[j].Audited? && s.trace[j].req == s.trace[i].req && s.trace[j].decision == Allow
  {
    ReachableInv(v, s);
    assert Justified(s.trace[..i], s.trace[i]);
    var scope :| Audited(s.trace[i].req, Allow, scope) in s.trace[..i];
    j := IndexOf(s.trace[..i], Audited(s.trace[i].req, Allow, scope));
  }

  /** Behind every automatic allow stands, in this order: an operator's own answer that
      created the rule, durably recorded; the rule being held; and the record of the
      automatic decision, for a request of the rule's tool whose target its pattern covers. */
  lemma AutomaticAllowIsTraced(v: Vendor, s: State, j: nat) returns (granted: nat, held: nat, tool: string, pattern: string)
    requires Reachable(v, s) && j < |s.trace| && s.trace[j].Audited? && s.trace[j].scope.Standing?
    ensures granted < held < j
    ensures s.trace[granted].Audited? && s.trace[granted].decision == Allow
    ensures s.trace[granted].scope == Always(s.trace[j].scope.rule)
    ensures s.trace[held] == RuleHeld(s.trace[j].scope.rule)
    ensures s.trace[j].decision == Allow
    ensures StandingRules.RuleText(s.trace[j].scope.rule, tool, pattern)
    ensures exists t, target :: Requested(t, s.trace[j].req, StandingRules.Request(tool, Some(target))) in s.trace[..j]
                             && StandingRules.Glob(pattern, target)
  {
    ReachableInv(v, s);
    assert Lawful(s.trace);
    hide Inv, Reachable, StandingRules.IsRule, StandingRules.RuleText, StandingRules.Matches, StandingRules.Glob;
    var e := s.trace[j];
    assert Justified(s.trace[..j], e);
    held := IndexOf(s.trace[..j], RuleHeld(e.scope.rule));
    assert Justified(s.trace[..held], s.trace[held]);
    var r :| Audited(r, Allow, Always(e.scope.rule)) in s.trace[..held];
    granted := IndexOf(s.trace[..held], Audited(r, Allow, Always(e.scope.rule)));
    assert Justified(s.trace[..granted], s.trace[granted]);
    var t, what :| Requested(t, e.req, what) in s.trace[..j] && StandingRules.Matches(e.scope.rule, what);
    tool, pattern := Reading(e.scope.rule, what);
    assert what == StandingRules.Request(tool, Some(what.matchTarget.value));
  }

  lemma Reading(rule: string, what: StandingRules.Request) returns (tool: string, pattern: string)
    requires StandingRules.IsRule(rule) && StandingRules.Matches(rule, what)
    ensures StandingRules.RuleText(rule, tool, pattern)
    ensures what.tool == tool && what.matchTarget.Some? && StandingRules.Glob(pattern, what.matchTarget.value)
  {
    var colon := StandingRules.IndexOfColon(rule);
    tool, pattern := rule[..colon], rule[colon + 1..];
    StandingRules.RuleMeaning(rule, tool, pattern, what);
  }

  // ---------------------------------------------------------------- refused answers

  /** Only one step asks, and only one ends a turn. */
  ghost predicate Between(more: seq<Effect>) {
    forall e | e in more :: !e.Requested? && !e.TurnEnded?
  }

  /** Only the continuation of an answer in flight tells of a refusal. */
  ghost predicate RefusedBy(s: State, a: Action, r: Req) {
    && a.Continue? && a.r == r && a.response.NoChild?
    && r in s.flows && InFlight(s, s.flows[r].turn, r)
  }

  lemma FinalizedAdds(s: State, r: Req, response: Response) returns (more: seq<Effect>)
    requires r in s.flows && s.flows[r].turn in s.slots
    ensures Finalized(s, r, response).trace == s.trace + more && Between(more)
    ensures forall x | Refused(x) in more :: RefusedBy(s, Continue(r, response), x)
  {
    var flow := s.flows[r];
    if r !in s.slots[flow.turn].inFlight {
      more := [];
    } else {
      var held := if flow.stage.Durable? && flow.scope.Always? then [RuleHeld(flow.scope.rule)] else [];
      more := held + [Responded(r, ToldDecision(flow)), Ending(flow, r, response)];
    }
  }

  lemma StepAdds(v: Vendor, s: State, a: Action) returns (more: seq<Effect>)
    requires Enabled(v, s, a)
    ensures Next(v, s, a).trace == s.trace + more
    ensures match a
      case Ask(r, what) => more == [Requested(s.turn.value, r, what)]
      case EndTurn => more == [TurnEnded(s.turn.value)]
      case _ => Between(more)
    ensures forall x | Refused(x) in more :: RefusedBy(s, a, x)
  {
    hide FirstMatch, CanRespond, StandingRules.IsRule, Finalized;
    if a.Continue? {
      more := FinalizedAdds(s, a.r, a.response);
    } else {
      var later := Next(v, s, a).trace;
      more := later[|s.trace|..];
    }
  }

  lemma StepTurn(v: Vendor, s: State, a: Action)
    requires Enabled(v, s, a)
    ensures Next(v, s, a).turn == match a case StartTurn(t) => Some(t) case EndTurn => None case _ => s.turn
  {
    hide FirstMatch, CanRespond, StandingRules.IsRule;
  }

  lemma {:induction false} TraceGrows(v: Vendor, s: State, acts: seq<Action>, end: State)
    requires Path(v, s, acts, end)
    ensures s.trace <= end.trace
    decreases |acts|
  {
    hide Next, Enabled;
    if acts != [] {
      var more := StepAdds(v, s, acts[0]);
      TraceGrows(v, Next(v, s, acts[0]), acts[1..], end);
    }
  }

  lemma SettledOnce(trace: seq<Effect>, r: Req)
    requires Lawful(trace) && WasRefused(trace, r)
    ensures !IsResolved(trace, r)
  {
    var j := IndexOf(trace, Refused(r));
    assert Justified(trace[..j], trace[j]);
    forall i | 0 <= i < |trace| && trace[i].Resolved? ensures trace[i].req != r {
      assert Justified(trace[..i], trace[i]);
      if i < j { ResolvedIn(trace[..j], i); } else { assert trace[..i][j] == Refused(r); }
    }
  }

  /** No continuation resolves the request. */
  ghost predicate NeverResolved(v: Vendor, s: State, r: Req) {
    forall acts, end | Path(v, s, acts, end) :: !IsResolved(end.trace, r)
  }

  /** A request whose answer the adapter has refused is never resolved. */
  lemma RefusedForever(v: Vendor, s: State, r: Req)
    requires Inv(s) && WasRefused(s.trace, r)
    ensures NeverResolved(v, s, r)
  {
    forall acts, end | Path(v, s, acts, end) ensures !IsResolved(end.trace, r) {
      TraceGrows(v, s, acts, end);
      PathKeepsInv(v, s, acts, end);
      assert WasRefused(end.trace, r) by { assert s.trace <= end.trace; }
      SettledOnce(end.trace, r);
    }
  }

  // ---------------------------------------------------------------- the child's exit

  /** The step that handles an exit cancels every request then pending or in flight. */
  lemma SweepCancels(v: Vendor, s: State, r: Req) returns (i: nat)
    requires Reachable(v, s) && s.turn.Some? && (IsPending(s, s.turn.value, r) || InFlight(s, s.turn.value, r))
    requires Enabled(v, s, Exited)
    ensures |s.trace| <= i < |Next(v, s, Exited).trace|
    ensures Next(v, s, Exited).trace[i] == Resolved(s.turn.value, r, Deny, Cancelled)
  {
    var t := s.turn.value;
    var rs := Outstanding(s.slots[t]);
    assert r in rs;
    var k :| 0 <= k < |rs| && rs[k] == r;
    i := |s.trace| + k;
  }

  /** After that step a request of the live turn is resolved if and only if no answer to it was
      refused before; and if it was, it never will be. */
  lemma SweptExactly(v: Vendor, s: State, r: Req)
    requires Reachable(v, s) && s.turn.Some? && Enabled(v, s, Exited) && WasRequested(s.trace, s.turn.value, r)
    ensures IsResolved(Next(v, s, Exited).trace, r) <==> !WasRefused(s.trace, r)
    ensures NeverResolved(v, Next(v, s, Exited), r) <==> WasRefused(s.trace, r)
    ensures TurnEnded(s.turn.value) !in Next(v, s, Exited).trace
  {
    ReachableInv(v, s);
    ExitedKeeps(v, s);
    var later := Next(v, s, Exited);
    if WasRefused(s.trace, r) {
      assert s.trace <= later.trace;
      SettledOnce(later.trace, r);
      RefusedForever(v, later, r);
    } else {
      assert Path(v, later, [], later);
    }
    assert LiveInv(later, s.turn.value);
  }

  lemma ResolvedGrows(trace: seq<Effect>, longer: seq<Effect>, r: Req)
    requires trace <= longer
    ensures IsResolved(trace, r) ==> IsResolved(longer, r)
  {
    if IsResolved(trace, r) {
      var t, d, why :| Resolved(t, r, d, why) in trace;
      assert Resolved(t, r, d, why) in longer;
    }
  }

  /** When the child's exit is handled while its turn is live, each request of the turn is
      resolved before any `turn.ended` of that turn, whatever follows, if and only if no answer
      to it had been refused. */
  lemma ExitResolvesAll(v: Vendor, s: State, acts: seq<Action>, end: State, r: Req, k: nat)
    requires Reachable(v, s) && s.turn.Some? && Enabled(v, s, Exited) && Path(v, Next(v, s, Exited), acts, end)
    requires WasRequested(s.trace, s.turn.value, r)
    requires k < |end.trace| && end.trace[k] == TurnEnded(s.turn.value)
    ensures IsResolved(end.trace[..k], r) <==> !WasRefused(s.trace, r)
  {
    var later := Next(v, s, Exited);
    SweptExactly(v, s, r);
    TraceGrows(v, later, acts, end);
    assert forall i | 0 <= i < |later.trace| :: end.trace[i] == later.trace[i] != TurnEnded(s.turn.value);
    ResolvedGrows(later.trace, end.trace[..k], r);
    ResolvedGrows(end.trace[..k], end.trace, r);
  }

  // ---------------------------------------------------------------- the end of a turn

  /** A request of a turn that is over, unresolved. */
  ghost predicate Over(s: State, t: Turn, r: Req) {
    s.turn != Some(t) && t in s.slots && WasRequested(s.trace, t, r) && !IsResolved(s.trace, r)
  }

  lemma OverStaysResolving(v: Vendor, s: State, a: Action, t: Turn, r: Req)
    requires Inv(s) && Enabled(v, s, a) && Over(s, t, r) && !v.carries
    ensures !IsResolved(Next(v, s, a).trace, r)
  {
    match a
    case Continue(x, response) =>
      var flow := s.flows[x];
      assert SlotInv(s.trace, s.flows, flow.turn, s.slots[flow.turn]);
      if x in s.slots[flow.turn].inFlight {
        assert Open(s.trace, flow.turn, x);
        var s1 := Told(s, flow, x);
        ToldResolves(s, flow, x, r);
        ResolvedSnoc(s1.trace, Ending(flow, x, response));
      }
    case Exited =>
      if s.turn.Some? {
        LiveOutstanding(s, s.turn.value);
        SweepLawful(s.trace, s.turn.value, Outstanding(s.slots[s.turn.value]));
        assert forall x | x in Outstanding(s.slots[s.turn.value]) :: WasRequested(s.trace, s.turn.value, x);
      }
    case _ => OthersResolveNothing(v, s, a, r);
  }

  lemma ToldResolves(s: State, flow: Flow, x: Req, r: Req)
    ensures IsResolved(Told(s, flow, x).trace, r) <==> IsResolved(s.trace, r)
  {
    ResolvedSnoc(s.trace, RuleHeld(if flow.scope.Always? then flow.scope.rule else ""));
    var s1 := if flow.stage.Durable? && flow.scope.Always? then Held(s, flow.scope.rule) else s;
    ResolvedSnoc(s1.trace, Responded(x, ToldDecision(flow)));
  }

  lemma OthersResolveNothing(v: Vendor, s: State, a: Action, r: Req)
    requires Enabled(v, s, a) && !a.Continue? && !a.Exited?
    ensures IsResolved(Next(v, s, a).trace, r) ==> IsResolved(s.trace, r)
  {
    hide FirstMatch, StandingRules.IsRule;
    if IsResolved(Next(v, s, a).trace, r) {
      var t, d, why :| Resolved(t, r, d, why) in Next(v, s, a).trace;
      assert Resolved(t, r, d, why) in s.trace;
    }
  }

  lemma OverStays(v: Vendor, s: State, a: Action, t: Turn, r: Req)
    requires Inv(s) && Enabled(v, s, a) && Over(s, t, r) && !v.carries
    ensures Over(Next(v, s, a), t, r)
  {
    OverStaysResolving(v, s, a, t, r);
    StepKeepsInv(v, s, a);
    var more := StepAdds(v, s, a);
    var w :| Requested(t, r, w) in s.trace;
    assert Requested(t, r, w) in Next(v, s, a).trace && WasRequested(Next(v, s, a).trace, t, r);
    hide IsResolved, WasRequested, Inv, FirstMatch, CanRespond;
  }

  lemma {:induction false} OverForever(v: Vendor, s: State, acts: seq<Action>, end: State, t: Turn, r: Req)
    requires Inv(s) && Over(s, t, r) && !v.carries && Path(v, s, acts, end)
    ensures !IsResolved(end.trace, r)
    decreases |acts|
  {
    hide Next, Enabled, Inv;
    if acts != [] {
      StepKeepsInv(v, s, acts[0]);
      OverStays(v, s, acts[0], t, r);
      OverForever(v, Next(v, s, acts[0]), acts[1..], end, t, r);
    }
  }

  /** A request left pending in a turn whose slot is no longer live, and not about to be
      approved by a rule. */
  ghost predicate Orphaned(s: State, t: Turn, r: Req) {
    && IsPending(s, t, r) && s.turn != Some(t) && r !in s.auto
    && WasRequested(s.trace, t, r) && !IsResolved(s.trace, r)
  }

  lemma PendingStays(v: Vendor, s: State, a: Action, t: Turn, r: Req)
    requires Inv(s) && Enabled(v, s, a) && Orphaned(s, t, r)
    ensures IsPending(Next(v, s, a), t, r)
  {
    match a
    case Ask(x, what) =>
    case AutoApprove(x) => if IsPending(s, s.auto[x].0, x) { TakenStays(s, s.auto[x].0, x, t, r); }
    case Answer(x, decision, rule) => TakenStays(s, s.turn.value, x, t, r);
    case _ =>
  }

  lemma TakenStays(s: State, u: Turn, x: Req, t: Turn, r: Req)
    requires SlotsInv(s) && IsPending(s, t, r) && u in s.slots && (x != r || u != t)
    ensures r in Reqs(s.slots[u := Taken(s.slots[u], x)][t].pending)
  {
    assert SlotInv(s.trace, s.flows, u, s.slots[u]);
    DropSpec(s.slots[u].pending, x);
  }

  lemma OrphanStays(v: Vendor, s: State, a: Action, t: Turn, r: Req)
    requires Inv(s) && Enabled(v, s, a) && Orphaned(s, t, r)
    ensures Orphaned(Next(v, s, a), t, r)
  {
    StepKeepsInv(v, s, a);
    PendingStays(v, s, a, t, r);
    var later := Next(v, s, a);
    assert SlotInv(later.trace, later.flows, t, later.slots[t]) && Open(later.trace, t, r);
    NoNewAuto(v, s, a, t, r);
  }

  lemma NoNewAuto(v: Vendor, s: State, a: Action, t: Turn, r: Req)
    requires Inv(s) && Enabled(v, s, a) && Orphaned(s, t, r)
    ensures r !in Next(v, s, a).auto && Next(v, s, a).turn != Some(t)
  {
    var w :| Requested(t, r, w) in s.trace;
  }

  lemma {:induction false} OrphanForever(v: Vendor, s: State, acts: seq<Action>, end: State, t: Turn, r: Req)
    requires Inv(s) && Orphaned(s, t, r) && Path(v, s, acts, end)
    ensures !IsResolved(end.trace, r)
    decreases |acts|
  {
    if acts != [] {
      StepKeepsInv(v, s, acts[0]);
      OrphanStays(v, s, acts[0], t, r);
      OrphanForever(v, Next(v, s, acts[0]), acts[1..], end, t, r);
    }
  }

  /** A request whose record is settled can be finished, if the adapter takes the answer. */
  lemma SettledLands(v: Vendor, s: State, t: Turn, r: Req)
    requires Inv(s) && Takes(v, s, t) && InFlight(s, t, r) && !s.flows[r].stage.Appending?
    ensures Enabled(v, s, Continue(r, Delivered)) && IsResolved(Next(v, s, Continue(r, Delivered)).trace, r)
  {
    assert SlotInv(s.trace, s.flows, t, s.slots[t]);
    var flow, later := s.flows[r], Next(v, s, Continue(r, Delivered));
    assert later.trace[|later.trace| - 1].Resolved? && later.trace[|later.trace| - 1].req == r;
    ResolvedIn(later.trace, |later.trace| - 1);
  }

  /** So can any request in flight. */
  lemma FlightLands(v: Vendor, s: State, t: Turn, r: Req) returns (acts: seq<Action>, end: State)
    requires Inv(s) && Takes(v, s, t) && InFlight(s, t, r)
    ensures Path(v, s, acts, end) && IsResolved(end.trace, r)
  {
    assert SlotInv(s.trace, s.flows, t, s.slots[t]);
    if s.flows[r].stage.Appending? {
      var mid := Next(v, s, AppendDone(r, true));
      AppendDoneKeeps(v, s, r, true);
      SettledLands(v, mid, t, r);
      end := Next(v, mid, Continue(r, Delivered));
      TwoSteps(v, s, AppendDone(r, true), Continue(r, Delivered));
      acts := [AppendDone(r, true), Continue(r, Delivered)];
    } else {
      SettledLands(v, s, t, r);
      end := Next(v, s, Continue(r, Delivered));
      OneStep(v, s, Continue(r, Delivered), [], end);
      acts := [Continue(r, Delivered)] + [];
    }
  }

  lemma OneStep(v: Vendor, s: State, a: Action, acts: seq<Action>, end: State)
    requires Enabled(v, s, a) && Path(v, Next(v, s, a), acts, end)
    ensures Path(v, s, [a] + acts, end)
  {
    hide Enabled, Next;
    assert ([a] + acts)[1..] == acts;
  }

  lemma TwoSteps(v: Vendor, s: State, a: Action, b: Action)
    requires Enabled(v, s, a) && Enabled(v, Next(v, s, a), b)
    ensures Path(v, s, [a, b], Next(v, Next(v, s, a), b))
  {
    hide Enabled, Next;
    var mid := Next(v, s, a);
    OneStep(v, mid, b, [], Next(v, mid, b));
    OneStep(v, s, a, [b] + [], Next(v, mid, b));
    assert [a] + ([b] + []) == [a, b];
  }

  /** A rule that has been matched can still take the request, and that can be finished. */
  lemma MatchedLands(v: Vendor, s: State, t: Turn, r: Req) returns (acts: seq<Action>, end: State)
    requires Inv(s) && Takes(v, s, t) && IsPending(s, t, r) && r in s.auto
    ensures Path(v, s, acts, end) && IsResolved(end.trace, r)
  {
    var mid := Next(v, s, AutoApprove(r));
    assert AutoInv(s.trace, r, s.auto[r].0, s.auto[r].1) && SlotInv(s.trace, s.flows, t, s.slots[t]);
    assert Open(s.trace, t, r) && WasRequested(s.trace, s.auto[r].0, r);
    AutoApproveKeeps(v, s, r);
    acts, end := FlightLands(v, mid, t, r);
    OneStep(v, s, AutoApprove(r), acts, end);
    acts := [AutoApprove(r)] + acts;
  }

  lemma SlotsGrow(v: Vendor, s: State, a: Action)
    requires Enabled(v, s, a)
    ensures forall u | u in Next(v, s, a).slots :: u in s.slots || a == StartTurn(u)
  {
    hide FirstMatch, CanRespond, StandingRules.IsRule;
  }

  /** There is always a turn id left. */
  lemma {:induction false} TurnsBounded(v: Vendor, s: State, acts: seq<Action>, end: State, bound: Turn) returns (b: Turn)
    requires Path(v, s, acts, end) && forall t | t in s.slots :: t < bound
    ensures forall t | t in end.slots :: t < b
    decreases |acts|
  {
    hide Next, Enabled;
    b := bound;
    if acts != [] {
      SlotsGrow(v, s, acts[0]);
      var next := if acts[0].StartTurn? && bound <= acts[0].t then acts[0].t + 1 else bound;
      b := TurnsBounded(v, Next(v, s, acts[0]), acts[1..], end, next);
    }
  }

  lemma FreshTurn(v: Vendor, s: State) returns (t: Turn)
    requires Reachable(v, s)
    ensures t !in s.slots
  {
    var init, acts :| Init(init) && Path(v, init, acts, s);
    t := TurnsBounded(v, init, acts, s, 0);
  }

  lemma NextTurn(v: Vendor, s: State, u: Turn) returns (later: State)
    requires Inv(s) && s.turn.None? && u !in s.slots
    ensures Enabled(v, s, StartTurn(u)) && Enabled(v, Next(v, s, StartTurn(u)), Send)
    ensures later == Next(v, Next(v, s, StartTurn(u)), Send) && Inv(later)
    ensures later == s.(turn := Some(u), open := true, child := true, slots := s.slots[u := Slot([], [])])
  {
    StartKeeps(v, s, u);
    SendKeeps(v, Next(v, s, StartTurn(u)));
    later := Next(v, Next(v, s, StartTurn(u)), Send);
  }

  /** An adapter that takes answers over into the next turn can still be told of a request that
      was in flight, or matched by a rule, when its turn ended. */
  lemma EndedLands(v: Vendor, s: State, r: Req, u: Turn) returns (acts: seq<Action>, end: State)
    requires Inv(s) && v.carries && s.turn.Some? && Enabled(v, s, EndTurn) && u !in s.slots
    requires InFlight(s, s.turn.value, r) || (IsPending(s, s.turn.value, r) && r in s.auto)
    ensures Path(v, Next(v, s, EndTurn), acts, end) && IsResolved(end.trace, r)
  {
    var t, ended := s.turn.value, Next(v, s, EndTurn);
    EndKeeps(v, s);
    var later := NextTurn(v, ended, u);
    if InFlight(s, t, r) {
      acts, end := FlightLands(v, later, t, r);
    } else {
      acts, end := MatchedLands(v, later, t, r);
    }
    hide Enabled, Next, Inv;
    OneStep(v, Next(v, ended, StartTurn(u)), Send, acts, end);
    OneStep(v, ended, StartTurn(u), [Send] + acts, end);
    acts := [StartTurn(u)] + ([Send] + acts);
  }

  /** What a `turn.ended` does to the requests of its turn. With an adapter that binds an answer
      to its turn, those not resolved by then never are. One that takes answers over can still
      resolve those whose answer is under way and has not been refused. */
  lemma TurnEndedSplits(v: Vendor, s: State, r: Req)
    requires Reachable(v, s) && s.turn.Some? && Enabled(v, s, EndTurn) && WasRequested(s.trace, s.turn.value, r)
    ensures NeverResolved(v, Next(v, s, EndTurn), r) <==>
      && !IsResolved(s.trace, r)
      && (!v.carries || WasRefused(s.trace, r) || (IsPending(s, s.turn.value, r) && r !in s.auto))
  {
    ReachableInv(v, s);
    var t, later := s.turn.value, Next(v, s, EndTurn);
    EndKeeps(v, s);
    LiveOutstanding(s, t);
    ResolvedSnoc(s.trace, TurnEnded(t));
    RequestedSnoc(s.trace, TurnEnded(t));
    if IsResolved(s.trace, r) {
      assert Path(v, later, [], later);
    } else if WasRefused(s.trace, r) {
      RefusedForever(v, later, r);
    } else if !v.carries {
      forall acts, end | Path(v, later, acts, end) ensures !IsResolved(end.trace, r) { OverForever(v, later, acts, end, t, r); }
    } else if IsPending(s, t, r) && r !in s.auto {
      forall acts, end | Path(v, later, acts, end) ensures !IsResolved(end.trace, r) { OrphanForever(v, later, acts, end, t, r); }
    } else {
      var u := FreshTurn(v, s);
      var acts, end := EndedLands(v, s, r, u);
    }
  }

  // ---------------------------------------------------------------- the promise of resolution

  /** Every request of a turn has been resolved by the time the turn is reported as ended. */
  ghost predicate Kept(trace: seq<Effect>) {
    forall k | 0 <= k < |trace| && trace[k].TurnEnded? :: AllResolvedBy(trace, trace[k].turn, k)
  }

  ghost predicate AllResolvedBy(trace: seq<Effect>, t: Turn, k: nat)
    requires k <= |trace|
  {
    forall r | WasRequested(trace, t, r) :: IsResolved(trace[..k], r)
  }

  lemma KeptBetween(trace: seq<Effect>, more: seq<Effect>)
    requires Kept(trace) && Between(more)
    ensures Kept(trace + more)
  {
    var longer := trace + more;
    assert forall x | |trace| <= x < |longer| :: longer[x] in more;
    forall k | 0 <= k < |longer| && longer[k].TurnEnded? ensures AllResolvedBy(longer, longer[k].turn, k) {
      assert AllResolvedBy(trace, longer[k].turn, k) && longer[..k] == trace[..k];
      forall r | WasRequested(longer, longer[k].turn, r) ensures IsResolved(longer[..k], r) {
        var w :| Requested(longer[k].turn, r, w) in longer;
        assert Requested(longer[k].turn, r, w) in trace;
      }
    }
  }

  lemma KeptAsking(trace: seq<Effect>, e: Effect)
    requires Kept(trace) && e.Requested? && TurnEnded(e.turn) !in trace
    ensures Kept(trace + [e])
  {
    var longer := trace + [e];
    RequestedSnoc(trace, e);
    forall k | 0 <= k < |longer| && longer[k].TurnEnded? ensures AllResolvedBy(longer, longer[k].turn, k) {
      assert trace[k] == longer[k] && AllResolvedBy(trace, longer[k].turn, k) && longer[..k] == trace[..k];
    }
  }

  lemma KeptEnding(trace: seq<Effect>, t: Turn)
    requires Kept(trace) && forall r | WasRequested(trace, t, r) :: IsResolved(trace, r)
    ensures Kept(trace + [TurnEnded(t)])
  {
    var longer := trace + [TurnEnded(t)];
    RequestedSnoc(trace, TurnEnded(t));
    forall k | 0 <= k < |longer| && longer[k].TurnEnded? ensures AllResolvedBy(longer, longer[k].turn, k) {
      if k < |trace| {
        assert trace[k] == longer[k] && AllResolvedBy(trace, longer[k].turn, k) && longer[..k] == trace[..k];
      } else {
        assert longer[..k] == trace;
      }
    }
  }

  /** With an adapter that neither refuses nor ends a turn early: its child lives only in an open
      turn, and no answer of the live turn has been refused. */
  ghost predicate Calm(s: State) {
    && (s.child ==> s.open) && Kept(s.trace)
    && (s.turn.Some? ==> NoneRefused(s.trace, s.turn.value))
  }

  ghost predicate NoneRefused(trace: seq<Effect>, t: Turn) {
    forall r | WasRequested(trace, t, r) :: !WasRefused(trace, r)
  }

  /** A refusal in the live turn takes an adapter that refuses. */
  lemma NewRefusal(v: Vendor, s: State, a: Action, t: Turn, r: Req)
    requires Inv(s) && (s.child ==> s.open) && !v.refuses && Enabled(v, s, a) && s.turn == Some(t) && RefusedBy(s, a, r)
    ensures !WasRequested(s.trace, t, r)
  {
    var flow := s.flows[r];
    assert SlotInv(s.trace, s.flows, flow.turn, s.slots[flow.turn]) && Open(s.trace, flow.turn, r);
    assert LiveInv(s, t);
    assert flow.turn != t;
  }

  /** A turn that starts has no requests yet. */
  lemma NoneAsked(v: Vendor, s: State, t: Turn)
    requires Inv(s) && Enabled(v, s, StartTurn(t))
    ensures NoneRefused(Next(v, s, StartTurn(t)).trace, t)
  {
  }

  lemma CalmRefusal(v: Vendor, s: State, a: Action, more: seq<Effect>, t: Turn, r: Req)
    requires Inv(s) && Calm(s) && !v.refuses && Enabled(v, s, a) && s.turn == Some(t)
    requires forall x | Refused(x) in more :: RefusedBy(s, a, x)
    requires if a.Ask? then more == [Requested(t, a.r, a.what)] else Between(more)
    requires WasRequested(s.trace + more, t, r)
    ensures !WasRefused(s.trace + more, r)
  {
    var w :| Requested(t, r, w) in s.trace + more;
    if a.Ask? && a.r == r {
      NewIsUnheard(v, s, r, a.what);
    } else {
      assert Requested(t, r, w) in s.trace && WasRequested(s.trace, t, r);
      if Refused(r) in more { NewRefusal(v, s, a, t, r); }
    }
  }

  lemma CalmRefusals(v: Vendor, s: State, a: Action)
    requires Inv(s) && Calm(s) && !v.refuses && Enabled(v, s, a) && Next(v, s, a).turn.Some?
    ensures NoneRefused(Next(v, s, a).trace, Next(v, s, a).turn.value)
  {
    hide Next, Kept, CanRespond, SlotsInv, Lawful;
    var more := StepAdds(v, s, a);
    StepTurn(v, s, a);
    var later, t := Next(v, s, a).trace, Next(v, s, a).turn.value;
    if a.StartTurn? {
      NoneAsked(v, s, t);
      return;
    }
    forall r | WasRequested(later, t, r) ensures !WasRefused(later, r) { CalmRefusal(v, s, a, more, t, r); }
  }

  lemma CalmKept(v: Vendor, s: State, a: Action)
    requires Inv(s) && Calm(s) && !v.early && Enabled(v, s, a)
    ensures Kept(Next(v, s, a).trace)
  {
    var more := StepAdds(v, s, a);
    if a.Ask? {
      assert LiveInv(s, s.turn.value);
      KeptAsking(s.trace, more[0]);
    } else if a.EndTurn? {
      assert LiveInv(s, s.turn.value);
      KeptEnding(s.trace, s.turn.value);
    } else {
      KeptBetween(s.trace, more);
    }
  }

  lemma {:induction false} PathCalm(v: Vendor, s: State, acts: seq<Action>, end: State)
    requires Inv(s) && Calm(s) && !v.early && !v.refuses && Path(v, s, acts, end)
    ensures Kept(end.trace)
    decreases |acts|
  {
    if acts != [] {
      StepKeepsInv(v, s, acts[0]);
      CalmKept(v, s, acts[0]);
      if Next(v, s, acts[0]).turn.Some? { CalmRefusals(v, s, acts[0]); }
      CalmChild(v, s, acts[0]);
      hide Enabled, Next, Inv, Kept, NoneRefused;
      PathCalm(v, Next(v, s, acts[0]), acts[1..], end);
    }
  }

  lemma CalmChild(v: Vendor, s: State, a: Action)
    requires Enabled(v, s, a) && (s.child ==> s.open) && !v.early
    ensures Next(v, s, a).child ==> Next(v, s, a).open
  {
    hide FirstMatch, CanRespond, StandingRules.IsRule;
  }

  /** Every request is resolved before its turn is reported as ended, in every run, if and only if
      the adapter neither refuses an answer while its child and the turn are there, nor ends a
      turn before the child's exit. */
  lemma ResolvedByTheEndExactly(v: Vendor)
    ensures (forall s | Reachable(v, s) :: Kept(s.trace)) <==> !v.refuses && !v.early
  {
    var what := StandingRules.Request("Bash", None);
    if v.early {
      var s := EndsUnresolved(v, what);
    } else if v.refuses {
      var s := RefusedThenEnded(v, what);
    } else {
      forall s | Reachable(v, s) ensures Kept(s.trace) {
        var init, acts :| Init(init) && Path(v, init, acts, s);
        PathCalm(v, init, acts, s);
      }
    }
  }

  // ---------------------------------------------------------------- runs

  lemma {:induction false} PathSnoc(v: Vendor, s: State, acts: seq<Action>, mid: State, a: Action)
    requires Path(v, s, acts, mid) && Enabled(v, mid, a)
    ensures Path(v, s, acts + [a], Next(v, mid, a))
    decreases |acts|
  {
    hide Next, Enabled;
    if acts != [] {
      assert (acts + [a])[1..] == acts[1..] + [a];
      PathSnoc(v, Next(v, s, acts[0]), acts[1..], mid, a);
    }
  }

  lemma Go(v: Vendor, s: State, a: Action) returns (later: State)
    requires Reachable(v, s) && Enabled(v, s, a)
    ensures later == Next(v, s, a) && Reachable(v, later)
  {
    hide Next, Enabled;
    later := Next(v, s, a);
    var init, acts :| Init(init) && Path(v, init, acts, s);
    PathSnoc(v, init, acts, s, a);
  }

  lemma DropOnly(p: Pend)
    ensures Drop([p], p.req) == []
  {
    assert [p][1..] == [];
  }

  lemma WithoutOnly(r: Req)
    ensures Without([r], r) == []
  {
    assert [r][1..] == [];
  }

  /** A first turn, with its child, and nothing asked yet. */
  lemma TurnRun(v: Vendor) returns (s: State)
    ensures Reachable(v, s) && s == State(Some(1), true, true, map[1 := Slot([], [])], [], map[], map[], [])
  {
    var s0 := State(None, false, false, map[], [], map[], map[], []);
    assert Init(s0) && Path(v, s0, [], s0);
    hide Reachable;
    s := Go(v, s0, StartTurn(1));
    s := Go(v, s, Send);
  }

  lemma AskedRun(v: Vendor, what: StandingRules.Request) returns (s: State)
    ensures Reachable(v, s)
    ensures s == State(Some(1), true, true, map[1 := Slot([Pend(1, what)], [])], [], map[], map[], [Requested(1, 1, what)])
  {
    s := TurnRun(v);
    hide Reachable;
    s := Go(v, s, Ask(1, what));
    assert s.slots[1].pending == [Pend(1, what)];
  }

  /** A turn can end with a request pending that is then never resolved. */
  lemma EndsUnresolved(v: Vendor, what: StandingRules.Request) returns (s: State)
    requires v.early
    ensures Reachable(v, s) && s.trace == [Requested(1, 1, what), TurnEnded(1)] && NeverResolved(v, s, 1)
    ensures !Kept(s.trace)
  {
    s := AskedRun(v, what);
    assert Reqs(s.slots[1].pending) == [1] && WasRequested(s.trace, 1, 1);
    OnlyAsked(what);
    TurnEndedSplits(v, s, 1);
    s := Go(v, s, EndTurn);
    NotKept(s.trace, 1, 1, 1);
  }

  lemma OnlyAsked(what: StandingRules.Request)
    ensures !IsResolved([Requested(1, 1, what)], 1)
  {
  }

  lemma NotKept(trace: seq<Effect>, k: nat, t: Turn, r: Req)
    requires k < |trace| && trace[k] == TurnEnded(t) && WasRequested(trace, t, r)
    requires forall i | 0 <= i < k :: !trace[i].Resolved?
    ensures !Kept(trace)
  {
    assert !IsResolved(trace[..k], r);
    assert !AllResolvedBy(trace, trace[k].turn, k);
  }

  lemma AnsweredRun(v: Vendor, what: StandingRules.Request) returns (s: State)
    ensures Reachable(v, s)
    ensures s == State(Some(1), true, true, map[1 := Slot([], [1])], [], map[1 := Flow(1, Allow, Once, Appending)], map[],
                       [Requested(1, 1, what)])
  {
    s := AskedRun(v, what);
    hide Reachable, StandingRules.IsRule, StandingRules.Matches;
    assert Reqs(s.slots[1].pending) == [1];
    s := Go(v, s, Answer(1, Allow, None));
    DropOnly(Pend(1, what));
    assert s.slots[1] == Slot([], [1]);
    assert s.slots == map[1 := Slot([], [1])] && s.flows == map[1 := Flow(1, Allow, Once, Appending)];
  }

  /** The operator interrupts while the record of an answer is being written; the adapter refuses
      the answer, the exit finds nothing to cancel, and the turn ends. */
  lemma RefusedThenEnded(v: Vendor, what: StandingRules.Request) returns (s: State)
    requires v.refuses
    ensures Reachable(v, s) && NeverResolved(v, s, 1) && !Kept(s.trace)
    ensures s.trace == [Requested(1, 1, what), Audited(1, Allow, Once), Responded(1, Allow), Refused(1), TurnEnded(1)]
  {
    s := AnsweredRun(v, what);
    hide Reachable, Inv;
    s := RefusedInTurn(v, s, what);
    s := ExitedAndEnded(v, s, 1);
    assert s.trace[3] == Refused(1) && s.trace[0] == Requested(1, 1, what) && WasRequested(s.trace, 1, 1);
    ReachableInv(v, s);
    RefusedForever(v, s, 1);
    NotKept(s.trace, 4, 1, 1);
  }

  lemma RefusedInTurn(v: Vendor, s0: State, what: StandingRules.Request) returns (s: State)
    requires v.refuses && Reachable(v, s0)
    requires s0 == State(Some(1), true, true, map[1 := Slot([], [1])], [], map[1 := Flow(1, Allow, Once, Appending)], map[],
                         [Requested(1, 1, what)])
    ensures Reachable(v, s) && s.turn == Some(1) && s.slots == map[1 := Slot([], [])]
    ensures s.trace == [Requested(1, 1, what), Audited(1, Allow, Once), Responded(1, Allow), Refused(1)]
  {
    hide Reachable;
    s := Go(v, s0, AppendDone(1, true));
    s := Go(v, s, Continue(1, NoChild));
    WithoutOnly(1);
  }

  lemma ExitedAndEnded(v: Vendor, s0: State, t: Turn) returns (s: State)
    requires Reachable(v, s0) && s0.turn == Some(t) && s0.slots == map[t := Slot([], [])]
    ensures Reachable(v, s) && s.trace == s0.trace + [TurnEnded(t)]
  {
    hide Reachable;
    s := Go(v, s0, Exited);
    assert Reqs([]) == [] && s.trace == s0.trace;
    s := Go(v, s, EndTurn);
  }

  /** An answer under way when its turn ends is taken by the next turn's child, and its request
      is resolved behind the end of its turn. */
  lemma CarriedOver(v: Vendor, what: StandingRules.Request) returns (s: State)
    requires v.early && v.carries
    ensures Reachable(v, s)
    ensures s.trace == [Requested(1, 1, what), TurnEnded(1), Audited(1, Allow, Once), Responded(1, Allow), Resolved(1, 1, Allow, Answered)]
  {
    s := AnsweredRun(v, what);
    hide Reachable;
    s := Go(v, s, EndTurn);
    s := Go(v, s, StartTurn(2));
    s := Go(v, s, Send);
    s := TakenOver(v, s, what);
  }

  lemma TakenOver(v: Vendor, s0: State, what: StandingRules.Request) returns (s: State)
    requires v.carries && Reachable(v, s0) && s0.open && s0.child && 1 in s0.slots && s0.slots[1] == Slot([], [1])
    requires s0.flows == map[1 := Flow(1, Allow, Once, Appending)] && s0.trace == [Requested(1, 1, what), TurnEnded(1)]
    ensures Reachable(v, s)
    ensures s.trace == s0.trace + [Audited(1, Allow, Once), Responded(1, Allow), Resolved(1, 1, Allow, Answered)]
  {
    hide Reachable;
    s := Go(v, s0, AppendDone(1, true));
    s := Go(v, s, Continue(1, Delivered));
  }

  /** An operator answers with a rule. */
  lemma AnswerRun(v: Vendor, rule: string, what: StandingRules.Request) returns (s: State)
    requires what.matchTarget.Some? && StandingRules.IsRule(rule)
    ensures Reachable(v, s)
    ensures s == State(Some(1), true, true, map[1 := Slot([], [1])], [], map[1 := Flow(1, Allow, Always(rule), Appending)], map[],
                       [Requested(1, 1, what)])
  {
    s := AskedRun(v, what);
    hide Reachable, StandingRules.IsRule, StandingRules.Matches;
    assert Reqs(s.slots[1].pending) == [1];
    s := Go(v, s, Answer(1, Allow, Some(rule)));
    DropOnly(Pend(1, what));
    assert s.slots[1] == Slot([], [1]);
    assert s.slots == map[1 := Slot([], [1])] && s.flows == map[1 := Flow(1, Allow, Always(rule), Appending)];
  }

  /** The rule is granted. */
  lemma GrantRun(v: Vendor, rule: string, what: StandingRules.Request) returns (s: State)
    requires what.matchTarget.Some? && StandingRules.IsRule(rule)
    ensures Reachable(v, s) && s.turn == Some(1) && s.open && s.child && s.rules == [rule]
    ensures s.flows == map[] && s.auto == map[] && s.slots == map[1 := Slot([], [])]
    ensures s.trace == [Requested(1, 1, what), Audited(1, Allow, Always(rule)), RuleHeld(rule), Responded(1, Allow), Resolved(1, 1, Allow, Answered)]
  {
    s := AnswerRun(v, rule, what);
    hide Reachable, StandingRules.IsRule, StandingRules.Matches;
    s := Go(v, s, AppendDone(1, true));
    s := Go(v, s, Continue(1, Delivered));
    WithoutOnly(1);
  }

  /** A later request that the rule matches. */
  lemma MatchedAsk(v: Vendor, rule: string, what: StandingRules.Request) returns (s: State)
    requires StandingRules.IsRule(rule) && StandingRules.Matches(rule, what)
    ensures Reachable(v, s) && s.turn == Some(1) && s.open && s.child && s.slots == map[1 := Slot([Pend(2, what)], [])]
    ensures s.flows == map[] && s.auto == map[2 := (1, rule)]
    ensures |s.trace| == 6 && s.trace[5] == Requested(1, 2, what)
  {
    s := GrantRun(v, rule, what);
    hide Reachable, StandingRules.Matches, StandingRules.IsRule;
    assert [] + [Pend(2, what)] == [Pend(2, what)];
    s := Go(v, s, Ask(2, what));
  }

  /** The rule takes that request. */
  lemma RuleTakes(v: Vendor, rule: string, what: StandingRules.Request) returns (s: State)
    requires StandingRules.IsRule(rule) && StandingRules.Matches(rule, what)
    ensures Reachable(v, s) && s.turn == Some(1) && s.open && s.child && s.slots == map[1 := Slot([], [2])]
    ensures s.flows == map[2 := Flow(1, Allow, Standing(rule), Appending)]
    ensures |s.trace| == 6 && s.trace[5] == Requested(1, 2, what)
  {
    s := MatchedAsk(v, rule, what);
    hide Reachable, StandingRules.Matches, StandingRules.IsRule;
    assert Reqs(s.slots[1].pending) == [2];
    DropOnly(Pend(2, what));
    assert Taken(s.slots[1], 2) == Slot([], [2]);
    s := Go(v, s, AutoApprove(2));
  }

  /** Not all runs end in nothing: with any adapter a granted rule approves a later request it
      matches, which is recorded, told to the adapter and resolved. */
  lemma RuleGoesThrough(v: Vendor, rule: string, what: StandingRules.Request) returns (s: State)
    requires StandingRules.IsRule(rule) && StandingRules.Matches(rule, what)
    ensures Reachable(v, s) && |s.trace| == 9
    ensures s.trace[5..] == [Requested(1, 2, what), Audited(2, Allow, Standing(rule)), Responded(2, Allow), Resolved(1, 2, Allow, Preapproved)]
  {
    s := RuleTakes(v, rule, what);
    hide Reachable, StandingRules.Matches, StandingRules.IsRule;
    WithoutOnly(2);
    s := Go(v, s, AppendDone(2, true));
    s := Go(v, s, Continue(2, Delivered));
  }

  // ---------------------------------------------------------------- the session entry

  const ANY := Vendor(true, true, true)

  datatype Reply = Accepted | TooLate | BadRequest

  /** The mutable half: the live turn, the two maps of each turn, the rules held, and the
      suspended continuations; one method per uninterrupted piece of the source. */
  class PermissionDesk {
    var turn: Option<Turn>
    var open: bool
    var child: bool
    var slots: map<Turn, Slot>
    var rules: seq<string>
    var flows: map<Req, Flow>
    var auto: map<Req, (Turn, string)>
    ghost var trace: seq<Effect>

    ghost function Now(): State
      reads this
    {
      State(turn, open, child, slots, rules, flows, auto, trace)
    }

    constructor ()
      ensures Init(Now())
    {
      turn, open, child, slots, rules, flows, auto, trace := None, false, false, map[], [], map[], map[], [];
    }

    method Started(t: Turn)
      requires Enabled(ANY, Now(), StartTurn(t))
      modifies this
      ensures Now() == Next(ANY, old(Now()), StartTurn(t))
    {
      turn := Some(t);
      slots := slots[t := Slot([], [])];
    }

    /** The adapter is handed the turn and starts its child. */
    method Sent()
      requires Enabled(ANY, Now(), Send)
      modifies this
      ensures Now() == Next(ANY, old(Now()), Send)
    {
      open, child := true, true;
    }

    /** The `event` handler on a `permission.request`. */
    method OnRequest(r: Req, what: StandingRules.Request)
      requires Enabled(ANY, Now(), Ask(r, what))
      modifies this
      ensures Now() == Next(ANY, old(Now()), Ask(r, what))
    {
      var t := turn.value;
      slots := slots[t := slots[t].(pending := slots[t].pending + [Pend(r, what)])];
      var i := 0;
      while i < |rules| && !StandingRules.Matches(rules[i], what)
        invariant i <= |rules| && FirstMatch(rules, what) == FirstMatch(rules[i..], what)
      {
        i := i + 1;
      }
      if i < |rules| { auto := auto[r := (t, rules[i])]; }
      trace := trace + [Requested(t, r, what)];
    }

    method StartAppend(t: Turn, r: Req, decision: Decision, scope: Scope)
      requires t in slots
      modifies this`slots, this`flows
      ensures Now() == Take(old(Now()), t, r, decision, scope)
    {
      slots := slots[t := Taken(slots[t], r)];
      flows := flows[r := Flow(t, decision, scope, Appending)];
    }

    /** `answerPermission`: an answer is refused for its rule (one that does not parse, comes
        with a denial, or has no target to match), comes too late, or is accepted. */
    method AnswerPermission(r: Req, decision: Decision, rule: Option<string>) returns (reply: Reply)
      requires turn.Some? ==> turn.value in slots
      modifies this
      ensures reply.Accepted? <==> Enabled(ANY, old(Now()), Answer(r, decision, rule))
      ensures reply.TooLate? ==> old(turn).None? || !IsPending(old(Now()), old(turn).value, r)
      ensures reply.BadRequest? ==> rule.Some?
      ensures Now() == if reply.Accepted? then Next(ANY, old(Now()), Answer(r, decision, rule)) else old(Now())
    {
      if rule.Some? && (!StandingRules.IsRule(rule.value) || decision == Deny) { return BadRequest; }
      if turn.None? || r !in Reqs(slots[turn.value].pending) { return TooLate; }
      if rule.Some? && What(slots[turn.value].pending, r).matchTarget.None? { return BadRequest; }
      StartAppend(turn.value, r, decision, if rule.Some? then Always(rule.value) else Once);
      return Accepted;
    }

    method ResolvePreapproved(r: Req)
      requires Enabled(ANY, Now(), AutoApprove(r))
      modifies this
      ensures Now() == Next(ANY, old(Now()), AutoApprove(r))
    {
      var (t, rule) := auto[r];
      auto := auto - {r};
      if r in Reqs(slots[t].pending) { StartAppend(t, r, Allow, Standing(rule)); }
    }

    method AppendSettled(r: Req, ok: bool)
      requires Enabled(ANY, Now(), AppendDone(r, ok))
      modifies this
      ensures Now() == Next(ANY, old(Now()), AppendDone(r, ok))
    {
      var flow := flows[r];
      flows := flows[r := flow.(stage := if ok then Durable else Failed)];
      if ok { trace := trace + [Audited(r, flow.decision, flow.scope)]; }
    }

    method FinalizeResolution(r: Req, response: Response)
      requires Enabled(ANY, Now(), Continue(r, response))
      modifies this
      ensures Now() == Next(ANY, old(Now()), Continue(r, response))
    {
      var flow := flows[r];
      var t, slot := flow.turn, slots[flow.turn];
      flows := flows - {r};
      if r !in slot.inFlight { return; }
      if flow.stage.Durable? && flow.scope.Always? {
        rules := rules + [flow.scope.rule];
        trace := trace + [RuleHeld(flow.scope.rule)];
      }
      var decision := if flow.stage.Failed? then Deny else flow.decision;
      trace := trace + [Responded(r, decision)];
      slots := slots[t := slot.(inFlight := Without(slot.inFlight, r))];
      if response.NoChild? {
        trace := trace + [Refused(r)];
      } else if response.WriteFailed? {
        trace := trace + [Resolved(t, r, Deny, Cancelled)];
      } else {
        trace := trace + [Resolved(t, r, decision,
          if flow.stage.Failed? then AuditUnavailable else if flow.scope.Standing? then Preapproved else Answered)];
      }
    }

    method OnExited()
      requires Enabled(ANY, Now(), Exited)
      modifies this
      ensures Now() == Next(ANY, old(Now()), Exited)
    {
      child := false;
      if turn.None? { return; }
      var t := turn.value;
      var cancelled := Reqs(slots[t].pending) + slots[t].inFlight;
      slots := slots[t := Slot([], [])];
      for i := 0 to |cancelled|
        invariant trace == old(trace) + Cancellations(t, cancelled[..i])
        invariant (turn, open, rules, flows, auto) == old((turn, open, rules, flows, auto))
        invariant !child && slots == old(slots)[t := Slot([], [])]
      {
        trace := trace + [Resolved(t, cancelled[i], Deny, Cancelled)];
        assert Cancellations(t, cancelled[..i + 1]) == Cancellations(t, cancelled[..i]) + [Resolved(t, cancelled[i], Deny, Cancelled)];
      }
      assert cancelled[..|cancelled|] == cancelled;
    }

    method OnTurnEnded()
      requires Enabled(ANY, Now(), EndTurn)
      modifies this
      ensures Now() == Next(ANY, old(Now()), EndTurn)
    {
      trace := trace + [TurnEnded(turn.value)];
      turn, open := None, false;
    }
  }
}
