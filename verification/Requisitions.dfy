/**
Requisitions and the sessions that use them up: the registry of `src/records/index.ts` with
its append-only log, and the host effects of `src/session-manager/index.ts` that tie a
requisition to the attempt to create a session. Code runs from one wait to the next without
being interrupted; appends land and report back later, or fail and leave no line. A crash may
come at any time, and a restart folds the log.
*/
module Requisitions {
  import opened Common
  import opened CreateAttempts

  type Rid = nat
  type Who = nat

  datatype Stage = Open | Approved | Rejected | Consumed

  /** What of a requisition changes over its life. */
  datatype Requisition = Requisition(state: Stage, decidedBy: Option<Who>, session: Option<Sid>)

  datatype Line = Line(id: Rid, req: Requisition)

  /** An append that has not reported back; `landed` once its line is in the log. */
  datatype Write = Write(req: Requisition, why: Why, landed: bool)
  datatype Why = Raising | Deciding | Attaching(sid: Sid)

  /** A running commit effect: its append is out; the registry has answered; the host has, too. */
  datatype Effect = AtStore | Answered(ok: bool) | Returned(ok: bool)

  datatype State = State(
    reqs: map<Rid, Requisition>, deciding: set<Rid>, reserved: set<Rid>,
    writing: map<Rid, Write>, log: seq<Line>,
    claimed: map<Sid, Rid>, attempts: map<Sid, Attempt>, prepared: map<Sid, bool>, commits: map<Sid, Effect>)

  datatype Action =
    | Raise(r: Rid) | Decide(r: Rid, who: Who, approve: bool) | Land(r: Rid) | Settle(r: Rid)
    | Prepare(x: Sid, data: Option<Rid>) | PrepareThen(x: Sid)
    | Commit(x: Sid) | HostThen(x: Sid) | CommitThen(x: Sid)
    | Abort(x: Sid) | AbortThen(x: Sid) | Restart

  // ---------------------------------------------------------------- the log

  /** The latest line of each requisition. */
  function Fold(log: seq<Line>): map<Rid, Requisition> {
    if log == [] then map[] else var l := log[|log| - 1]; Fold(log[..|log| - 1])[l.id := l.req]
  }

  /** The sessions that ever used up a requisition, according to the log. */
  ghost function Uses(log: seq<Line>, r: Rid): seq<Option<Sid>> {
    if log == [] then []
    else
      var l := log[|log| - 1];
      Uses(log[..|log| - 1], r) + if l.id == r && l.req.state.Consumed? then [l.req.session] else []
  }

  function Lookup(m: map<Rid, Requisition>, r: Rid): Option<Requisition> {
    if r in m then Some(m[r]) else None
  }

  // ---------------------------------------------------------------- steps

  function Boot(log: seq<Line>): State {
    State(Fold(log), {}, {}, map[], log, map[], map[], map[], map[])
  }

  function AttemptOf(s: State, x: Sid): Attempt {
    if x in s.attempts then s.attempts[x] else FRESH
  }

  predicate CanAct(s: State, a: Action) {
    match a
    case Raise(r) => r !in s.reqs && r !in s.writing && r !in Fold(s.log)
    case Land(r) => r in s.writing && !s.writing[r].landed
    case Settle(r) => r in s.writing
    case PrepareThen(x) => x in s.prepared && Enabled(AttemptOf(s, x), PrepareSettles(s.prepared[x]))
    case HostThen(x) => x in s.commits && s.commits[x].Answered?
    case CommitThen(x) => x in s.commits && s.commits[x].Returned? && Enabled(AttemptOf(s, x), CommitSettles(s.commits[x].ok))
    case AbortThen(x) => Enabled(AttemptOf(s, x), AbortResumes)
    case _ => true
  }

  function Decided(s: State, r: Rid, who: Who, approve: bool): (t: State)
    ensures t.reqs == s.reqs
  {
    if r !in s.reqs || !s.reqs[r].state.Open? || r in s.deciding then s
    else
      var updated := s.reqs[r].(state := if approve then Approved else Rejected, decidedBy := Some(who));
      s.(deciding := s.deciding + {r}, writing := s.writing[r := Write(updated, Deciding, false)])
  }

  predicate CanClaim(s: State, r: Rid) {
    r in s.reqs && s.reqs[r].state.Approved? && r !in s.reserved
  }

  /** An append reports back. Only one that succeeded changes the registry. */
  function Settled(s: State, r: Rid): (t: State)
    requires r in s.writing
    ensures t.reqs == if s.writing[r].landed then s.reqs[r := s.writing[r].req] else s.reqs
    ensures t.writing == s.writing - {r} && t.log == s.log
  {
    var w := s.writing[r];
    var t := s.(writing := s.writing - {r}, reqs := if w.landed then s.reqs[r := w.req] else s.reqs);
    match w.why
    case Raising => t
    case Deciding => t.(deciding := t.deciding - {r})
    case Attaching(x) => t.(reserved := if w.landed then t.reserved - {r} else t.reserved, commits := t.commits[x := Answered(w.landed)])
  }

  /** The host's prepare effect, which answers at once. */
  function HostPrepare(s: State, x: Sid, data: Option<Rid>): (t: State)
    ensures t.reqs == s.reqs && t.writing == s.writing && t.log == s.log
  {
    if data.None? then s.(prepared := s.prepared[x := true])
    else if !CanClaim(s, data.value) then s.(prepared := s.prepared[x := false])
    else s.(prepared := s.prepared[x := true], reserved := s.reserved + {data.value}, claimed := s.claimed[x := data.value])
  }

  /** The host's commit effect, up to its wait for the append. */
  function HostCommit(s: State, x: Sid): (t: State)
    ensures t.reqs == s.reqs
  {
    if x !in s.claimed then s.(commits := s.commits[x := Returned(true)])
    else if s.claimed[x] !in s.reqs then s.(commits := s.commits[x := Answered(false)])
    else
      var r := s.claimed[x];
      var updated := s.reqs[r].(state := Consumed, session := Some(x));
      s.(commits := s.commits[x := AtStore], writing := s.writing[r := Write(updated, Attaching(x), false)])
  }

  /** The host's abort effect. */
  function HostAbort(s: State, x: Sid): (t: State)
    ensures t.reqs == s.reqs && t.writing == s.writing && t.log == s.log
  {
    if x in s.claimed then s.(reserved := s.reserved - {s.claimed[x]}, claimed := s.claimed - {x}) else s
  }

  /** An attempt takes a step; `Attempted` is the state before the effects it calls for. */
  function Attempted(s: State, x: Sid, act: Act): (t: State)
    requires Enabled(AttemptOf(s, x), act)
    ensures t.reqs == s.reqs && t.writing == s.writing && t.log == s.log
  {
    s.(attempts := s.attempts[x := CreateAttempts.Next(AttemptOf(s, x), act).0])
  }

  predicate Calls(s: State, x: Sid, act: Act, e: Event)
    requires Enabled(AttemptOf(s, x), act)
  {
    e in CreateAttempts.Next(AttemptOf(s, x), act).1
  }

  function AbortIfCalled(s: State, x: Sid, act: Act): (t: State)
    requires Enabled(AttemptOf(s, x), act)
    ensures t.reqs == s.reqs && t.writing == s.writing && t.log == s.log
  {
    if Calls(s, x, act, RunAbort) then HostAbort(Attempted(s, x, act), x) else Attempted(s, x, act)
  }

  function Advance(s: State, a: Action): State
    requires CanAct(s, a)
  {
    match a
    case Raise(r) => s.(writing := s.writing[r := Write(Requisition(Open, None, None), Raising, false)])
    case Decide(r, who, approve) => Decided(s, r, who, approve)
    case Land(r) =>
      s.(log := s.log + [Line(r, s.writing[r].req)], writing := s.writing[r := s.writing[r].(landed := true)])
    case Settle(r) => Settled(s, r)
    case Prepare(x, data) =>
      var t := Attempted(s, x, CallPrepare);
      if Calls(s, x, CallPrepare, RunPrepare) then HostPrepare(t, x, data) else t
    case PrepareThen(x) => AbortIfCalled(s, x, PrepareSettles(s.prepared[x]))
    case Commit(x) =>
      var t := Attempted(s, x, CallCommit);
      if Calls(s, x, CallCommit, RunCommit) then HostCommit(t, x) else t
    case HostThen(x) =>
      var ok := s.commits[x].ok;
      s.(claimed := if ok then s.claimed - {x} else s.claimed, commits := s.commits[x := Returned(ok)])
    case CommitThen(x) =>
      var t := AbortIfCalled(s, x, CommitSettles(s.commits[x].ok));
      t.(commits := t.commits - {x})
    case Abort(x) => AbortIfCalled(s, x, CallAbort)
    case AbortThen(x) => AbortIfCalled(s, x, AbortResumes)
    case Restart => Boot(s.log)
  }

  ghost predicate Path(s: State, acts: seq<Action>, end: State)
    decreases |acts|
  {
    if acts == [] then s == end else CanAct(s, acts[0]) && Path(Advance(s, acts[0]), acts[1..], end)
  }

  ghost predicate Reachable(s: State) {
    exists acts :: Path(Boot([]), acts, s)
  }

  // ---------------------------------------------------------------- what every run keeps

  /** An attempt that may still lead to a session. */
  predicate Holding(a: Attempt) {
    (a.state.New? && a.preparation.Running?) || a.state.Prepared? || a.state.Committing?
  }

  /** The append for `x` has succeeded, and the host has not heard of it yet. */
  predicate Attached(s: State, x: Sid) {
    x in s.commits && s.commits[x] == Answered(true)
  }

  ghost predicate ClaimInv(s: State, x: Sid)
    requires x in s.claimed
  {
    var r := s.claimed[x];
    && x in s.attempts && Holding(s.attempts[x]) && x in s.prepared && s.prepared[x]
    && (x in s.commits ==> s.commits[x] != Returned(true))
    && r in s.reqs
    && (if Attached(s, x) then s.reqs[r].state.Consumed? && r !in s.reserved else r in s.reserved)
  }

  ghost predicate Claims(s: State) {
    && (forall x | x in s.claimed :: ClaimInv(s, x))
    && (forall x, y | x in s.claimed && y in s.claimed && x != y :: s.claimed[x] != s.claimed[y])
  }

  ghost predicate Owned(s: State, r: Rid) {
    exists x :: x in s.claimed && s.claimed[x] == r
  }

  ghost predicate Reservations(s: State) {
    forall r | r in s.reserved :: r in s.reqs && s.reqs[r].state.Approved? && Owned(s, r)
  }

  ghost predicate WriteInv(s: State, r: Rid)
    requires r in s.writing
  {
    var w := s.writing[r];
    match w.why
    case Raising => r !in s.reqs && w.req == Requisition(Open, None, None)
    case Deciding => r in s.reqs && s.reqs[r].state.Open? && r in s.deciding && (w.req.state.Approved? || w.req.state.Rejected?)
    case Attaching(x) =>
      && x in s.claimed && s.claimed[x] == r && x in s.commits && s.commits[x] == AtStore
      && r in s.reqs && w.req == s.reqs[r].(state := Consumed, session := Some(x))
  }

  ghost predicate Writes(s: State) {
    && (forall r | r in s.writing :: WriteInv(s, r))
    && (forall r | r in s.deciding :: r in s.writing && s.writing[r].why.Deciding?)
  }

  ghost predicate CommitInv(s: State, x: Sid)
    requires x in s.commits
  {
    && x in s.attempts && s.attempts[x].committing.Running?
    && (s.commits[x].AtStore? ==> x in s.claimed && s.claimed[x] in s.writing && s.writing[s.claimed[x]].why == Attaching(x))
  }

  ghost predicate Attempts(s: State) {
    && (forall x | x in s.attempts :: Shape(s.attempts[x]))
    && (forall x | x in s.commits :: CommitInv(s, x))
  }

  /** The latest word on a requisition: a line that has landed, or else the registry. */
  function Latest(s: State, r: Rid): Option<Requisition> {
    if r in s.writing && s.writing[r].landed then Some(s.writing[r].req) else Lookup(s.reqs, r)
  }

  ghost predicate Logged(s: State) {
    forall r :: Lookup(Fold(s.log), r) == Latest(s, r)
  }

  /** A requisition's uses are exactly the one its latest line tells of, if any. */
  ghost predicate UsedAsTold(log: seq<Line>, r: Rid) {
    var q := Lookup(Fold(log), r);
    Uses(log, r) == if q.Some? && q.value.state.Consumed? then [q.value.session] else []
  }

  ghost predicate Used(log: seq<Line>) {
    forall r :: UsedAsTold(log, r)
  }

  /** What holds whatever becomes of the log. */
  ghost predicate Core(s: State) {
    Claims(s) && Reservations(s) && Writes(s) && Attempts(s)
  }

  ghost predicate Inv(s: State) {
    Core(s) && Logged(s) && Used(s.log)
  }

  // ---------------------------------------------------------------- every step keeps it

  lemma RaiseKeeps(s: State, r: Rid)
    requires Core(s) && CanAct(s, Raise(r))
    ensures Core(Advance(s, Raise(r)))
  {
    hide Fold, Shape;
  }

  lemma DecideKeeps(s: State, r: Rid, who: Who, approve: bool)
    requires Core(s)
    ensures Core(Advance(s, Decide(r, who, approve)))
  {
    hide Fold, Shape;
  }

  lemma OwnersStay(s: State, t: State)
    requires Reservations(s) && t.reserved <= s.reserved
    requires forall y | y in s.claimed && s.claimed[y] in t.reserved :: y in t.claimed && t.claimed[y] == s.claimed[y]
    ensures forall r | r in t.reserved :: Owned(t, r)
  {
    forall r | r in t.reserved ensures Owned(t, r) {
      var y :| y in s.claimed && s.claimed[y] == r;
      assert y in t.claimed && t.claimed[y] == r;
    }
  }

  lemma SettleKeepsClaims(s: State, r: Rid)
    requires Core(s) && CanAct(s, Settle(r))
    ensures Claims(Settled(s, r))
  {
    hide Fold, Shape, Attempts, Holding, Reservations;
    assert WriteInv(s, r);
  }

  lemma SettleKeepsReservations(s: State, r: Rid)
    requires Core(s) && CanAct(s, Settle(r))
    ensures Reservations(Settled(s, r))
  {
    hide Fold, Shape, Attempts, Claims;
    assert WriteInv(s, r);
    OwnersStay(s, Settled(s, r));
  }

  lemma SettleKeepsWrites(s: State, r: Rid)
    requires Core(s) && CanAct(s, Settle(r))
    ensures Writes(Settled(s, r))
  {
    hide Fold, Shape, Claims, Reservations, Attempts, Lookup, Latest;
    assert WriteInv(s, r);
  }

  lemma SettleKeepsAttempts(s: State, r: Rid)
    requires Core(s) && CanAct(s, Settle(r))
    ensures Attempts(Settled(s, r))
  {
    hide Fold, Shape, Claims, Reservations;
    assert WriteInv(s, r);
  }

  lemma SettleKeepsLog(s: State, r: Rid)
    requires Logged(s) && Used(s.log) && r in s.writing
    ensures Logged(Settled(s, r)) && Used(Settled(s, r).log)
  {
    hide Fold, Used, Settled;
    var t := Settled(s, r);
    forall q ensures Lookup(Fold(t.log), q) == Latest(t, q) {
      assert Lookup(Fold(s.log), q) == Latest(s, q);
    }
  }

  lemma SettleKeeps(s: State, r: Rid)
    requires Core(s) && CanAct(s, Settle(r))
    ensures Core(Advance(s, Settle(r)))
  {
    SettleKeepsClaims(s, r);
    SettleKeepsReservations(s, r);
    SettleKeepsWrites(s, r);
    SettleKeepsAttempts(s, r);
    hide Claims, Reservations, Writes, Attempts;
  }

  lemma FoldNone()
    ensures Fold([]) == map[]
  {
  }

  lemma FoldSnoc(log: seq<Line>, l: Line, r: Rid)
    ensures Fold(log + [l]) == Fold(log)[l.id := l.req]
    ensures Uses(log + [l], r) == Uses(log, r) + if l.id == r && l.req.state.Consumed? then [l.req.session] else []
  {
    assert (log + [l])[..|log|] == log;
  }

  lemma LandKeepsLog(s: State, r: Rid)
    requires Inv(s) && CanAct(s, Land(r))
    ensures var t := Advance(s, Land(r)); Logged(t) && Used(t.log)
  {
    hide Shape, Fold, Uses, Attempts, Holding;
    var t, l := Advance(s, Land(r)), Line(r, s.writing[r].req);
    assert WriteInv(s, r);
    forall q ensures Lookup(Fold(t.log), q) == Latest(t, q) && UsedAsTold(t.log, q) {
      FoldSnoc(s.log, l, q);
      assert Lookup(Fold(s.log), q) == Latest(s, q) && UsedAsTold(s.log, q);
    }
  }

  lemma LandKeeps(s: State, r: Rid)
    requires Core(s) && CanAct(s, Land(r))
    ensures Core(Advance(s, Land(r)))
  {
    hide Shape, Fold, Holding;
  }

  /** An attempt may move on as long as it can still hold what is claimed for it. */
  lemma SwapKeeps(s: State, x: Sid, a: Attempt)
    requires Core(s) && Shape(a)
    requires x in s.claimed ==> Holding(a)
    requires x in s.commits ==> a.committing.Running?
    ensures Core(s.(attempts := s.attempts[x := a]))
  {
    hide Fold, Shape;
    var t := s.(attempts := s.attempts[x := a]);
    OwnersStay(s, t);
  }

  /** The abort effect frees the requisition, outside of a running commit. */
  lemma FreeKeeps(s: State, x: Sid)
    requires Core(s) && (x in s.commits ==> s.commits[x] == Returned(false))
    ensures Core(HostAbort(s, x)) && x !in HostAbort(s, x).claimed
  {
    hide Fold, Shape, Holding;
    var t := HostAbort(s, x);
    assert x in s.claimed ==> ClaimInv(s, x);
    OwnersStay(s, t);
  }

  lemma PreparedKeeps(s: State, x: Sid, ok: bool)
    requires Core(s) && x !in s.claimed
    ensures Core(s.(prepared := s.prepared[x := ok]))
  {
    hide Fold, Shape, Holding;
    var t := s.(prepared := s.prepared[x := ok]);
    OwnersStay(s, t);
  }

  /** Nobody else holds a requisition that can be claimed. */
  lemma ClaimIsNew(s: State, r: Rid)
    requires Core(s) && CanClaim(s, r)
    ensures forall y | y in s.claimed :: s.claimed[y] != r
  {
    hide Fold, Shape, Writes, Attempts;
    forall y | y in s.claimed ensures s.claimed[y] != r {
      assert ClaimInv(s, y);
    }
  }

  lemma ReserveKeeps(s: State, x: Sid, r: Rid)
    requires Core(s) && CanClaim(s, r)
    requires x in s.attempts && Holding(s.attempts[x]) && x !in s.commits && x in s.prepared && s.prepared[x]
    requires x !in s.claimed
    ensures Core(s.(reserved := s.reserved + {r}, claimed := s.claimed[x := r]))
  {
    hide Fold, Shape, Holding;
    var t := s.(reserved := s.reserved + {r}, claimed := s.claimed[x := r]);
    ClaimIsNew(s, r);
    forall q | q in t.reserved ensures Owned(t, q) {
      if q == r {
        assert x in t.claimed && t.claimed[x] == r;
      } else {
        var y :| y in s.claimed && s.claimed[y] == q;
        assert y in t.claimed && t.claimed[y] == q;
      }
    }
  }

  lemma HostPrepareKeeps(s: State, x: Sid, data: Option<Rid>)
    requires Core(s) && x in s.attempts && Holding(s.attempts[x]) && x !in s.claimed && x !in s.commits
    ensures Core(HostPrepare(s, x, data))
  {
    var ok := data.None? || CanClaim(s, data.value);
    PreparedKeeps(s, x, ok);
    if data.Some? && ok { ReserveKeeps(s.(prepared := s.prepared[x := ok]), x, data.value); }
    hide Core;
  }

  lemma HostCommitKeepsClaims(s: State, x: Sid)
    requires Core(s) && x in s.attempts && s.attempts[x].committing.Running? && x !in s.commits
    ensures var t := HostCommit(s, x); Claims(t) && Reservations(t)
  {
    hide Fold, Shape, Holding, Writes, Attempts;
    OwnersStay(s, HostCommit(s, x));
  }

  lemma HostCommitKeeps(s: State, x: Sid)
    requires Core(s) && x in s.attempts && s.attempts[x].committing.Running? && x !in s.commits
    ensures Core(HostCommit(s, x))
  {
    hide Fold, Shape, Holding, Reservations;
    assert x in s.claimed ==> ClaimInv(s, x);
    if x in s.claimed { NotWriting(s, x); }
    HostCommitKeepsClaims(s, x);
  }

  /** No append is out for a requisition that an attempt holds and does not commit yet. */
  lemma NotWriting(s: State, x: Sid)
    requires Core(s) && x in s.claimed && x !in s.commits
    ensures s.claimed[x] !in s.writing
  {
    hide Fold, Shape;
    var r := s.claimed[x];
    assert ClaimInv(s, x);
    assert r in s.writing ==> WriteInv(s, r);
  }

  lemma HostThenKeepsClaims(s: State, x: Sid)
    requires Core(s) && CanAct(s, HostThen(x))
    ensures var t := Advance(s, HostThen(x)); Claims(t) && Reservations(t)
  {
    hide Fold, Shape, Holding, Writes, Attempts;
    OwnersStay(s, Advance(s, HostThen(x)));
  }

  lemma HostThenKeeps(s: State, x: Sid)
    requires Core(s) && CanAct(s, HostThen(x))
    ensures Core(Advance(s, HostThen(x)))
  {
    hide Fold, Shape, Holding, Claims, Reservations;
    HostThenKeepsClaims(s, x);
  }

  lemma CommitEndKeeps(s: State, x: Sid)
    requires Core(s) && x in s.commits && s.commits[x].Returned?
    ensures Core(s.(commits := s.commits - {x}))
  {
    hide Fold, Shape, Holding;
    var t := s.(commits := s.commits - {x});
    OwnersStay(s, t);
  }

  lemma PrepareKeeps(s: State, x: Sid, data: Option<Rid>)
    requires Core(s)
    ensures Core(Advance(s, Prepare(x, data)))
  {
    var a := AttemptOf(s, x);
    AttemptFacts(s, x);
    hide Core, Shape;
    var (b, events) := CreateAttempts.Next(a, CallPrepare);
    SwapKeeps(s, x, b);
    if RunPrepare in events { HostPrepareKeeps(Attempted(s, x, CallPrepare), x, data); }
  }

  /** What the invariant says about one attempt. */
  lemma AttemptFacts(s: State, x: Sid)
    requires Core(s)
    ensures Shape(AttemptOf(s, x))
    ensures x in s.claimed ==> Holding(AttemptOf(s, x)) && x in s.prepared && s.prepared[x]
    ensures x in s.commits ==> AttemptOf(s, x).committing.Running?
  {
    hide Fold, Used, Writes, Reservations;
    assert x in s.claimed ==> ClaimInv(s, x);
    assert x in s.commits ==> CommitInv(s, x);
  }

  lemma CommitKeeps(s: State, x: Sid)
    requires Core(s)
    ensures Core(Advance(s, Commit(x)))
  {
    var a := AttemptOf(s, x);
    AttemptFacts(s, x);
    hide Core;
    var (b, events) := CreateAttempts.Next(a, CallCommit);
    SwapKeeps(s, x, b);
    if RunCommit in events { HostCommitKeeps(Attempted(s, x, CallCommit), x); }
  }

  lemma AbortKeeps(s: State, x: Sid, act: Act)
    requires Core(s) && Enabled(AttemptOf(s, x), act)
    requires act.PrepareSettles? || act.CallAbort? || act.AbortResumes?
    requires act.PrepareSettles? ==> x in s.prepared && act.ok == s.prepared[x]
    ensures Core(AbortIfCalled(s, x, act))
  {
    var a := AttemptOf(s, x);
    AttemptFacts(s, x);
    hide Core;
    var (b, events) := CreateAttempts.Next(a, act);
    if RunAbort in events {
      FreeKeeps(s, x);
      SwapKeeps(HostAbort(s, x), x, b);
      assert AbortIfCalled(s, x, act) == HostAbort(s, x).(attempts := HostAbort(s, x).attempts[x := b]);
    } else {
      SwapKeeps(s, x, b);
    }
  }

  lemma CommitThenKeeps(s: State, x: Sid)
    requires Core(s) && CanAct(s, CommitThen(x))
    ensures Core(Advance(s, CommitThen(x)))
  {
    var ok := s.commits[x].ok;
    AttemptFacts(s, x);
    assert x in s.claimed ==> ClaimInv(s, x);
    CommitEndKeeps(s, x);
    hide Core;
    var t := s.(commits := s.commits - {x});
    var (b, events) := CreateAttempts.Next(AttemptOf(s, x), CommitSettles(ok));
    if ok {
      SwapKeeps(t, x, b);
      assert Advance(s, CommitThen(x)) == t.(attempts := t.attempts[x := b]);
    } else {
      FreeKeeps(t, x);
      SwapKeeps(HostAbort(t, x), x, b);
      assert Advance(s, CommitThen(x)) == HostAbort(t, x).(attempts := HostAbort(t, x).attempts[x := b]);
    }
  }

  lemma BootKeeps(log: seq<Line>)
    ensures Core(Boot(log)) && Logged(Boot(log))
  {
  }

  lemma StepKeepsCore(s: State, a: Action)
    requires Core(s) && CanAct(s, a)
    ensures Core(Advance(s, a))
  {
    match a
    case Raise(r) => RaiseKeeps(s, r);
    case Decide(r, who, approve) => DecideKeeps(s, r, who, approve);
    case Land(r) => LandKeeps(s, r);
    case Settle(r) => SettleKeeps(s, r);
    case Prepare(x, data) => PrepareKeeps(s, x, data);
    case PrepareThen(x) => AbortKeeps(s, x, PrepareSettles(s.prepared[x]));
    case Commit(x) => CommitKeeps(s, x);
    case HostThen(x) => HostThenKeeps(s, x);
    case CommitThen(x) => CommitThenKeeps(s, x);
    case Abort(x) => AbortKeeps(s, x, CallAbort);
    case AbortThen(x) => AbortKeeps(s, x, AbortResumes);
    case Restart => BootKeeps(s.log);
  }

  // ---------------------------------------------------------------- registry and log

  /** Log and registry stay as they are, and at most one append starts, for a requisition with
      none out. */
  ghost predicate Started(s: State, t: State) {
    && t.log == s.log && t.reqs == s.reqs
    && (t.writing == s.writing
        || exists r :: r !in s.writing && r in t.writing && !t.writing[r].landed && t.writing == s.writing[r := t.writing[r]])
  }

  lemma LogUntouched(s: State, a: Action)
    requires CanAct(s, a) && !a.Raise? && !a.Decide? && !a.Land? && !a.Settle? && !a.Commit? && !a.Restart?
    ensures Started(s, Advance(s, a))
  {
    hide CreateAttempts.Next, Calls, Fold, HostAbort, HostPrepare, Attempted, AbortIfCalled, AttemptOf;
  }

  lemma StartsOne(s: State, a: Action)
    requires Core(s) && CanAct(s, a) && (a.Raise? || a.Decide? || a.Commit?)
    ensures Started(s, Advance(s, a))
  {
    hide Fold;
    var t := Advance(s, a);
    match a
    case Raise(r) => assert r !in s.writing && r in t.writing;
    case Decide(r, who, approve) =>
      assert r in s.writing ==> WriteInv(s, r);
      assert t.writing == s.writing || (r !in s.writing && r in t.writing);
    case Commit(x) =>
      AttemptFacts(s, x);
      if Calls(s, x, CallCommit, RunCommit) && x in s.claimed {
        NotWriting(s, x);
        assert t.writing == s.writing || (s.claimed[x] !in s.writing && s.claimed[x] in t.writing);
      }
    case _ =>
  }

  /** A step that neither ends an append nor restarts the registry. */
  lemma StepStarts(s: State, a: Action)
    requires Core(s) && CanAct(s, a) && !a.Land? && !a.Settle? && !a.Restart?
    ensures Started(s, Advance(s, a))
  {
    if a.Raise? || a.Decide? || a.Commit? { StartsOne(s, a); } else { LogUntouched(s, a); }
  }

  lemma StartedKeepsLog(s: State, t: State)
    requires Logged(s) && Used(s.log) && Started(s, t)
    ensures Logged(t) && Used(t.log)
  {
    hide Fold, Used;
    forall r ensures Lookup(Fold(t.log), r) == Latest(t, r) {
      assert Lookup(Fold(s.log), r) == Latest(s, r);
    }
  }

  lemma StepKeepsLog(s: State, a: Action)
    requires Inv(s) && CanAct(s, a)
    ensures Logged(Advance(s, a)) && Used(Advance(s, a).log)
  {
    hide Core, Logged, Used;
    if a.Land? {
      LandKeepsLog(s, a.r);
    } else if a.Settle? {
      SettleKeepsLog(s, a.r);
    } else if a.Restart? {
      BootKeeps(s.log);
    } else {
      StepStarts(s, a);
      StartedKeepsLog(s, Advance(s, a));
    }
  }

  lemma StepKeepsInv(s: State, a: Action)
    requires Inv(s) && CanAct(s, a)
    ensures Inv(Advance(s, a))
  {
    StepKeepsCore(s, a);
    StepKeepsLog(s, a);
    hide Core, Logged, Used, Advance, CanAct;
  }

  lemma {:induction false} PathKeepsInv(s: State, acts: seq<Action>, end: State)
    requires Inv(s) && Path(s, acts, end)
    ensures Inv(end)
    decreases |acts|
  {
    hide Inv, Advance, CanAct;
    if acts != [] {
      StepKeepsInv(s, acts[0]);
      PathKeepsInv(Advance(s, acts[0]), acts[1..], end);
    }
  }

  lemma ReachableInv(s: State)
    requires Reachable(s)
    ensures Inv(s)
  {
    var acts :| Path(Boot([]), acts, s);
    BootKeeps([]);
    PathKeepsInv(Boot([]), acts, s);
  }

  // ---------------------------------------------------------------- the main results

  /** A requisition is used up by at most one session, over every interleaving of decisions,
      claims, commits, aborts, failed appends, crashes and restarts; the registry names it. */
  lemma ConsumedOnce(s: State, r: Rid)
    requires Reachable(s)
    ensures |Uses(s.log, r)| <= 1
    ensures r in s.reqs && s.reqs[r].state.Consumed? ==> Uses(s.log, r) == [s.reqs[r].session]
  {
    ReachableInv(s);
    assert UsedAsTold(s.log, r) && Lookup(Fold(s.log), r) == Latest(s, r);
    assert r in s.writing ==> WriteInv(s, r);
  }

  /** A reservation belongs to exactly one session that may still come into being, and its
      requisition is approved. */
  lemma ReservedForOne(s: State, r: Rid) returns (x: Sid)
    requires Reachable(s) && r in s.reserved
    ensures r in s.reqs && s.reqs[r].state.Approved?
    ensures x in s.claimed && s.claimed[x] == r && x in s.attempts && Holding(s.attempts[x])
    ensures forall y | y in s.claimed && s.claimed[y] == r :: y == x
  {
    ReachableInv(s);
    assert Owned(s, r);
    x :| x in s.claimed && s.claimed[x] == r;
    assert ClaimInv(s, x);
  }

  /** A create that has failed or was aborted keeps no requisition; if the requisition is still
      approved and no other attempt has it, it can be claimed again. */
  lemma FailedCreateFrees(s: State, x: Sid)
    requires Reachable(s) && x in s.attempts && s.attempts[x].state.Aborted?
    ensures x !in s.claimed
    ensures forall r | r in s.reqs && s.reqs[r].state.Approved? && !Owned(s, r) :: CanClaim(s, r)
  {
    ReachableInv(s);
    assert x in s.claimed ==> ClaimInv(s, x);
  }

  /** With no append out, folding the log gives the registry. */
  lemma IdleLogIsRegistry(s: State)
    requires Reachable(s) && s.writing == map[]
    ensures Fold(s.log) == s.reqs
  {
    ReachableInv(s);
    assert forall r :: Lookup(Fold(s.log), r) == Latest(s, r) && Latest(s, r) == Lookup(s.reqs, r);
    assert forall r :: (r in Fold(s.log) <==> Lookup(Fold(s.log), r).Some?) && (r in s.reqs <==> Lookup(s.reqs, r).Some?);
  }

  /** The only ways a requisition moves on. */
  predicate Moves(a: Stage, b: Stage) {
    a == b || (a.Open? && (b.Approved? || b.Rejected?)) || (a.Approved? && b.Consumed?)
  }

  lemma SettleMoves(s: State, r: Rid)
    requires Core(s) && r in s.writing && r in s.reqs
    ensures Moves(s.reqs[r].state, s.writing[r].req.state)
  {
    hide Fold, Shape, Attempts;
    assert WriteInv(s, r);
    if s.writing[r].why.Attaching? { assert ClaimInv(s, s.writing[r].why.sid); }
  }

  lemma ReqsStay(s: State, a: Action)
    requires CanAct(s, a) && !a.Settle? && !a.Restart?
    ensures Advance(s, a).reqs == s.reqs
  {
    hide Decided, HostPrepare, HostCommit, HostAbort, Attempted, AbortIfCalled, Calls, CreateAttempts.Next, Fold;
  }

  /** No requisition is lost or goes back, not even by a crash. */
  lemma OnlyForward(s: State, a: Action, r: Rid)
    requires Reachable(s) && CanAct(s, a) && r in s.reqs
    ensures r in Advance(s, a).reqs && Moves(s.reqs[r].state, Advance(s, a).reqs[r].state)
  {
    ReachableInv(s);
    if r in s.writing { SettleMoves(s, r); }
    assert Lookup(Fold(s.log), r) == Latest(s, r);
    if !a.Settle? && !a.Restart? {
      ReqsStay(s, a);
    } else {
      ForwardBySettling(s, a, r);
    }
    hide *;
  }

  lemma ForwardBySettling(s: State, a: Action, r: Rid)
    requires CanAct(s, a) && (a.Settle? || a.Restart?) && r in s.reqs && Lookup(Fold(s.log), r) == Latest(s, r)
    requires r in s.writing ==> Moves(s.reqs[r].state, s.writing[r].req.state)
    ensures r in Advance(s, a).reqs && Moves(s.reqs[r].state, Advance(s, a).reqs[r].state)
  {
    hide Fold, Settled;
  }

  lemma {:induction false} PathSnoc(s: State, acts: seq<Action>, mid: State, a: Action)
    requires Path(s, acts, mid) && CanAct(mid, a)
    ensures Path(s, acts + [a], Advance(mid, a))
    decreases |acts|
  {
    hide Advance, CanAct;
    if acts != [] {
      assert (acts + [a])[1..] == acts[1..] + [a];
      PathSnoc(Advance(s, acts[0]), acts[1..], mid, a);
    }
  }

  lemma Go(s: State, a: Action) returns (t: State)
    requires Reachable(s) && CanAct(s, a)
    ensures t == Advance(s, a) && Reachable(t)
  {
    hide Advance, CanAct;
    t := Advance(s, a);
    var acts :| Path(Boot([]), acts, s);
    PathSnoc(Boot([]), acts, s, a);
  }

  lemma ApprovedRun(r: Rid, who: Who) returns (s: State)
    ensures Reachable(s) && s.reqs == map[r := Requisition(Approved, Some(who), None)] && s.reserved == {}
    ensures s.writing == map[] && s.claimed == map[] && s.attempts == map[] && s.commits == map[] && s.prepared == map[]
  {
    assert Path(Boot([]), [], Boot([]));
    hide Reachable, Fold;
    FoldNone();
    s := Go(Boot([]), Raise(r));
    s := Go(s, Land(r));
    s := Go(s, Settle(r));
    assert s.reqs == map[r := Requisition(Open, None, None)];
    s := Go(s, Decide(r, who, true));
    s := Go(s, Land(r));
    s := Go(s, Settle(r));
  }

  lemma ClaimedRun(r: Rid, who: Who, x: Sid) returns (s: State)
    ensures Reachable(s) && s.reqs == map[r := Requisition(Approved, Some(who), None)] && s.reserved == {r}
    ensures s.writing == map[] && s.claimed == map[x := r] && s.commits == map[]
    ensures s.attempts == map[x := Attempt(Prepared, Promise.Settled(true), Never, false, 0)]
  {
    s := ApprovedRun(r, who);
    hide Reachable;
    s := Go(s, Prepare(x, Some(r)));
    s := Go(s, PrepareThen(x));
  }

  lemma CommitsRun(r: Rid, who: Who, x: Sid) returns (s: State)
    ensures Reachable(s) && s.reqs == map[r := Requisition(Approved, Some(who), None)] && s.reserved == {r}
    ensures s.claimed == map[x := r] && s.commits == map[x := AtStore]
    ensures s.writing == map[r := Write(Requisition(Consumed, Some(who), Some(x)), Attaching(x), false)]
    ensures s.attempts == map[x := Attempt(Committing, Promise.Settled(true), Running, false, 0)]
  {
    s := ClaimedRun(r, who, x);
    hide Reachable, Fold;
    s := Go(s, Commit(x));
  }

  /** Not all runs end in nothing: an approved requisition is used up by the session that claims
      it, and nothing stays reserved, claimed or out. */
  lemma SessionUsesItUp(r: Rid, who: Who, x: Sid) returns (s: State)
    ensures Reachable(s) && s.reqs == map[r := Requisition(Consumed, Some(who), Some(x))]
    ensures s.reserved == {} && s.claimed == map[] && s.writing == map[] && s.commits == map[]
    ensures x in s.attempts && s.attempts[x].state.Committed?
  {
    s := CommitsRun(r, who, x);
    hide Reachable, Fold;
    s := Go(s, Land(r));
    s := Go(s, Settle(r));
    s := Go(s, HostThen(x));
    s := Go(s, CommitThen(x));
  }

  // ---------------------------------------------------------------- the log, read back

  /** The lines that parse and name a requisition. */
  ghost function Readable(raw: seq<Option<Line>>): seq<Line> {
    if raw == [] then []
    else
      var l := raw[|raw| - 1];
      Readable(raw[..|raw| - 1]) + if l.Some? then [l.value] else []
  }

  lemma ReadableSnoc(raw: seq<Option<Line>>, index: nat)
    requires index < |raw|
    ensures Readable(raw[..index + 1]) ==
            if raw[index].Some? then Readable(raw[..index]) + [raw[index].value] else Readable(raw[..index])
  {
    assert raw[..index + 1][..index] == raw[..index];
  }

  /** `first` is the number of the first line that was dropped, counted from 1; 0 for none. */
  ghost predicate FirstDropped(raw: seq<Option<Line>>, first: nat) {
    if first == 0 then forall i | 0 <= i < |raw| :: raw[i].Some?
    else first <= |raw| && raw[first - 1].None? && forall i | 0 <= i < first - 1 :: raw[i].Some?
  }

  /** `foldLatestById`: the latest line of each id wins; a torn or unusable line is dropped, and
      the first is reported with their number. */
  method FoldLatestById(raw: seq<Option<Line>>) returns (byId: map<Rid, Requisition>, dropped: nat, firstDropped: nat)
    ensures byId == Fold(Readable(raw)) && dropped == |raw| - |Readable(raw)|
    ensures FirstDropped(raw, firstDropped) && (dropped == 0 <==> firstDropped == 0)
  {
    hide Fold, Readable;
    byId, dropped, firstDropped := map[], 0, 0;
    FoldNone();
    ReadableNone(raw);
    for index := 0 to |raw|
      invariant byId == Fold(Readable(raw[..index])) && dropped == index - |Readable(raw[..index])|
      invariant FirstDropped(raw[..index], firstDropped) && (dropped == 0 <==> firstDropped == 0)
    {
      ReadableSnoc(raw, index);
      assert raw[..index + 1] == raw[..index] + [raw[index]];
      if raw[index].Some? {
        var l := raw[index].value;
        FoldSnoc(Readable(raw[..index]), l, l.id);
        byId := byId[l.id := l.req];
      } else {
        if dropped == 0 { firstDropped := index + 1; }
        dropped := dropped + 1;
      }
    }
    assert raw[..|raw|] == raw;
  }

  lemma ReadableNone(raw: seq<Option<Line>>)
    ensures Readable(raw[..0]) == []
  {
  }

  // ---------------------------------------------------------------- the imperative form

  datatype Refusal = NoSuch | AlreadyDecided | NotApproved | AlreadyConsumed

  /** The registry and the host's table, with the appends that are out and the log they go to. */
  class CreateHost {
    var requisitions: map<Rid, Requisition>
    var deciding: set<Rid>
    var reserved: set<Rid>
    var claimed: map<Sid, Rid>
    var attempts: map<Sid, Attempt>
    var prepared: map<Sid, bool>
    var commits: map<Sid, Effect>
    var writing: map<Rid, Write>
    ghost var log: seq<Line>

    ghost function Now(): State
      reads this
    {
      State(requisitions, deciding, reserved, writing, log, claimed, attempts, prepared, commits)
    }

    constructor (loaded: map<Rid, Requisition>, ghost lines: seq<Line>)
      requires loaded == Fold(lines)
      ensures Now() == Boot(lines)
    {
      requisitions, deciding, reserved, claimed := loaded, {}, {}, map[];
      attempts, prepared, commits, writing, log := map[], map[], map[], map[], lines;
    }

    method StartAppend(r: Rid, req: Requisition, why: Why)
      modifies this`writing
      ensures writing == old(writing)[r := Write(req, why, false)]
    {
      writing := writing[r := Write(req, why, false)];
    }

    /** `decide`, up to its append. */
    method Decide(r: Rid, who: Who, approve: bool) returns (refused: Option<Refusal>)
      modifies this
      ensures Now() == Advance(old(Now()), Action.Decide(r, who, approve))
      ensures refused.None? <==> old(r in requisitions && requisitions[r].state.Open? && r !in deciding)
      ensures refused == Some(NoSuch) <==> r !in old(requisitions)
    {
      if r !in requisitions { return Some(NoSuch); }
      var current := requisitions[r];
      if !current.state.Open? { return Some(AlreadyDecided); }
      if r in deciding { return Some(AlreadyDecided); }
      deciding := deciding + {r};
      StartAppend(r, current.(state := if approve then Approved else Rejected, decidedBy := Some(who)), Deciding);
      return None;
    }

    method Claim(r: Rid) returns (refused: Option<Refusal>)
      modifies this`reserved
      ensures refused.None? <==> CanClaim(old(Now()), r)
      ensures reserved == old(reserved) + if refused.None? then {r} else {}
    {
      if r !in requisitions { return Some(NoSuch); }
      if requisitions[r].state.Consumed? { return Some(AlreadyConsumed); }
      if !requisitions[r].state.Approved? { return Some(NotApproved); }
      if r in reserved { return Some(AlreadyConsumed); }
      reserved := reserved + {r};
      return None;
    }

    /** The prepare effect: it claims in the same turn it is called in. */
    method HostPrepares(x: Sid, data: Option<Rid>)
      modifies this
      ensures Now() == HostPrepare(old(Now()), x, data)
    {
      if data.None? {
        prepared := prepared[x := true];
        return;
      }
      var refused := Claim(data.value);
      if refused.None? { claimed := claimed[x := data.value]; }
      prepared := prepared[x := refused.None?];
    }

    /** The commit effect, which attaches the session, up to its append. */
    method HostCommits(x: Sid)
      modifies this
      ensures Now() == HostCommit(old(Now()), x)
    {
      if x !in claimed {
        commits := commits[x := Returned(true)];
        return;
      }
      var r := claimed[x];
      if r !in requisitions {
        commits := commits[x := Answered(false)];
        return;
      }
      StartAppend(r, requisitions[r].(state := Consumed, session := Some(x)), Attaching(x));
      commits := commits[x := AtStore];
    }

    /** The abort effect. */
    method HostAborts(x: Sid)
      modifies this`claimed, this`reserved
      ensures Now() == HostAbort(old(Now()), x)
    {
      if x in claimed {
        reserved := reserved - {claimed[x]};
        claimed := claimed - {x};
      }
    }

    /** What follows an append: of a new requisition, of a decision, of an attached session. */
    method AppendSettled(r: Rid)
      requires CanAct(Now(), Settle(r))
      modifies this
      ensures Now() == Advance(old(Now()), Settle(r))
    {
      var w := writing[r];
      writing := writing - {r};
      if w.why.Deciding? { deciding := deciding - {r}; }
      if w.landed {
        requisitions := requisitions[r := w.req];
        if w.why.Attaching? { reserved := reserved - {r}; }
      }
      if w.why.Attaching? { commits := commits[w.why.sid := Answered(w.landed)]; }
    }

    /** A call to an attempt, or its continuation, together with the effects it calls. */
    method Drive(x: Sid, act: Act, data: Option<Rid>)
      requires Enabled(AttemptOf(Now(), x), act)
      modifies this
      ensures act.CallPrepare? ==> Now() == Advance(old(Now()), Prepare(x, data))
      ensures act.CallCommit? ==> Now() == Advance(old(Now()), Action.Commit(x))
      ensures !act.CallPrepare? && !act.CallCommit? ==> Now() == AbortIfCalled(old(Now()), x, act)
    {
      hide HostPrepare, HostCommit, HostAbort, Fold, Decided;
      var (a, runs) := CreateAttempts.Next(if x in attempts then attempts[x] else FRESH, act);
      attempts := attempts[x := a];
      if RunPrepare in runs { HostPrepares(x, data); }
      if RunCommit in runs { HostCommits(x); }
      if RunAbort in runs { HostAborts(x); }
    }

    /** The host effect behind `attachSession`, once the registry has answered. */
    method HostCommitThen(x: Sid)
      requires CanAct(Now(), HostThen(x))
      modifies this
      ensures Now() == Advance(old(Now()), HostThen(x))
    {
      var ok := commits[x].ok;
      if ok { claimed := claimed - {x}; }
      commits := commits[x := Returned(ok)];
    }
  }
}
