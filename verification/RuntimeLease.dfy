/**
The runtime's lease on its storage (`src/agent-console/store/lease.ts`): every contender first
publishes a claim file of its own and then looks at everybody else's. No claim is ever
overwritten; a claim is passed over only when its file is gone or its owner is judged dead. An
owner under the contender's own host name is looked up in the process table; one under another
name counts as dead when the contender holds the storage-root lock of `src/store/index.ts` and
the claim names another generation of it.
*/
module RuntimeLease {
  import opened Common

  /** One run of the server, with its own claim file. Its generation of the storage-root lock,
      if it takes that lock, carries the same name here. */
  type Instance = nat

  datatype Process = Process(machine: nat, hostName: string, pid: nat, born: nat)

  /** What a claim says of the storage-root lock. Builds before the field existed wrote none. */
  datatype LockField = Missing | NoLock | Generation(of: Instance)

  datatype Claim = Claim(hostName: string, pid: nat, born: Option<nat>, lock: LockField)

  datatype Phase = Idle | Published | Scanning(left: set<Instance>) | Held

  /** `procs` are all runs so far and `live` those that still run; `owners` are the running ones
      that take the storage-root lock for theirs. */
  datatype State = State(
    procs: map<Instance, Process>,
    live: set<Instance>,
    owners: set<Instance>,
    claims: map<Instance, Claim>,
    phases: map<Instance, Phase>)

  // ---------------------------------------------------------------- the verdict

  /** What the process table says of a pid: no such process, one that may not be asked, or one
      that is there, with its creation time if that can be read. */
  datatype Reading = NoProcess | Denied | There(born: Option<nat>)

  /** `alive`, for a contender that holds the storage-root lock or does not. */
  predicate Alive(self: Instance, hostName: string, holdsLock: bool, claim: Claim, reading: Reading) {
    if claim.hostName == hostName then
      match reading
      case NoProcess => false
      case Denied => true
      case There(born) => claim.born.None? || born.None? || born == claim.born
    else if !holdsLock then true
    else
      match claim.lock
      case Missing => false
      case NoLock => true
      case Generation(g) => g == self
  }

  /** A reading does not overlook a running instance. */
  ghost predicate Truthful(s: State, machine: nat, pid: nat, reading: Reading) {
    forall r | r in s.live && r in s.procs && s.procs[r].machine == machine && s.procs[r].pid == pid ::
      !reading.NoProcess? && (reading.There? && reading.born.Some? ==> reading.born.value == s.procs[r].born)
  }

  // ---------------------------------------------------------------- steps

  /** What the verdict rests on, each with a flag for runs in which it fails. `lingering`: a
      running instance outlives its generation of the storage-root lock while it still has a
      claim. `twoOwners`: that lock is taken while a running instance holds it.
      `sharedNames`: two machines go by one host name. `unversioned`: a claim is published by
      a build that wrote no lock field. */
  datatype Hazards = Hazards(lingering: bool, twoOwners: bool, sharedNames: bool, unversioned: bool)

  const CALM := Hazards(false, false, false, false)

  datatype Action =
    | Start(p: Instance, proc: Process)
    | TakeLock(p: Instance)
    | LoseLock(p: Instance)
    | Publish(p: Instance, born: Option<nat>, versioned: bool)
    | List(p: Instance, seen: set<Instance>)
    | Inspect(p: Instance, q: Instance, reading: Reading)
    | Refuse(p: Instance)
    | Take(p: Instance)
    | Release(p: Instance)
    | Crash(p: Instance)

  ghost predicate At(s: State, p: Instance, phase: Phase) {
    Running(s, p) && s.phases[p] == phase
  }

  ghost predicate Running(s: State, p: Instance) {
    p in s.live && p in s.procs && p in s.phases
  }

  /** When a step can happen. A listing shows at least every file that is there when it begins. */
  ghost predicate Enabled(hz: Hazards, s: State, a: Action) {
    match a
    case Start(p, proc) =>
      && p !in s.procs && p !in s.phases && p !in s.live
      && (forall r | r in s.procs && r in s.live :: s.procs[r].machine != proc.machine || s.procs[r].pid != proc.pid)
      && (hz.sharedNames || forall r | r in s.procs && s.procs[r].hostName == proc.hostName :: s.procs[r].machine == proc.machine)
    case TakeLock(p) => At(s, p, Idle) && (hz.twoOwners || s.owners == {})
    case LoseLock(p) => p in s.owners && (hz.lingering || At(s, p, Idle))
    case Publish(p, born, versioned) =>
      && At(s, p, Idle) && (born.Some? ==> born.value == s.procs[p].born) && (versioned || hz.unversioned)
    case List(p, seen) => At(s, p, Published) && s.claims.Keys - {p} <= seen && p !in seen
    case Inspect(p, q, reading) =>
      && Running(s, p) && s.phases[p].Scanning? && q in s.phases[p].left
      && (q in s.claims ==> Truthful(s, s.procs[p].machine, s.claims[q].pid, reading))
    case Refuse(p) => Running(s, p) && (s.phases[p].Published? || s.phases[p].Scanning?)
    case Take(p) => At(s, p, Scanning({}))
    case Release(p) => At(s, p, Held)
    case Crash(p) => p in s.live
  }

  function Withdrawn(s: State, p: Instance): State {
    s.(claims := s.claims - {p}, phases := s.phases[p := Idle])
  }

  function ClaimOf(s: State, p: Instance, born: Option<nat>, versioned: bool): Claim
    requires p in s.procs
  {
    Claim(s.procs[p].hostName, s.procs[p].pid, born,
          if !versioned then Missing else if p in s.owners then Generation(p) else NoLock)
  }

  ghost function Next(hz: Hazards, s: State, a: Action): State
    requires Enabled(hz, s, a)
  {
    match a
    case Start(p, proc) => s.(procs := s.procs[p := proc], live := s.live + {p}, phases := s.phases[p := Idle])
    case TakeLock(p) => s.(owners := s.owners + {p})
    case LoseLock(p) => s.(owners := s.owners - {p})
    case Publish(p, born, versioned) =>
      s.(claims := s.claims[p := ClaimOf(s, p, born, versioned)], phases := s.phases[p := Published])
    case List(p, seen) => s.(phases := s.phases[p := Scanning(seen)])
    case Inspect(p, q, reading) =>
      if q in s.claims && Alive(p, s.procs[p].hostName, p in s.owners, s.claims[q], reading) then Withdrawn(s, p)
      else s.(phases := s.phases[p := Scanning(s.phases[p].left - {q})])
    case Refuse(p) => Withdrawn(s, p)
    case Take(p) => s.(phases := s.phases[p := Held])
    case Release(p) => Withdrawn(s, p)
    case Crash(p) => s.(live := s.live - {p}, owners := s.owners - {p})
  }

  const NOBODY := State(map[], {}, {}, map[], map[])

  ghost predicate Path(hz: Hazards, s: State, acts: seq<Action>, end: State)
    decreases |acts|
  {
    if acts == [] then s == end else Enabled(hz, s, acts[0]) && Path(hz, Next(hz, s, acts[0]), acts[1..], end)
  }

  ghost predicate Reachable(hz: Hazards, s: State) {
    exists acts :: Path(hz, NOBODY, acts, s)
  }

  ghost predicate OneHolder(s: State) {
    forall p, q | At(s, p, Held) && At(s, q, Held) :: p == q
  }

  // ---------------------------------------------------------------- what every calm run keeps

  /** A live contender that has begun to look at the other claims. */
  ghost predicate Looking(s: State, p: Instance) {
    Running(s, p) && (s.phases[p].Scanning? || s.phases[p].Held?)
  }

  function Left(s: State, p: Instance): set<Instance> {
    if p in s.phases && s.phases[p].Scanning? then s.phases[p].left else {}
  }

  /** A running instance's claim tells the truth, and names the lock only while it holds it. */
  ghost predicate ClaimInv(s: State, p: Instance)
    requires p in s.procs && p in s.claims
  {
    var claim := s.claims[p];
    && claim.hostName == s.procs[p].hostName && claim.pid == s.procs[p].pid
    && (claim.born.Some? ==> claim.born.value == s.procs[p].born)
    && !claim.lock.Missing? && (claim.lock.Generation? ==> claim.lock.of == p && p in s.owners)
  }

  /** Running instances are known ones, and those that contend have a claim. */
  ghost predicate Registered(s: State) {
    && (forall p | p in s.live :: Running(s, p)) && s.owners <= s.live && s.claims.Keys <= s.procs.Keys
    && (forall p | Running(s, p) :: p in s.claims <==> !s.phases[p].Idle?)
  }

  ghost predicate NamesMachines(s: State) {
    forall p, q | p in s.procs && q in s.procs && s.procs[p].hostName == s.procs[q].hostName ::
      s.procs[p].machine == s.procs[q].machine
  }

  ghost predicate WorldInv(s: State) {
    && Registered(s) && NamesMachines(s)
    && (forall p, q | p in s.owners && q in s.owners :: p == q)
    && (forall p | Running(s, p) && p in s.claims :: ClaimInv(s, p))
  }

  /** Of two contenders that look around, one has the other still before it: whoever listed the
      claims later saw the other's file. */
  ghost predicate Inv(s: State) {
    && WorldInv(s)
    && forall p, q | Looking(s, p) && Looking(s, q) && p != q :: OneSees(s, p, q)
  }

  ghost predicate OneSees(s: State, p: Instance, q: Instance) {
    q in Left(s, p) || p in Left(s, q)
  }

  /** No running owner of a claim is judged dead: its process is found where its host name
      leads, and elsewhere only the one holder of the storage-root lock is let past a
      generation, which is then no running instance's. */
  lemma VerdictSound(s: State, p: Instance, q: Instance, reading: Reading)
    requires WorldInv(s) && Running(s, p) && Running(s, q) && q in s.claims && p != q
    requires Truthful(s, s.procs[p].machine, s.claims[q].pid, reading)
    ensures Alive(p, s.procs[p].hostName, p in s.owners, s.claims[q], reading)
  {
    assert ClaimInv(s, q);
  }

  lemma ClaimKept(s: State, a: Action, p: Instance)
    requires WorldInv(s) && Enabled(CALM, s, a)
    requires Running(Next(CALM, s, a), p) && p in Next(CALM, s, a).claims
    ensures ClaimInv(Next(CALM, s, a), p)
  {
    hide Truthful, Alive;
    assert Running(s, p) && p in s.claims ==> ClaimInv(s, p);
  }

  lemma RegisteredKept(s: State, a: Action)
    requires Registered(s) && Enabled(CALM, s, a)
    ensures Registered(Next(CALM, s, a))
  {
    hide Truthful, Alive, ClaimOf;
  }

  lemma StepKeepsWorld(s: State, a: Action)
    requires WorldInv(s) && Enabled(CALM, s, a)
    ensures WorldInv(Next(CALM, s, a))
  {
    var t := Next(CALM, s, a);
    RegisteredKept(s, a);
    forall p | Running(t, p) && p in t.claims ensures p in t.procs && ClaimInv(t, p) { ClaimKept(s, a, p); }
    hide Truthful, Alive, ClaimInv, Registered, ClaimOf;
  }

  /** Passing a claim over, the contender does not lose sight of a running one. */
  lemma InspectKeeps(s: State, p: Instance, q: Instance, reading: Reading)
    requires Inv(s) && Enabled(CALM, s, Inspect(p, q, reading)) && Running(s, q) && q in s.claims && p != q
    ensures Next(CALM, s, Inspect(p, q, reading)) == Withdrawn(s, p)
  {
    VerdictSound(s, p, q, reading);
  }

  lemma PairKept(s: State, a: Action, p: Instance, q: Instance)
    requires Enabled(CALM, s, a) && p != q && Looking(Next(CALM, s, a), p) && Looking(Next(CALM, s, a), q)
    requires Looking(s, p) && Looking(s, q) ==> OneSees(s, p, q)
    requires (Looking(s, p) ==> p in s.claims) && (Looking(s, q) ==> q in s.claims)
    requires a.Inspect? && (a.p == p || a.p == q) && (a.q == p || a.q == q) && a.p != a.q && Looking(s, a.q) ==>
      Next(CALM, s, a) == Withdrawn(s, a.p)
    ensures OneSees(Next(CALM, s, a), p, q)
  {
    hide ClaimOf, Truthful, Alive;
  }

  lemma StepKeepsInv(s: State, a: Action)
    requires Inv(s) && Enabled(CALM, s, a)
    ensures Inv(Next(CALM, s, a))
  {
    StepKeepsWorld(s, a);
    var t := Next(CALM, s, a);
    assert forall p | Looking(s, p) :: p in s.claims;
    if a.Inspect? && Looking(s, a.q) && a.p != a.q { InspectKeeps(s, a.p, a.q, a.reading); }
    hide WorldInv, Enabled, Next, Looking, OneSees;
    forall p, q | Looking(t, p) && Looking(t, q) && p != q ensures OneSees(t, p, q) { PairKept(s, a, p, q); }
  }

  lemma {:induction false} PathKeepsInv(s: State, acts: seq<Action>, end: State)
    requires Inv(s) && Path(CALM, s, acts, end)
    ensures Inv(end)
    decreases |acts|
  {
    if acts != [] {
      StepKeepsInv(s, acts[0]);
      PathKeepsInv(Next(CALM, s, acts[0]), acts[1..], end);
    }
  }

  /** In a calm run there is never more than one holder, over any number of machines,
      instances, crashes, restarts and pids used again. */
  lemma LeaseExcludes(s: State)
    requires Reachable(CALM, s)
    ensures OneHolder(s)
  {
    var acts :| Path(CALM, NOBODY, acts, s);
    PathKeepsInv(NOBODY, acts, s);
    forall p, q | At(s, p, Held) && At(s, q, Held) ensures p == q {
      assert Looking(s, p) && Looking(s, q) && !OneSees(s, p, q);
    }
  }

  // ---------------------------------------------------------------- what each assumption is for

  lemma {:induction false} PathSnoc(hz: Hazards, s: State, acts: seq<Action>, mid: State, a: Action)
    requires Path(hz, s, acts, mid) && Enabled(hz, mid, a)
    ensures Path(hz, s, acts + [a], Next(hz, mid, a))
    decreases |acts|
  {
    hide Enabled, Next;
    if acts == [] {
      assert [a][1..] == [];
    } else {
      PathSnoc(hz, Next(hz, s, acts[0]), acts[1..], mid, a);
      assert (acts + [a])[1..] == acts[1..] + [a];
    }
  }

  lemma Go(hz: Hazards, s: State, a: Action) returns (t: State)
    requires Reachable(hz, s) && Enabled(hz, s, a)
    ensures t == Next(hz, s, a) && Reachable(hz, t)
  {
    hide Enabled, Next;
    var acts :| Path(hz, NOBODY, acts, s);
    PathSnoc(hz, NOBODY, acts, s, a);
    t := Next(hz, s, a);
  }

  /** The first instance, on machine 0, publishes and holds the lease. */
  lemma FirstHolds(hz: Hazards, s0: State, versioned: bool) returns (s: State)
    requires Reachable(hz, s0) && (versioned || hz.unversioned)
    requires s0.procs == map[0 := Process(0, "a", 7, 1)] && s0.live == {0} && s0.claims == map[] && s0.phases == map[0 := Idle]
    ensures Reachable(hz, s) && s.procs == s0.procs && s.live == {0} && s.owners == s0.owners && s.phases == map[0 := Held]
    ensures s.claims == map[0 := Claim("a", 7, Some(1), if !versioned then Missing else if 0 in s0.owners then Generation(0) else NoLock)]
  {
    hide Reachable;
    s := Go(hz, s0, Publish(0, Some(1), versioned));
    s := Go(hz, s, List(0, {}));
    s := Go(hz, s, Take(0));
  }

  lemma FirstStarts(hz: Hazards) returns (s: State)
    ensures Reachable(hz, s)
    ensures s == State(map[0 := Process(0, "a", 7, 1)], {0}, {}, map[], map[0 := Idle])
  {
    assert Path(hz, NOBODY, [], NOBODY);
    hide Reachable;
    s := Go(hz, NOBODY, Start(0, Process(0, "a", 7, 1)));
  }

  /** The second instance, on machine 1, passes the first one's claim over and holds too. */
  lemma SecondHolds(hz: Hazards, s0: State, hostName: string) returns (s: State)
    requires Reachable(hz, s0) && s0.live == {0, 1} && s0.phases == map[0 := Held, 1 := Idle] && s0.claims.Keys == {0}
    requires s0.procs == map[0 := Process(0, "a", 7, 1), 1 := Process(1, hostName, 8, 2)] && s0.claims[0].pid == 7
    requires !Alive(1, hostName, 1 in s0.owners, s0.claims[0], NoProcess)
    ensures Reachable(hz, s) && !OneHolder(s)
  {
    hide Reachable, Alive;
    s := Go(hz, s0, Publish(1, Some(2), true));
    s := Go(hz, s, List(1, {0}));
    s := Go(hz, s, Inspect(1, 0, NoProcess));
    assert s.phases[1] == Scanning({});
    s := Go(hz, s, Take(1));
    assert At(s, 0, Held) && At(s, 1, Held);
  }

  /** An instance that has given up, or lost, the storage-root lock while it still runs is taken
      for dead by the lock's next owner on another host. */
  lemma LingeringBreaks(hz: Hazards) returns (s: State)
    requires hz.lingering
    ensures Reachable(hz, s) && !OneHolder(s)
  {
    hide Reachable;
    s := FirstStarts(hz);
    s := Go(hz, s, TakeLock(0));
    s := FirstHolds(hz, s, true);
    s := Go(hz, s, LoseLock(0));
    s := Go(hz, s, Start(1, Process(1, "b", 8, 2)));
    s := Go(hz, s, TakeLock(1));
    s := SecondHolds(hz, s, "b");
  }

  /** So is one that still holds it, when two can. */
  lemma TwoOwnersBreak(hz: Hazards) returns (s: State)
    requires hz.twoOwners
    ensures Reachable(hz, s) && !OneHolder(s)
  {
    hide Reachable;
    s := FirstStarts(hz);
    s := Go(hz, s, TakeLock(0));
    s := FirstHolds(hz, s, true);
    s := Go(hz, s, Start(1, Process(1, "b", 8, 2)));
    s := Go(hz, s, TakeLock(1));
    s := SecondHolds(hz, s, "b");
  }

  /** On a machine of the same name, the wrong process table is asked. */
  lemma SharedNameBreaks(hz: Hazards) returns (s: State)
    requires hz.sharedNames
    ensures Reachable(hz, s) && !OneHolder(s)
  {
    hide Reachable;
    s := FirstStarts(hz);
    s := FirstHolds(hz, s, true);
    s := Go(hz, s, Start(1, Process(1, "a", 8, 2)));
    s := SecondHolds(hz, s, "a");
  }

  /** A claim without the lock field is passed over by any owner of the lock elsewhere. */
  lemma UnversionedBreaks(hz: Hazards) returns (s: State)
    requires hz.unversioned
    ensures Reachable(hz, s) && !OneHolder(s)
  {
    hide Reachable;
    s := FirstStarts(hz);
    s := FirstHolds(hz, s, false);
    s := Go(hz, s, Start(1, Process(1, "b", 8, 2)));
    s := Go(hz, s, TakeLock(1));
    s := SecondHolds(hz, s, "b");
  }

  /** Mutual exclusion holds in every run exactly when none of the four can happen. */
  lemma LeaseExact(hz: Hazards)
    ensures (forall s :: Reachable(hz, s) ==> OneHolder(s)) <==>
      !hz.lingering && !hz.twoOwners && !hz.sharedNames && !hz.unversioned
  {
    if hz.lingering {
      var s := LingeringBreaks(hz);
    } else if hz.twoOwners {
      var s := TwoOwnersBreak(hz);
    } else if hz.sharedNames {
      var s := SharedNameBreaks(hz);
    } else if hz.unversioned {
      var s := UnversionedBreaks(hz);
    } else {
      assert hz == CALM;
      forall s | Reachable(hz, s) ensures OneHolder(s) { LeaseExcludes(s); }
    }
  }
}
