/**
Which claims on the runtime's storage a contender passes over
(`src/agent-console/store/lease.ts`), over whole runs, hazards included: those of owners that are
shown to be dead, and no others.
*/
module RuntimeTakeover {
  import opened Common
  import opened RuntimeLease

  /** What shows that the owner of a claim is dead. Under the contender's own host name: there is
      no process of that pid, or it was created at another time than the claim says. Elsewhere: the
      contender holds the storage-root lock, and the claim names another generation of it or comes
      from a build that named none. */
  ghost predicate Stale(s: State, p: Instance, q: Instance, reading: Reading) {
    && Running(s, p) && q in s.claims
    && var claim := s.claims[q];
    if claim.hostName == s.procs[p].hostName then
      reading.NoProcess? || (reading.There? && claim.born.Some? && reading.born.Some? && reading.born.value != claim.born.value)
    else
      p in s.owners && !claim.lock.NoLock? && claim.lock != Generation(p)
  }

  // ---------------------------------------------------------------- only the dead are passed over

  ghost predicate Stepped(hz: Hazards, s: State, a: Action, t: State) {
    Enabled(hz, s, a) && t == Next(hz, s, a)
  }

  /** The states a run passes through, one more than its actions. */
  ghost predicate Run(hz: Hazards, states: seq<State>, acts: seq<Action>) {
    && |states| == |acts| + 1 && states[0] == NOBODY
    && forall k | 0 <= k < |acts| :: Stepped(hz, states[k], acts[k], states[k + 1])
  }

  /** The contender has read the claim of `q` by then, and found it gone or its owner dead. */
  ghost predicate PassedOver(states: seq<State>, acts: seq<Action>, from: nat, to: nat, p: Instance, q: Instance)
    requires to <= |acts| < |states|
  {
    exists i :: from <= i < to && Passes(states[i], acts[i], p, q)
  }

  ghost predicate Passes(s: State, a: Action, p: Instance, q: Instance) {
    a.Inspect? && a.p == p && a.q == q && (q !in s.claims || Stale(s, p, q, a.reading))
  }

  lemma InspectPasses(hz: Hazards, s: State, p: Instance, q: Instance, reading: Reading)
    requires Enabled(hz, s, Inspect(p, q, reading)) && Looking(Next(hz, s, Inspect(p, q, reading)), p)
    ensures Passes(s, Inspect(p, q, reading), p, q)
    ensures Left(Next(hz, s, Inspect(p, q, reading)), p) == Left(s, p) - {q}
  {
  }

  lemma OthersKeepLeft(hz: Hazards, s: State, a: Action, p: Instance)
    requires Enabled(hz, s, a) && Looking(Next(hz, s, a), p) && !(a.Inspect? && a.p == p)
    ensures if Looking(s, p) then Left(Next(hz, s, a), p) == Left(s, p) else a == List(p, Left(Next(hz, s, a), p))
  {
    hide Alive, Truthful, ClaimOf;
  }

  /** A contender that looks around has listed the claims, and has dealt with each one that it is
      not to look at any more. */
  lemma {:induction false} LookingSince(hz: Hazards, states: seq<State>, acts: seq<Action>, k: nat, p: Instance) returns (j: nat, seen: set<Instance>)
    requires Run(hz, states, acts) && k <= |acts| && Looking(states[k], p)
    ensures j < k && acts[j] == List(p, seen) && states[j].claims.Keys - {p} <= seen
    ensures forall q | q in seen && q !in Left(states[k], p) :: PassedOver(states, acts, j, k, p, q)
    decreases k
  {
    hide Enabled, Next, Looking, Left, Passes;
    assert k > 0 by { NobodyLooks(states[0], p); }
    var s, a, t := states[k - 1], acts[k - 1], states[k];
    assert Stepped(hz, s, a, t);
    if a.Inspect? && a.p == p {
      InspectPasses(hz, s, p, a.q, a.reading);
      StillLooks(hz, s, a);
      j, seen := LookingSince(hz, states, acts, k - 1, p);
      assert Passes(states[k - 1], acts[k - 1], p, a.q);
    } else {
      OthersKeepLeft(hz, s, a, p);
      if Looking(s, p) {
        j, seen := LookingSince(hz, states, acts, k - 1, p);
      } else {
        j, seen := k - 1, Left(t, p);
        ListsAll(hz, s, p, seen);
      }
    }
  }

  lemma NobodyLooks(s: State, p: Instance)
    ensures s == NOBODY ==> !Looking(s, p)
  {
  }

  lemma StillLooks(hz: Hazards, s: State, a: Action)
    requires Enabled(hz, s, a) && a.Inspect?
    ensures Looking(s, a.p)
  {
  }

  lemma ListsAll(hz: Hazards, s: State, p: Instance, seen: set<Instance>)
    requires Enabled(hz, s, List(p, seen))
    ensures s.claims.Keys - {p} <= seen
  {
  }

  /** Whoever takes the lease has listed the claims before, all that were there, and has found
      each listed one gone or its owner shown to be dead. */
  lemma TakenOverTheDead(hz: Hazards, states: seq<State>, acts: seq<Action>, k: nat, p: Instance) returns (j: nat, seen: set<Instance>)
    requires Run(hz, states, acts) && k < |acts| && acts[k] == Take(p)
    ensures j < k && acts[j] == List(p, seen) && states[j].claims.Keys - {p} <= seen
    ensures forall q | q in seen :: PassedOver(states, acts, j, k, p, q)
  {
    assert Stepped(hz, states[k], acts[k], states[k + 1]);
    j, seen := LookingSince(hz, states, acts, k, p);
  }

  // ---------------------------------------------------------------- and none of them is in the way

  lemma Consed(hz: Hazards, s: State, a: Action, acts: seq<Action>, end: State)
    requires Enabled(hz, s, a) && Path(hz, Next(hz, s, a), acts, end)
    ensures Path(hz, s, [a] + acts, end)
  {
    assert ([a] + acts)[1..] == acts;
  }

  ghost predicate AllStale(s: State, p: Instance, left: set<Instance>, readings: map<Instance, Reading>) {
    Running(s, p) && forall q | q in left :: q in readings && Stale(s, p, q, readings[q]) && Truthful(s, s.procs[p].machine, s.claims[q].pid, readings[q])
  }

  lemma StaleIsPassed(hz: Hazards, s: State, p: Instance, q: Instance, reading: Reading)
    requires Running(s, p) && s.phases[p].Scanning? && q in s.phases[p].left && p != q
    requires Stale(s, p, q, reading) && Truthful(s, s.procs[p].machine, s.claims[q].pid, reading)
    ensures Enabled(hz, s, Inspect(p, q, reading))
    ensures Next(hz, s, Inspect(p, q, reading)) == s.(phases := s.phases[p := Scanning(s.phases[p].left - {q})])
  {
  }

  lemma {:induction false} ScansThrough(hz: Hazards, s: State, p: Instance, readings: map<Instance, Reading>) returns (acts: seq<Action>, end: State)
    requires Running(s, p) && s.phases[p].Scanning? && p !in s.phases[p].left && AllStale(s, p, s.phases[p].left, readings)
    ensures Path(hz, s, acts, end) && At(end, p, Held) && end == s.(phases := s.phases[p := Held])
    decreases s.phases[p].left
  {
    hide Stale, Truthful, Alive;
    if s.phases[p].left == {} {
      acts, end := [Take(p)], Next(hz, s, Take(p));
      Consed(hz, s, Take(p), [], end);
    } else {
      var q :| q in s.phases[p].left;
      StaleIsPassed(hz, s, p, q, readings[q]);
      var t := Next(hz, s, Inspect(p, q, readings[q]));
      StaleStays(s, p, t, readings);
      assert t.phases[p := Held] == s.phases[p := Held];
      hide Enabled, Next;
      acts, end := ScansThrough(hz, t, p, readings);
      Consed(hz, s, Inspect(p, q, readings[q]), acts, end);
      acts := [Inspect(p, q, readings[q])] + acts;
    }
  }

  lemma StaleStays(s: State, p: Instance, t: State, readings: map<Instance, Reading>)
    requires Running(s, p) && s.phases[p].Scanning? && AllStale(s, p, s.phases[p].left, readings)
    requires p in t.phases && t.phases[p].Scanning? && t.phases[p].left <= s.phases[p].left && t == s.(phases := t.phases)
    ensures AllStale(t, p, t.phases[p].left, readings)
  {
  }

  /** A dead owner's claim does not keep anybody out, be its pid free or used again: a contender
      for whom every other claim is shown to be a dead owner's gets the lease. */
  lemma DeadOwnersYield(hz: Hazards, s: State, p: Instance, readings: map<Instance, Reading>) returns (acts: seq<Action>, end: State)
    requires At(s, p, Published) && AllStale(s, p, s.claims.Keys - {p}, readings)
    ensures Path(hz, s, acts, end) && At(end, p, Held) && end == s.(phases := s.phases[p := Held])
  {
    hide Stale, Truthful, Alive;
    var seen := s.claims.Keys - {p};
    var t := Next(hz, s, List(p, seen));
    assert AllStale(t, p, seen, readings) by { ListedStays(s, p, t, seen, readings); }
    acts, end := ScansThrough(hz, t, p, readings);
    assert t.phases[p := Held] == s.phases[p := Held];
    Consed(hz, s, List(p, seen), acts, end);
    acts := [List(p, seen)] + acts;
  }

  lemma ListedStays(s: State, p: Instance, t: State, seen: set<Instance>, readings: map<Instance, Reading>)
    requires AllStale(s, p, seen, readings) && p in t.phases && t == s.(phases := t.phases)
    ensures AllStale(t, p, seen, readings)
  {
  }

  /** A claim that is given up is gone and holds nothing; a crash leaves it where it is. */
  lemma ClaimsOutlive(hz: Hazards, states: seq<State>, acts: seq<Action>, k: nat, p: Instance)
    requires Run(hz, states, acts) && k < |acts|
    ensures acts[k] == Release(p) || acts[k] == Refuse(p) ==>
      p !in states[k + 1].claims && At(states[k + 1], p, Idle) && !At(states[k + 1], p, Held)
    ensures acts[k] == Crash(p) ==> states[k + 1].claims == states[k].claims && !Running(states[k + 1], p)
    ensures forall q | q in states[k].claims && q !in states[k + 1].claims ::
      acts[k] == Release(q) || acts[k] == Refuse(q) || (acts[k].Inspect? && acts[k].p == q)
  {
    assert Stepped(hz, states[k], acts[k], states[k + 1]);
  }

  /** After the holder has given up the lease the next contender gets it. */
  lemma HandsOver(hz: Hazards, s: State, p: Instance, q: Instance, born: Option<nat>)
    returns (acts: seq<Action>, end: State)
    requires At(s, p, Held) && At(s, q, Idle) && p != q && s.claims.Keys == {p}
    requires born.Some? ==> born.value == s.procs[q].born
    ensures Path(hz, s, acts, end) && At(end, q, Held) && !At(end, p, Held)
  {
    var s1 := Next(hz, s, Release(p));
    var s2 := Next(hz, s1, Publish(q, born, true));
    assert s2.claims.Keys == {q};
    acts, end := DeadOwnersYield(hz, s2, q, map[]);
    Consed(hz, s1, Publish(q, born, true), acts, end);
    acts := [Publish(q, born, true)] + acts;
    Consed(hz, s, Release(p), acts, end);
    acts := [Release(p)] + acts;
  }
}
