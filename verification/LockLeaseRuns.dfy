/**
Whole runs of the storage-root lock (`src/store/index.ts`): what a process does to the file is
traced back to what it read there. Unless a theorem names a hazard it holds in every run,
hazards included.
*/
module LockLeaseRuns {
  import opened LockLease

  /** The states a run passes through, one more than its actions. */
  ghost predicate Run(tm: Timing, h: Hazards, states: seq<State>, acts: seq<Action>) {
    && |states| == |acts| + 1 && Init(states[0])
    && forall k | 0 <= k < |acts| :: Stepped(tm, h, states[k], acts[k], states[k + 1])
  }

  ghost predicate Stepped(tm: Timing, h: Hazards, s: State, a: Action, t: State) {
    Enabled(tm, s, a) && Allowed(h, s, a) && t == Next(tm, s, a)
  }

  lemma {:induction false} PathIsRun(tm: Timing, h: Hazards, s: State, acts: seq<Action>, end: State) returns (states: seq<State>)
    requires Path(tm, h, s, acts, end)
    ensures |states| == |acts| + 1 && states[0] == s && states[|acts|] == end
    ensures forall k | 0 <= k < |acts| :: Stepped(tm, h, states[k], acts[k], states[k + 1])
    decreases |acts|
  {
    if acts == [] {
      states := [s];
    } else {
      var rest := PathIsRun(tm, h, Next(tm, s, acts[0]), acts[1..], end);
      states := [s] + rest;
      forall k | 0 <= k < |acts| ensures Stepped(tm, h, states[k], acts[k], states[k + 1]) {
        if k > 0 { assert Stepped(tm, h, rest[k - 1], acts[1..][k - 1], rest[k]); }
      }
    }
  }

  predicate Names(file: File, p: Id) {
    file.Lock? && file.owner == p
  }

  // ---------------------------------------------------------------- what a write goes back to

  predicate Releasing(s: State, p: Id) {
    p in s.procs && s.procs[p].Owner? && s.procs[p].releasing
  }

  /** A release under way began with a sample in which the file named the process. */
  lemma {:induction false} ReleasingSince(tm: Timing, h: Hazards, states: seq<State>, acts: seq<Action>, k: nat, p: Id) returns (j: nat)
    requires Run(tm, h, states, acts) && k <= |acts| && Releasing(states[k], p)
    ensures j < k && acts[j] == Act(p, ReleaseSample) && Names(states[j].file, p)
    ensures forall i | j < i < k :: acts[i] != Act(p, ReleaseRemove) && acts[i] != Act(p, ReleaseFail) && acts[i] != Act(p, ReleaseSample)
    decreases k
  {
    assert k > 0;
    j := k - 1;
    assert Stepped(tm, h, states[j], acts[j], states[j + 1]);
    if Releasing(states[j], p) {
      j := ReleasingSince(tm, h, states, acts, j, p);
    }
  }

  /** The file is removed only by a process that read its own name there before, as the first
      half of the same release. */
  lemma ReleaseIsOwn(tm: Timing, h: Hazards, states: seq<State>, acts: seq<Action>, k: nat, p: Id) returns (j: nat)
    requires Run(tm, h, states, acts) && k < |acts| && acts[k] == Act(p, ReleaseRemove)
    ensures j < k && acts[j] == Act(p, ReleaseSample) && Names(states[j].file, p)
    ensures forall i | j < i < k :: acts[i] != Act(p, ReleaseRemove) && acts[i] != Act(p, ReleaseFail)
  {
    assert Stepped(tm, h, states[k], acts[k], states[k + 1]);
    j := ReleasingSince(tm, h, states, acts, k, p);
  }

  predicate Renewing(s: State, p: Id, n: nat) {
    p in s.procs && s.procs[p].Owner? && n in s.procs[p].renewing
  }

  lemma {:induction false} RenewingSince(tm: Timing, h: Hazards, states: seq<State>, acts: seq<Action>, k: nat, p: Id, n: nat) returns (j: nat)
    requires Run(tm, h, states, acts) && k <= |acts| && Renewing(states[k], p, n)
    ensures j < k && acts[j] == Act(p, RenewSample) && states[j].file == Lock(p, n)
    decreases k
  {
    assert k > 0;
    j := k - 1;
    assert Stepped(tm, h, states[j], acts[j], states[j + 1]);
    if Renewing(states[j], p, n) {
      j := RenewingSince(tm, h, states, acts, j, p, n);
    } else {
      RenewingSampled(tm, states[j], acts[j], p, n);
    }
  }

  lemma RenewingSampled(tm: Timing, s: State, a: Action, p: Id, n: nat)
    requires Enabled(tm, s, a) && Renewing(Next(tm, s, a), p, n) && !Renewing(s, p, n)
    ensures a == Act(p, RenewSample) && s.file == Lock(p, n)
  {
  }

  /** A renewal writes one more than a stamp of its own that the process read before. */
  lemma RenewalIsOwn(tm: Timing, h: Hazards, states: seq<State>, acts: seq<Action>, k: nat, p: Id, i: nat) returns (j: nat)
    requires Run(tm, h, states, acts) && k < |acts| && acts[k] == Act(p, RenewWrite(i))
    ensures j < k && acts[j] == Act(p, RenewSample) && Names(states[j].file, p)
    ensures states[k + 1].file == Lock(p, states[j].file.renewals + 1)
  {
    assert Stepped(tm, h, states[k], acts[k], states[k + 1]);
    var n := states[k].procs[p].renewing[i];
    j := RenewingSince(tm, h, states, acts, k, p, n);
  }

  /** Watching and judging a lock: the process read the same lock twice, a window apart. */
  lemma {:induction false} WatchingSince(tm: Timing, h: Hazards, states: seq<State>, acts: seq<Action>, k: nat, p: Id) returns (j: nat)
    requires Run(tm, h, states, acts) && k <= |acts| && p in states[k].procs && states[k].procs[p].Watching?
    ensures j < k && acts[j] == Act(p, First) && states[k].procs[p] == Watching(states[j].file, states[j].now) && states[j].file.Lock?
    decreases k
  {
    assert k > 0;
    j := k - 1;
    assert Stepped(tm, h, states[j], acts[j], states[j + 1]);
    if p in states[j].procs && states[j].procs[p].Watching? {
      j := WatchingSince(tm, h, states, acts, j, p);
    }
  }

  lemma {:induction false} JudgedSince(tm: Timing, h: Hazards, states: seq<State>, acts: seq<Action>, k: nat, p: Id) returns (j: nat)
    requires Run(tm, h, states, acts) && k <= |acts| && p in states[k].procs && states[k].procs[p].Judged?
    ensures j < k && acts[j] == Act(p, Second) && p in states[j].procs && states[j].procs[p].Watching?
    ensures states[j].file == states[j].procs[p].first
    ensures states[j].procs[p].since + tm.window <= states[j].now
    decreases k
  {
    assert k > 0;
    j := k - 1;
    assert Stepped(tm, h, states[j], acts[j], states[j + 1]);
    if p in states[j].procs && states[j].procs[p].Judged? {
      j := JudgedSince(tm, h, states, acts, j, p);
    }
  }

  /** A lock is overwritten only by a process that read it twice, a whole window apart, and found
      the same owner and the same stamp. */
  lemma ReclaimWasWatched(tm: Timing, h: Hazards, states: seq<State>, acts: seq<Action>, k: nat, p: Id) returns (i: nat, j: nat)
    requires Run(tm, h, states, acts) && k < |acts| && acts[k] == Act(p, Overwrite)
    ensures i < j < k && acts[i] == Act(p, First) && acts[j] == Act(p, Second)
    ensures states[i].file.Lock? && states[i].file == states[j].file && states[i].now + tm.window <= states[j].now
  {
    assert Stepped(tm, h, states[k], acts[k], states[k + 1]);
    j := JudgedSince(tm, h, states, acts, k, p);
    i := WatchingSince(tm, h, states, acts, j, p);
  }

  // ---------------------------------------------------------------- being displaced

  /** The process reads the file to renew or release its lock. */
  predicate ReadsOwn(a: Action) {
    a.Act? && (a.op.RenewSample? || a.op.ReleaseSample?)
  }

  predicate Plain(ph: Phase) {
    ph.Owner? ==> ph.held && |ph.renewing| <= 1 && (ph.renewing == [] || !ph.releasing)
  }

  lemma {:induction false} RunPlain(tm: Timing, h: Hazards, states: seq<State>, acts: seq<Action>, k: nat, p: Id)
    requires Run(tm, h, states, acts) && !h.overlap && !h.stacked && k <= |acts| && p in states[k].procs
    ensures Plain(states[k].procs[p])
    decreases k
  {
    if k > 0 {
      assert Stepped(tm, h, states[k - 1], acts[k - 1], states[k]);
      if p in states[k - 1].procs {
        RunPlain(tm, h, states, acts, k - 1, p);
        StepPlain(tm, h, states[k - 1], acts[k - 1], p);
      }
    }
  }

  lemma StepPlain(tm: Timing, h: Hazards, s: State, a: Action, p: Id)
    requires !h.overlap && !h.stacked && Enabled(tm, s, a) && Allowed(h, s, a) && p in s.procs && Plain(s.procs[p])
    ensures Plain(Next(tm, s, a).procs[p])
  {
  }

  lemma {:induction false} OutForGood(tm: Timing, h: Hazards, states: seq<State>, acts: seq<Action>, j: nat, k: nat, p: Id)
    requires Run(tm, h, states, acts) && j <= k <= |acts| && p in states[j].procs && states[j].procs[p].Out?
    ensures p in states[k].procs && states[k].procs[p].Out?
    decreases k
  {
    if j < k {
      OutForGood(tm, h, states, acts, j, k - 1, p);
      assert Stepped(tm, h, states[k - 1], acts[k - 1], states[k]);
    }
  }

  /** Whoever reads, to renew or to release, a file that is gone, unreadable or another's leaves
      the file as it is and holds the lock no more. */
  lemma DisplacedLetsGo(tm: Timing, h: Hazards, states: seq<State>, acts: seq<Action>, j: nat, p: Id)
    requires Run(tm, h, states, acts) && j < |acts| && acts[j].Act? && acts[j].p == p && ReadsOwn(acts[j])
    ensures states[j + 1].file == states[j].file
    ensures Holds(states[j + 1], p) <==> Names(states[j].file, p)
  {
    assert Stepped(tm, h, states[j], acts[j], states[j + 1]);
  }

  /** Without overlapping or stacked renewals that is its last act: nothing it does later touches
      the file of its successor. */
  lemma DisplacedIsDone(tm: Timing, h: Hazards, states: seq<State>, acts: seq<Action>, j: nat, k: nat, p: Id)
    requires Run(tm, h, states, acts) && !h.overlap && !h.stacked && j < k < |acts|
    requires acts[j].Act? && acts[j].p == p && ReadsOwn(acts[j]) && !Names(states[j].file, p)
    ensures !(acts[k].Act? && acts[k].p == p) && !Holds(states[k], p)
  {
    assert Stepped(tm, h, states[j], acts[j], states[j + 1]);
    RunPlain(tm, h, states, acts, j, p);
    OutForGood(tm, h, states, acts, j + 1, k, p);
    assert Stepped(tm, h, states[k], acts[k], states[k + 1]);
  }

  /** A sample on which a claimant gives up: the lock cannot be read, is renewed while it is
      watched, or is another's when the reclaim is to be confirmed. */
  predicate Refuses(s: State, p: Id, op: Op) {
    && (op.First? || op.Second? || op.Confirm?)
    && (s.file.Corrupt?
        || (op.Second? && s.file.Lock? && p in s.procs && s.procs[p].Watching? && s.file != s.procs[p].first)
        || (op.Confirm? && s.file.Lock? && s.file.owner != p))
  }

  /** Then it leaves the file as it is, and does nothing any more. */
  lemma RefusedIsDone(tm: Timing, h: Hazards, states: seq<State>, acts: seq<Action>, j: nat, k: nat, p: Id, op: Op)
    requires Run(tm, h, states, acts) && j < k < |acts| && acts[j] == Act(p, op) && Refuses(states[j], p, op)
    ensures states[j + 1].file == states[j].file && !(acts[k].Act? && acts[k].p == p) && !Holds(states[k], p)
  {
    assert Stepped(tm, h, states[j], acts[j], states[j + 1]);
    OutForGood(tm, h, states, acts, j + 1, k, p);
    assert Stepped(tm, h, states[k], acts[k], states[k + 1]);
  }

  /** A release that finds its own lock removes it: the file is gone and the lock is free. */
  lemma ReleaseGoesThrough(tm: Timing, h: Hazards, s: State, p: Id) returns (acts: seq<Action>, end: State)
    requires Holds(s, p) && Names(s.file, p) && s.procs[p].renewing == [] && !s.procs[p].releasing
    ensures Path(tm, h, s, acts, end) && end.file.Absent? && !Holds(end, p) && end.now == s.now
  {
    acts := [Act(p, ReleaseSample), Act(p, ReleaseRemove)];
    var mid := Next(tm, s, acts[0]);
    end := Next(tm, mid, acts[1]);
    assert acts[1..] == [acts[1]];
    assert Path(tm, h, mid, [acts[1]], end);
  }

  // ---------------------------------------------------------------- files nobody may take

  predicate Barred(s: State) {
    && s.file.Corrupt?
    && forall p | p in s.procs :: s.procs[p].Linking? || s.procs[p].Sampling? || s.procs[p].Out?
  }

  /** A lock that cannot be read is never overwritten, removed or held, in any run. */
  lemma {:induction false} CorruptStays(tm: Timing, h: Hazards, states: seq<State>, acts: seq<Action>, k: nat)
    requires Run(tm, h, states, acts) && states[0].file.Corrupt? && k <= |acts|
    ensures Barred(states[k]) && forall p :: !Holds(states[k], p)
    decreases k
  {
    if k > 0 {
      CorruptStays(tm, h, states, acts, k - 1);
      assert Stepped(tm, h, states[k - 1], acts[k - 1], states[k]);
    }
  }

  // ---------------------------------------------------------------- getting the lock

  lemma Two(tm: Timing, h: Hazards, s: State, a: Action, b: Action)
    requires Enabled(tm, s, a) && Allowed(h, s, a)
    requires Enabled(tm, Next(tm, s, a), b) && Allowed(h, Next(tm, s, a), b)
    ensures Path(tm, h, s, [a, b], Next(tm, Next(tm, s, a), b))
  {
    assert [a, b][1..] == [b];
    assert Path(tm, h, Next(tm, s, a), [b], Next(tm, Next(tm, s, a), b));
  }

  /** What a claimant of a lock samples next, if its wait is over. */
  predicate MaySample(tm: Timing, s: State, p: Id, op: Op) {
    (op.First? || op.Second? || op.Confirm?) && p in s.procs && Can(tm, op, s.now, s.procs[p])
  }

  /** Whenever a claimant's sample, be it the first, the second or the confirming one, finds the
      file gone, the claimant tries the exclusive claim again, and gets the lock if nobody links
      in between. */
  lemma FreedIsClaimed(tm: Timing, h: Hazards, s: State, p: Id, op: Op)
    requires s.file.Absent? && MaySample(tm, s, p, op) && (op.Confirm? ==> h.absentConfirm)
    ensures Enabled(tm, Next(tm, s, Act(p, op)), Act(p, Link))
    ensures var end := Next(tm, Next(tm, s, Act(p, op)), Act(p, Link));
      Path(tm, h, s, [Act(p, op), Act(p, Link)], end) && Holds(end, p) && end.file == Lock(p, 0)
  {
    Two(tm, h, s, Act(p, op), Act(p, Link));
  }

  lemma {:induction false} Joined(tm: Timing, h: Hazards, s: State, a: seq<Action>, mid: State, b: seq<Action>, end: State)
    requires Path(tm, h, s, a, mid) && Path(tm, h, mid, b, end)
    ensures Path(tm, h, s, a + b, end)
    decreases |a|
  {
    if a == [] {
      assert a + b == b;
    } else {
      assert (a + b)[1..] == a[1..] + b;
      Joined(tm, h, Next(tm, s, a[0]), a[1..], mid, b, end);
    }
  }

  /** All that ever ran is gone, and the lock of one of them is left. */
  predicate LeftBehind(s: State) {
    s.file.Lock? && forall p | p in s.procs :: s.procs[p].Out?
  }

  lemma Watched(tm: Timing, h: Hazards, s: State, p: Id) returns (mid: State)
    requires LeftBehind(s) && p !in s.procs
    ensures Path(tm, h, s, [Boot(p), Act(p, Link)] + [Act(p, First), Tick(tm.window)], mid)
    ensures mid == State(s.now + tm.window, s.file, s.wroteAt, s.procs[p := Watching(s.file, s.now)])
  {
    Two(tm, h, s, Boot(p), Act(p, Link));
    var s2 := Next(tm, Next(tm, s, Boot(p)), Act(p, Link));
    Two(tm, h, s2, Act(p, First), Tick(tm.window));
    mid := Next(tm, Next(tm, s2, Act(p, First)), Tick(tm.window));
    Joined(tm, h, s, [Boot(p), Act(p, Link)], s2, [Act(p, First), Tick(tm.window)], mid);
    assert mid.procs == s.procs[p := Watching(s.file, s.now)];
  }

  /** The lock of a dead owner does not stay: a process that starts alone gets it, one window and
      one interval later. */
  lemma StaleIsReclaimed(tm: Timing, h: Hazards, s: State, p: Id) returns (acts: seq<Action>, end: State)
    requires LeftBehind(s) && p !in s.procs && tm.interval < tm.window
    ensures Path(tm, h, s, acts, end) && Holds(end, p) && end.file == Lock(p, 0)
    ensures end.now == s.now + tm.window + tm.interval
  {
    var mid := Watched(tm, h, s, p);
    var s3 := Next(tm, mid, Act(p, Second));
    Two(tm, h, mid, Act(p, Second), Act(p, Overwrite));
    var s4 := Next(tm, s3, Act(p, Overwrite));
    Two(tm, h, s4, Tick(tm.interval), Act(p, Confirm));
    end := Next(tm, Next(tm, s4, Tick(tm.interval)), Act(p, Confirm));
    Joined(tm, h, mid, [Act(p, Second), Act(p, Overwrite)], s4, [Tick(tm.interval), Act(p, Confirm)], end);
    acts := [Boot(p), Act(p, Link)] + [Act(p, First), Tick(tm.window)]
          + ([Act(p, Second), Act(p, Overwrite)] + [Tick(tm.interval), Act(p, Confirm)]);
    Joined(tm, h, s, [Boot(p), Act(p, Link)] + [Act(p, First), Tick(tm.window)], mid,
           [Act(p, Second), Act(p, Overwrite)] + [Tick(tm.interval), Act(p, Confirm)], end);
  }
}
