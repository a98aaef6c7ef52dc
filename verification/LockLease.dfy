/**
The storage-root lock of `src/store/index.ts`: any number of server processes race on one
file, and each process is a sequence of atomic file operations separated by waits. The
clock is discrete, in milliseconds.

Reading the file, the exclusive link, the rename over it and its removal are atomic. A
process is known by its `instanceId`, which is fresh for every process.
*/
module LockLease {
  import opened Common

  const LOCK_OBSERVATION_WINDOW_MS: nat := 10_000
  const LOCK_RENEWAL_INTERVAL_MS: nat := 2_000

  type Id = int

  datatype File = Absent | Corrupt | Lock(owner: Id, renewals: nat)

  /** Where a process stands between two file operations. `Owner.held` says its `heldLock`
      is set; `renewing` are the stamps that its renewals in flight have sampled, and
      `releasing` a release that has sampled the file; neither has written yet. */
  datatype Phase =
    | Linking
    | Sampling
    | Watching(first: File, since: nat)
    | Judged(at: nat)
    | Pending(since: nat)
    | Owner(held: bool, renewing: seq<nat>, releasing: bool)
    | Out

  datatype Timing = Timing(window: nat, interval: nat)

  // ---------------------------------------------------------------- one process

  datatype Op =
    | Link | First | Second | Overwrite | Confirm
    | RenewSample | RenewWrite(i: nat) | RenewFail(i: nat)
    | ReleaseSample | ReleaseRemove | ReleaseFail
    | Crash

  predicate Can(tm: Timing, op: Op, now: nat, ph: Phase) {
    match op
    case Link => ph.Linking?
    case First => ph.Sampling?
    case Second => ph.Watching? && ph.since + tm.window <= now
    case Overwrite => ph.Judged?
    case Confirm => ph.Pending? && ph.since + tm.interval <= now
    case RenewSample => ph.Owner? && ph.held
    case RenewWrite(i) => ph.Owner? && i < |ph.renewing|
    case RenewFail(i) => ph.Owner? && i < |ph.renewing|
    case ReleaseSample => ph.Owner? && ph.held && !ph.releasing
    case ReleaseRemove => ph.Owner? && ph.releasing
    case ReleaseFail => ph.Owner? && ph.releasing
    case Crash => !ph.Out?
  }

  /** The process is done with the lock once it neither holds it nor has anything in flight:
      nulling `heldLock` calls off no renewal and no release. */
  function Owning(held: bool, renewing: seq<nat>, releasing: bool): Phase {
    if held || renewing != [] || releasing then Owner(held, renewing, releasing) else Out
  }

  function Landed(renewing: seq<nat>, i: nat): seq<nat>
    requires i < |renewing|
  {
    renewing[..i] + renewing[i + 1..]
  }

  function Do(tm: Timing, op: Op, self: Id, now: nat, file: File, ph: Phase): (File, Phase)
    requires Can(tm, op, now, ph)
  {
    match op
    case Link => if file.Absent? then (Lock(self, 0), Owner(true, [], false)) else (file, Sampling)
    case First => (file, if file.Absent? then Linking else if file.Corrupt? then Out else Watching(file, now))
    case Second => (file, if file.Absent? then Linking else if file == ph.first && file.Lock? then Judged(now) else Out)
    case Overwrite => (Lock(self, 0), Pending(now))
    case Confirm => (file, if file.Absent? then Linking
                           else if file.Lock? && file.owner == self then Owner(true, [], false) else Out)
    case RenewSample =>
      (file, if file.Lock? && file.owner == self then ph.(renewing := ph.renewing + [file.renewals])
             else Owning(false, ph.renewing, ph.releasing))
    case RenewWrite(i) => (Lock(self, ph.renewing[i] + 1), Owner(true, Landed(ph.renewing, i), ph.releasing))
    case RenewFail(i) => (file, Owning(ph.held, Landed(ph.renewing, i), ph.releasing))
    case ReleaseSample =>
      (file, if file.Lock? && file.owner == self then ph.(releasing := true) else Owning(false, ph.renewing, false))
    case ReleaseRemove => (Absent, Owning(false, ph.renewing, false))
    case ReleaseFail => (file, Owning(ph.held, ph.renewing, false))
    case Crash => (file, Out)
  }

  predicate Writes(op: Op, file: File) {
    op.Overwrite? || op.RenewWrite? || (op.Link? && file.Absent?)
  }

  class LockFile {
    var content: File

    constructor (content: File)
      ensures this.content == content
    {
      this.content := content;
    }
  }

  /** One process's end of the lock, one method per uninterrupted piece of `claimLock`,
      `renewLock` and `releaseLock`. */
  class LockClient {
    const self: Id
    const tm: Timing
    const disk: LockFile
    var phase: Phase

    constructor (self: Id, tm: Timing, disk: LockFile)
      ensures this.self == self && this.tm == tm && this.disk == disk && phase == Linking
    {
      this.self, this.tm, this.disk, phase := self, tm, disk, Linking;
    }

    method TryClaimExclusive(now: nat)
      requires Can(tm, Link, now, phase)
      modifies this, disk
      ensures (disk.content, phase) == Do(tm, Link, self, now, old(disk.content), old(phase))
    {
      match disk.content
      case Absent => disk.content, phase := Lock(self, 0), Owner(true, [], false);
      case Corrupt => phase := Sampling;
      case Lock(_, _) => phase := Sampling;
    }

    method SampleFirst(now: nat)
      requires Can(tm, First, now, phase)
      modifies this
      ensures (disk.content, phase) == Do(tm, First, self, now, old(disk.content), old(phase))
    {
      match disk.content
      case Absent => phase := Linking;
      case Corrupt => phase := Out;
      case Lock(_, _) => phase := Watching(disk.content, now);
    }

    method SampleSecond(now: nat)
      requires Can(tm, Second, now, phase)
      modifies this
      ensures (disk.content, phase) == Do(tm, Second, self, now, old(disk.content), old(phase))
    {
      match disk.content
      case Absent => phase := Linking;
      case Corrupt => phase := Out;
      case Lock(owner, renewals) =>
        var same := phase.first.Lock? && phase.first.owner == owner && phase.first.renewals == renewals;
        phase := if same then Judged(now) else Out;
    }

    method Reclaim(now: nat)
      requires Can(tm, Overwrite, now, phase)
      modifies this, disk
      ensures (disk.content, phase) == Do(tm, Overwrite, self, now, old(disk.content), old(phase))
    {
      disk.content, phase := Lock(self, 0), Pending(now);
    }

    method ConfirmReclaim(now: nat)
      requires Can(tm, Confirm, now, phase)
      modifies this
      ensures (disk.content, phase) == Do(tm, Confirm, self, now, old(disk.content), old(phase))
    {
      match disk.content
      case Absent => phase := Linking;
      case Corrupt => phase := Out;
      case Lock(owner, _) => phase := if owner == self then Owner(true, [], false) else Out;
    }

    /** The timer starts a renewal whether or not an earlier one is still in flight. */
    method SampleForRenewal(now: nat)
      requires Can(tm, RenewSample, now, phase)
      modifies this
      ensures (disk.content, phase) == Do(tm, RenewSample, self, now, old(disk.content), old(phase))
    {
      if disk.content.Lock? && disk.content.owner == self {
        phase := Owner(true, phase.renewing + [disk.content.renewals], phase.releasing);
      } else {
        phase := Owning(false, phase.renewing, phase.releasing);
      }
    }

    method WriteRenewal(now: nat, i: nat)
      requires Can(tm, RenewWrite(i), now, phase)
      modifies this, disk
      ensures (disk.content, phase) == Do(tm, RenewWrite(i), self, now, old(disk.content), old(phase))
    {
      disk.content := Lock(self, phase.renewing[i] + 1);
      phase := Owner(true, Landed(phase.renewing, i), phase.releasing);
    }

    method SampleForRelease(now: nat)
      requires Can(tm, ReleaseSample, now, phase)
      modifies this
      ensures (disk.content, phase) == Do(tm, ReleaseSample, self, now, old(disk.content), old(phase))
    {
      if disk.content.Lock? && disk.content.owner == self {
        phase := Owner(true, phase.renewing, true);
      } else {
        phase := Owning(false, phase.renewing, false);
      }
    }

    method RemoveLock(now: nat)
      requires Can(tm, ReleaseRemove, now, phase)
      modifies this, disk
      ensures (disk.content, phase) == Do(tm, ReleaseRemove, self, now, old(disk.content), old(phase))
    {
      disk.content := Absent;
      phase := Owning(false, phase.renewing, false);
    }
  }

  // ---------------------------------------------------------------- all processes

  /** `wroteAt` is when the file last got its present content. */
  datatype State = State(now: nat, file: File, wroteAt: nat, procs: map<Id, Phase>)

  datatype Action = Tick(d: nat) | Boot(p: Id) | Act(p: Id, op: Op)

  predicate Alive(ph: Phase) {
    ph.Pending? || (ph.Owner? && ph.held)
  }

  /** The two timing assumptions, as deadlines of the clock: whoever decided to overwrite
      does so less than one interval after its sample, and a living process named in the
      file writes to it again less than one window after its last write. */
  predicate MayPass(tm: Timing, s: State, later: nat) {
    && (forall p | p in s.procs && s.procs[p].Judged? :: later < s.procs[p].at + tm.interval)
    && (s.file.Lock? && s.file.owner in s.procs && Alive(s.procs[s.file.owner]) ==> later < s.wroteAt + tm.window)
  }

  predicate Enabled(tm: Timing, s: State, a: Action) {
    match a
    case Tick(d) => MayPass(tm, s, s.now + d)
    case Boot(p) => p !in s.procs
    case Act(p, op) => p in s.procs && Can(tm, op, s.now, s.procs[p])
  }

  function Next(tm: Timing, s: State, a: Action): State
    requires Enabled(tm, s, a)
  {
    match a
    case Tick(d) => s.(now := s.now + d)
    case Boot(p) => s.(procs := s.procs[p := Linking])
    case Act(p, op) =>
      var (file, ph) := Do(tm, op, p, s.now, s.file, s.procs[p]);
      State(s.now, file, if Writes(op, s.file) then s.now else s.wroteAt, s.procs[p := ph])
  }

  /** The file may be a leftover of a dead process, or unreadable. */
  ghost predicate Init(s: State) {
    && s.wroteAt <= s.now
    && s.procs == if s.file.Lock? then map[s.file.owner := Out] else map[]
  }

  /** Three things a run may contain. `absentConfirm`: a reclaimer's confirming sample finds no
      file, so it starts over and publishes its first stamp a second time. `overlap`: a
      release and a renewal of the same process are in flight together. `stacked`: a renewal
      samples the file while an earlier one of the same process has yet to write. */
  datatype Hazards = Hazards(absentConfirm: bool, overlap: bool, stacked: bool)

  predicate Allowed(h: Hazards, s: State, a: Action) {
    a.Act? && a.p in s.procs ==>
      && (a.op.Confirm? && s.file.Absent? ==> h.absentConfirm)
      && (a.op.ReleaseSample? && s.procs[a.p].Owner? && s.procs[a.p].renewing != [] ==> h.overlap)
      && (a.op.RenewSample? && s.procs[a.p].Owner? && s.procs[a.p].releasing ==> h.overlap)
      && (a.op.RenewSample? && s.procs[a.p].Owner? && s.procs[a.p].renewing != [] ==> h.stacked)
  }

  ghost predicate Path(tm: Timing, h: Hazards, s: State, acts: seq<Action>, end: State)
    decreases |acts|
  {
    if acts == [] then end == s
    else Enabled(tm, s, acts[0]) && Allowed(h, s, acts[0]) && Path(tm, h, Next(tm, s, acts[0]), acts[1..], end)
  }

  ghost predicate Reachable(tm: Timing, h: Hazards, s: State) {
    exists init, acts :: Init(init) && Path(tm, h, init, acts, s)
  }

  predicate Holds(s: State, p: Id) {
    p in s.procs && s.procs[p].Owner? && s.procs[p].held
  }

  ghost predicate MutualExclusion(s: State) {
    forall p, q | Holds(s, p) && Holds(s, q) :: p == q
  }

  /** A write under the lock's protection meets the writer's own lock, and a reclaim never
      removes the lock of a process that holds it. */
  ghost predicate TouchesOnlyOwn(s: State, a: Action) {
    a.Act? ==>
      && (a.op.RenewWrite? || a.op.ReleaseRemove? ==> s.file.Lock? && s.file.owner == a.p)
      && (a.op.Overwrite? ==> s.file.Lock? && !Holds(s, s.file.owner))
  }

  // ---------------------------------------------------------------- the invariant

  predicate Started(ph: Phase) {
    ph.Pending? || ph.Owner? || ph.Out?
  }

  ghost predicate ProcInv(tm: Timing, s: State, p: Id)
    requires p in s.procs
  {
    var ph := s.procs[p];
    && (!Started(ph) && s.file.Lock? ==> s.file.owner != p)
    && (ph.Watching? ==>
          && ph.first.Lock? && ph.since <= s.now
          && ph.first.owner in s.procs && Started(s.procs[ph.first.owner])
          && (s.file.Lock? && s.file.owner == ph.first.owner ==>
                ph.first.renewals <= s.file.renewals && (ph.first == s.file ==> s.wroteAt <= ph.since)))
    && (ph.Judged? ==>
          && ph.at <= s.now < ph.at + tm.interval
          && s.file.Lock? && s.file.owner in s.procs
          && (s.procs[s.file.owner].Out? || (s.procs[s.file.owner].Pending? && ph.at <= s.wroteAt)))
    && (ph.Pending? && s.file.Lock? && s.file.owner == p ==> s.wroteAt == ph.since)
    && (ph.Owner? ==>
          && ph.held && s.file.Lock? && s.file.owner == p
          && (ph.renewing == [] || (!ph.releasing && ph.renewing == [s.file.renewals])))
  }

  ghost predicate Inv(tm: Timing, s: State) {
    && s.wroteAt <= s.now
    && (s.file.Lock? ==>
          && s.file.owner in s.procs && Started(s.procs[s.file.owner])
          && (Alive(s.procs[s.file.owner]) ==> s.now < s.wroteAt + tm.window))
    && forall p | p in s.procs :: ProcInv(tm, s, p)
  }

  const CALM := Hazards(false, false, false)

  lemma TickKeepsInv(tm: Timing, s: State, a: Action)
    requires Inv(tm, s) && a.Tick? && Enabled(tm, s, a)
    ensures Inv(tm, Next(tm, s, a))
  {
    var t := Next(tm, s, a);
    forall q | q in t.procs ensures ProcInv(tm, t, q) { assert ProcInv(tm, s, q); }
  }

  /** Every other process: only a write can matter to it. */
  lemma ActKeepsOthers(tm: Timing, s: State, p: Id, op: Op, q: Id)
    requires 0 < tm.window && 0 < tm.interval && p != q && q in s.procs
    requires Inv(tm, s) && Enabled(tm, s, Act(p, op)) && Allowed(CALM, s, Act(p, op))
    ensures ProcInv(tm, Next(tm, s, Act(p, op)), q)
  {
    assert ProcInv(tm, s, p) && ProcInv(tm, s, q);
    if s.file.Lock? { assert ProcInv(tm, s, s.file.owner); }
    var t := Next(tm, s, Act(p, op));
    match op {
      case Link =>
      case Overwrite =>
      case RenewWrite(_) =>
      case ReleaseRemove =>
      case Confirm =>
      case _ =>
    }
  }

  /** In a calm run a process has at most one renewal in flight, and nothing behind it. */
  lemma LandsAlone(tm: Timing, s: State, p: Id, i: nat)
    requires p in s.procs && ProcInv(tm, s, p) && s.procs[p].Owner? && i < |s.procs[p].renewing|
    ensures i == 0 && s.procs[p].renewing == [s.file.renewals] && Landed(s.procs[p].renewing, i) == []
  {
  }

  lemma ActKeepsSelf(tm: Timing, s: State, p: Id, op: Op)
    requires 0 < tm.window && 0 < tm.interval
    requires Inv(tm, s) && Enabled(tm, s, Act(p, op)) && Allowed(CALM, s, Act(p, op))
    ensures ProcInv(tm, Next(tm, s, Act(p, op)), p)
    ensures TouchesOnlyOwn(s, Act(p, op))
  {
    assert ProcInv(tm, s, p);
    if s.file.Lock? { assert ProcInv(tm, s, s.file.owner); }
    match op {
      case Second =>
      case Confirm =>
      case RenewWrite(i) => LandsAlone(tm, s, p, i);
      case RenewFail(i) => LandsAlone(tm, s, p, i);
      case _ =>
    }
  }

  lemma StepKeepsInv(tm: Timing, s: State, a: Action)
    requires 0 < tm.window && 0 < tm.interval
    requires Inv(tm, s) && Enabled(tm, s, a) && Allowed(CALM, s, a)
    ensures Inv(tm, Next(tm, s, a))
    ensures TouchesOnlyOwn(s, a)
  {
    var t := Next(tm, s, a);
    match a {
      case Tick(d) => TickKeepsInv(tm, s, a);
      case Boot(p) =>
        forall q | q in t.procs ensures ProcInv(tm, t, q) {
          if q != p { assert ProcInv(tm, s, q); }
        }
      case Act(p, op) =>
        ActKeepsSelf(tm, s, p, op);
        forall q | q in t.procs ensures ProcInv(tm, t, q) {
          if q != p { ActKeepsOthers(tm, s, p, op, q); }
        }
        assert ProcInv(tm, s, p);
    }
  }

  // ---------------------------------------------------------------- runs

  lemma {:induction false} PathKeepsInv(tm: Timing, s: State, acts: seq<Action>, end: State)
    requires 0 < tm.window && 0 < tm.interval
    requires Inv(tm, s) && Path(tm, CALM, s, acts, end)
    ensures Inv(tm, end)
    decreases |acts|
  {
    if acts != [] {
      StepKeepsInv(tm, s, acts[0]);
      PathKeepsInv(tm, Next(tm, s, acts[0]), acts[1..], end);
    }
  }

  /** Any positive window and interval, any number of processes, any interleaving and any
      crash: without the three hazards at most one process holds the lock, and no renewal,
      release or reclaim ever touches the lock of another holder. */
  lemma LeaseSafe(tm: Timing, s: State)
    requires 0 < tm.window && 0 < tm.interval
    requires Reachable(tm, CALM, s)
    ensures MutualExclusion(s)
    ensures forall p | Holds(s, p) :: s.file.Lock? && s.file.owner == p
    ensures forall a | Enabled(tm, s, a) && Allowed(CALM, s, a) :: TouchesOnlyOwn(s, a)
  {
    var init, acts :| Init(init) && Path(tm, CALM, init, acts, s);
    PathKeepsInv(tm, init, acts, s);
    forall p | Holds(s, p) ensures s.file.Lock? && s.file.owner == p { assert ProcInv(tm, s, p); }
    forall a | Enabled(tm, s, a) && Allowed(CALM, s, a) ensures TouchesOnlyOwn(s, a) { StepKeepsInv(tm, s, a); }
  }

  lemma {:induction false} PathSnoc(tm: Timing, h: Hazards, s: State, acts: seq<Action>, mid: State, a: Action)
    requires Path(tm, h, s, acts, mid) && Enabled(tm, mid, a) && Allowed(h, mid, a)
    ensures Path(tm, h, s, acts + [a], Next(tm, mid, a))
    decreases |acts|
  {
    if acts != [] {
      assert (acts + [a])[1..] == acts[1..] + [a];
      PathSnoc(tm, h, Next(tm, s, acts[0]), acts[1..], mid, a);
    }
  }

  lemma Go(tm: Timing, h: Hazards, s: State, a: Action) returns (t: State)
    requires Reachable(tm, h, s) && Enabled(tm, s, a) && Allowed(h, s, a)
    ensures t == Next(tm, s, a) && Reachable(tm, h, t)
  {
    t := Next(tm, s, a);
    var init, acts :| Init(init) && Path(tm, h, init, acts, s);
    PathSnoc(tm, h, init, acts, s, a);
  }

  const SOURCE_TIMING := Timing(LOCK_OBSERVATION_WINDOW_MS, LOCK_RENEWAL_INTERVAL_MS)

  ghost predicate TwoHold(s: State, p: Id, q: Id) {
    p != q && Holds(s, p) && Holds(s, q)
  }

  lemma Start(h: Hazards, file: File) returns (s: State)
    requires !file.Corrupt?
    ensures Reachable(SOURCE_TIMING, h, s) && s.now == 0 && s.file == file && s.wroteAt == 0
    ensures s.procs == if file.Lock? then map[file.owner := Out] else map[]
  {
    s := State(0, file, 0, if file.Lock? then map[file.owner := Out] else map[]);
    assert Path(SOURCE_TIMING, h, s, [], s);
  }

  lemma ThreeBoot(h: Hazards) returns (s: State)
    ensures Reachable(SOURCE_TIMING, h, s)
    ensures s == State(0, Lock(0, 7), 0, map[0 := Out, 1 := Linking, 2 := Linking, 3 := Sampling])
  {
    s := Start(h, Lock(0, 7));
    s := Go(SOURCE_TIMING, h, s, Boot(1));
    s := Go(SOURCE_TIMING, h, s, Boot(2));
    s := Go(SOURCE_TIMING, h, s, Boot(3));
    s := Go(SOURCE_TIMING, h, s, Act(3, Link));
  }

  lemma TwoWatch(h: Hazards) returns (s: State)
    ensures Reachable(SOURCE_TIMING, h, s)
    ensures s == State(0, Lock(0, 7), 0, map[0 := Out, 1 := Watching(Lock(0, 7), 0), 2 := Watching(Lock(0, 7), 0), 3 := Sampling])
  {
    s := ThreeBoot(h);
    s := Go(SOURCE_TIMING, h, s, Act(1, Link));
    s := Go(SOURCE_TIMING, h, s, Act(2, Link));
    s := Go(SOURCE_TIMING, h, s, Act(1, First));
    s := Go(SOURCE_TIMING, h, s, Act(2, First));
  }

  lemma TwoReclaimersRace(h: Hazards) returns (s: State)
    ensures Reachable(SOURCE_TIMING, h, s)
    ensures s == State(10_000, Lock(1, 0), 10_000, map[0 := Out, 1 := Pending(10_000), 2 := Judged(10_000), 3 := Sampling])
  {
    s := TwoWatch(h);
    s := Go(SOURCE_TIMING, h, s, Tick(10_000));
    s := Go(SOURCE_TIMING, h, s, Act(1, Second));
    s := Go(SOURCE_TIMING, h, s, Act(2, Second));
    s := Go(SOURCE_TIMING, h, s, Act(1, Overwrite));
  }

  lemma SecondWriterWins(h: Hazards) returns (s: State)
    ensures Reachable(SOURCE_TIMING, h, s)
    ensures s == State(12_000, Lock(2, 0), 10_000,
      map[0 := Out, 1 := Pending(10_000), 2 := Owner(true, [], false), 3 := Watching(Lock(1, 0), 10_000)])
  {
    s := TwoReclaimersRace(h);
    s := Go(SOURCE_TIMING, h, s, Act(3, First));
    s := Go(SOURCE_TIMING, h, s, Act(2, Overwrite));
    s := Go(SOURCE_TIMING, h, s, Tick(2_000));
    s := Go(SOURCE_TIMING, h, s, Act(2, Confirm));
  }

  lemma WinnerLeaves(h: Hazards) returns (s: State)
    ensures Reachable(SOURCE_TIMING, h, s)
    ensures s == State(12_000, Absent, 10_000, map[0 := Out, 1 := Pending(10_000), 2 := Out, 3 := Watching(Lock(1, 0), 10_000)])
  {
    s := SecondWriterWins(h);
    s := Go(SOURCE_TIMING, h, s, Act(2, ReleaseSample));
    s := Go(SOURCE_TIMING, h, s, Act(2, ReleaseRemove));
  }

  lemma WinnerComesAndGoes(h: Hazards) returns (s: State)
    requires h.absentConfirm
    ensures Reachable(SOURCE_TIMING, h, s)
    ensures s == State(16_000, Absent, 10_000, map[0 := Out, 1 := Linking, 2 := Out, 3 := Watching(Lock(1, 0), 10_000)])
  {
    s := WinnerLeaves(h);
    s := Go(SOURCE_TIMING, h, s, Tick(4_000));
    s := Go(SOURCE_TIMING, h, s, Act(1, Confirm));
  }

  /** First hazard, at the source's own constants. Processes 1 and 2 both judge the lock of
      dead process 0 stale; 2 overwrites last, confirms and releases before 1 takes its
      confirming sample; 1 finds no file and links its first stamp again, four seconds late.
      Process 3, which sampled 1's first stamp, sees the same stamp ten seconds later and
      displaces 1, whose last write is then four seconds old. */
  lemma AbsentConfirmBreaks(h: Hazards) returns (s: State)
    requires h.absentConfirm
    ensures Reachable(SOURCE_TIMING, h, s) && TwoHold(s, 1, 3)
  {
    var tm := SOURCE_TIMING;
    s := WinnerComesAndGoes(h);
    s := Go(tm, h, s, Act(1, Link));
    s := Go(tm, h, s, Tick(4_000));
    s := Go(tm, h, s, Act(3, Second));
    s := Go(tm, h, s, Act(3, Overwrite));
    s := Go(tm, h, s, Tick(2_000));
    s := Go(tm, h, s, Act(3, Confirm));
  }

  /** Second hazard: process 1's release removes the file between the sample and the write
      of its own renewal; the write then lands on the lock of process 2. */
  lemma OverlapBreaks(h: Hazards) returns (s: State)
    requires h.overlap
    ensures Reachable(SOURCE_TIMING, h, s) && TwoHold(s, 1, 2)
  {
    var tm := SOURCE_TIMING;
    s := Start(h, Absent);
    s := Go(tm, h, s, Boot(1));
    s := Go(tm, h, s, Boot(2));
    s := Go(tm, h, s, Act(1, Link));
    s := Go(tm, h, s, Act(1, RenewSample));
    s := Go(tm, h, s, Act(1, ReleaseSample));
    s := Go(tm, h, s, Act(1, ReleaseRemove));
    s := Go(tm, h, s, Act(2, Link));
    s := Go(tm, h, s, Act(1, RenewWrite(0)));
  }

  lemma LandedOnly(x: nat)
    ensures Landed([x], 0) == []
  {
  }

  lemma LandedFirst(x: nat, y: nat)
    ensures Landed([x, y], 0) == [y]
  {
  }

  lemma OneHoldsOneWaits(h: Hazards) returns (s: State)
    ensures Reachable(SOURCE_TIMING, h, s)
    ensures s == State(0, Lock(1, 0), 0, map[1 := Owner(true, [], false), 2 := Sampling])
  {
    s := Start(h, Absent);
    hide Reachable;
    s := Go(SOURCE_TIMING, h, s, Boot(1));
    s := Go(SOURCE_TIMING, h, s, Boot(2));
    s := Go(SOURCE_TIMING, h, s, Act(1, Link));
    s := Go(SOURCE_TIMING, h, s, Act(2, Link));
  }

  lemma TwiceSampled(h: Hazards) returns (s: State)
    requires h.stacked
    ensures Reachable(SOURCE_TIMING, h, s)
    ensures s == State(4_000, Lock(1, 0), 0, map[1 := Owner(true, [0, 0], false), 2 := Sampling])
  {
    s := OneHoldsOneWaits(h);
    hide Reachable;
    s := Go(SOURCE_TIMING, h, s, Tick(3_500));
    s := Go(SOURCE_TIMING, h, s, Act(1, RenewSample));
    assert s.procs[1] == Owner(true, [0], false);
    s := Go(SOURCE_TIMING, h, s, Tick(500));
    s := Go(SOURCE_TIMING, h, s, Act(1, RenewSample));
    assert s.procs[1] == Owner(true, [0, 0], false);
  }

  lemma FirstWritten(h: Hazards) returns (s: State)
    requires h.stacked
    ensures Reachable(SOURCE_TIMING, h, s)
    ensures s == State(5_400, Lock(1, 1), 5_400, map[1 := Owner(true, [0], false), 2 := Sampling])
  {
    s := TwiceSampled(h);
    hide Reachable, Landed;
    s := Go(SOURCE_TIMING, h, s, Tick(1_400));
    LandedFirst(0, 0);
    s := Go(SOURCE_TIMING, h, s, Act(1, RenewWrite(0)));
    assert s.procs == map[1 := Owner(true, [0], false), 2 := Sampling];
  }

  lemma FirstWatched(h: Hazards) returns (s: State)
    requires h.stacked
    ensures Reachable(SOURCE_TIMING, h, s)
    ensures s == State(5_900, Lock(1, 1), 5_400, map[1 := Owner(true, [0], false), 2 := Watching(Lock(1, 1), 5_450)])
  {
    s := FirstWritten(h);
    hide Reachable;
    s := Go(SOURCE_TIMING, h, s, Tick(50));
    s := Go(SOURCE_TIMING, h, s, Act(2, First));
    s := Go(SOURCE_TIMING, h, s, Tick(450));
  }

  lemma SecondWritten(h: Hazards) returns (s: State)
    requires h.stacked
    ensures Reachable(SOURCE_TIMING, h, s)
    ensures s == State(5_900, Lock(1, 1), 5_900, map[1 := Owner(true, [], false), 2 := Watching(Lock(1, 1), 5_450)])
  {
    s := FirstWatched(h);
    hide Reachable, Landed;
    LandedOnly(0);
    s := Go(SOURCE_TIMING, h, s, Act(1, RenewWrite(0)));
  }

  lemma TwiceWritten(h: Hazards) returns (s: State)
    requires h.stacked
    ensures Reachable(SOURCE_TIMING, h, s)
    ensures s == State(15_450, Lock(1, 1), 5_900, map[1 := Owner(true, [], false), 2 := Judged(15_450)])
  {
    s := SecondWritten(h);
    hide Reachable;
    s := Go(SOURCE_TIMING, h, s, Tick(9_550));
    s := Go(SOURCE_TIMING, h, s, Act(2, Second));
  }

  lemma RenewedOnceMore(h: Hazards) returns (s: State)
    requires h.stacked
    ensures Reachable(SOURCE_TIMING, h, s)
    ensures s == State(15_800, Lock(1, 2), 15_800, map[1 := Owner(true, [], false), 2 := Judged(15_450)])
  {
    s := TwiceWritten(h);
    hide Reachable, Landed;
    s := Go(SOURCE_TIMING, h, s, Act(1, RenewSample));
    assert s.procs[1] == Owner(true, [1], false);
    s := Go(SOURCE_TIMING, h, s, Tick(350));
    LandedOnly(1);
    s := Go(SOURCE_TIMING, h, s, Act(1, RenewWrite(0)));
  }

  /** Third hazard, at the source's own constants: process 1 has two renewals in flight, which
      sample the same stamp and write the same next one, half a second apart. Process 2 has
      watched the stamp since it was written first, and judges it stale although process 1
      never pauses for a whole window; process 1 renews once more before it is overwritten. */
  lemma StackedBreaks(h: Hazards) returns (s: State)
    requires h.stacked
    ensures Reachable(SOURCE_TIMING, h, s) && TwoHold(s, 1, 2)
  {
    s := RenewedOnceMore(h);
    hide Reachable;
    s := Go(SOURCE_TIMING, h, s, Tick(200));
    s := Go(SOURCE_TIMING, h, s, Act(2, Overwrite));
    s := Go(SOURCE_TIMING, h, s, Tick(2_000));
    s := Go(SOURCE_TIMING, h, s, Act(2, Confirm));
  }

  /** Under the timing assumptions, mutual exclusion holds in every run exactly when runs
      are kept clear of all three hazards. */
  lemma LeaseExact(h: Hazards)
    ensures (forall s :: Reachable(SOURCE_TIMING, h, s) ==> MutualExclusion(s)) <==>
            !h.absentConfirm && !h.overlap && !h.stacked
  {
    if h.absentConfirm {
      var s := AbsentConfirmBreaks(h);
      assert Holds(s, 1) && Holds(s, 3);
    } else if h.overlap {
      var s := OverlapBreaks(h);
      assert Holds(s, 1) && Holds(s, 2);
    } else if h.stacked {
      var s := StackedBreaks(h);
      assert Holds(s, 1) && Holds(s, 2);
    } else {
      forall s | Reachable(SOURCE_TIMING, h, s) ensures MutualExclusion(s) { LeaseSafe(SOURCE_TIMING, s); }
    }
  }
}
