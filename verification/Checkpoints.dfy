/**
Restoring a checkpoint without touching what the workspace ignores: the preflight and the order
of steps in `src/agent-console/extensions/checkpoints/index.ts`. Git itself is a model: an index
of tracked paths, and `read-tree --reset -u`, which makes tracked paths match the target and
clears whatever stands in the way of a path it writes.
*/
module Checkpoints {
  import opened Common

  type Blob = nat
  type Tree = map<string, Blob>

  /** `atOrBeneath`: the entry itself, or a path inside the directory it names. */
  predicate AtOrBeneath(p: string, entry: string) {
    p == entry || entry + "/" <= p
  }

  /** Equal, above, or beneath. */
  predicate Touches(p: string, t: string) {
    AtOrBeneath(p, t) || AtOrBeneath(t, p)
  }

  ghost predicate Collides(p: string, targets: seq<string>) {
    exists k :: 0 <= k < |targets| && Touches(p, targets[k])
  }

  ghost function Colliding(entries: seq<string>, targets: seq<string>): seq<string> {
    if entries == [] then []
    else Colliding(entries[..|entries| - 1], targets) + if Collides(entries[|entries| - 1], targets) then [entries[|entries| - 1]] else []
  }

  // ---------------------------------------------------------------- the preflight

  lemma InsideMeans(p: string, entry: string)
    ensures entry + "/" <= p <==> |entry| < |p| && p[|entry|] == '/' && p[..|entry|] == entry
  {
    if |entry| < |p| && p[|entry|] == '/' && p[..|entry|] == entry {
      assert p[..|entry| + 1] == entry + "/";
    }
  }

  /** `indexOf('/', from)`, or the length of the string. */
  method NextSlash(s: string, from: nat) returns (i: nat)
    requires from <= |s|
    ensures from <= i <= |s| && (i < |s| ==> s[i] == '/') && '/' !in s[from..i]
  {
    i := from;
    while i < |s| && s[i] != '/'
      invariant from <= i <= |s| && '/' !in s[from..i]
    {
      i := i + 1;
    }
  }

  /** `q` is a directory above one of the first `k` targets. */
  ghost predicate Above(q: string, targets: seq<string>, k: nat) {
    exists j :: 0 <= j < k && j < |targets| && q + "/" <= targets[j]
  }

  /** The directories above `t` whose names end before position `i`. */
  ghost predicate AboveBefore(q: string, t: string, i: nat) {
    q + "/" <= t && |q| < i
  }

  lemma NextPrefix(t: string, from: nat, i: nat, q: string)
    requires from <= i < |t| && t[i] == '/' && '/' !in t[from..i]
    ensures AboveBefore(q, t, i + 1) <==> AboveBefore(q, t, from) || q == t[..i]
  {
    InsideMeans(t, q);
    InsideMeans(t, t[..i]);
    if from <= |q| < i { assert t[|q|] == t[from..i][|q| - from]; }
  }

  lemma NoMorePrefix(t: string, from: nat, q: string)
    requires from <= |t| && '/' !in t[from..]
    ensures q + "/" <= t <==> AboveBefore(q, t, from)
  {
    InsideMeans(t, q);
    if from <= |q| < |t| { assert t[|q|] == t[from..][|q| - from]; }
  }

  method HoldsBeneath(targetPaths: seq<string>) returns (dirs: set<string>)
    ensures forall q :: q in dirs <==> Above(q, targetPaths, |targetPaths|)
  {
    dirs := {};
    for k := 0 to |targetPaths|
      invariant forall q :: q in dirs <==> Above(q, targetPaths, k)
    {
      var t := targetPaths[k];
      ghost var before := dirs;
      var i := NextSlash(t, 0);
      ghost var from := 0;
      while i < |t|
        invariant 0 <= from <= i <= |t| && (i < |t| ==> t[i] == '/') && '/' !in t[from..i]
        invariant forall q :: q in dirs <==> q in before || AboveBefore(q, t, from)
        decreases |t| - i
      {
        forall q ensures AboveBefore(q, t, i + 1) <==> AboveBefore(q, t, from) || q == t[..i] { NextPrefix(t, from, i, q); }
        dirs := dirs + {t[..i]};
        from := i + 1;
        i := NextSlash(t, i + 1);
      }
      assert t[from..i] == t[from..];
      forall q ensures Above(q, targetPaths, k + 1) <==> Above(q, targetPaths, k) || q + "/" <= t {
        NoMorePrefix(t, from, q);
        if q + "/" <= t { assert 0 <= k < k + 1 && q + "/" <= targetPaths[k]; }
      }
      forall q ensures q + "/" <= t <==> AboveBefore(q, t, from) { NoMorePrefix(t, from, q); }
    }
  }

  /** Whether some directory above `p` is held as a file. */
  method HeldAbove(p: string, held: set<string>) returns (hit: bool)
    ensures hit <==> exists q :: q in held && q + "/" <= p
  {
    var i := NextSlash(p, 0);
    ghost var from := 0;
    hit := false;
    while !hit && i < |p|
      invariant 0 <= from <= i <= |p| && (i < |p| ==> p[i] == '/')
      invariant !hit ==> '/' !in p[from..i] && forall q | q in held :: !AboveBefore(q, p, from)
      invariant hit ==> exists q :: q in held && q + "/" <= p
      decreases |p| - i, !hit
    {
      forall q ensures AboveBefore(q, p, i + 1) <==> AboveBefore(q, p, from) || q == p[..i] { NextPrefix(p, from, i, q); }
      hit := p[..i] in held;
      InsideMeans(p, p[..i]);
      from := i + 1;
      if !hit { i := NextSlash(p, i + 1); } else { from := i; }
    }
    if !hit {
      assert p[from..i] == p[from..];
      forall q | q in held ensures !(q + "/" <= p) { NoMorePrefix(p, from, q); }
    }
  }

  /** `collisions`: every protected entry that equals, stands above or stands beneath a path of
      the target, in order. */
  method Collisions(protectedSet: seq<string>, targetPaths: seq<string>) returns (colliding: seq<string>)
    ensures colliding == Colliding(protectedSet, targetPaths)
  {
    var held := set t | t in targetPaths;
    var holdsBeneath := HoldsBeneath(targetPaths);
    colliding := [];
    for k := 0 to |protectedSet|
      invariant colliding == Colliding(protectedSet[..k], targetPaths)
    {
      var p := protectedSet[k];
      var hit := p in held || p in holdsBeneath;
      if !hit { hit := HeldAbove(p, held); }
      HitMeans(p, targetPaths, held);
      assert hit <==> Collides(p, targetPaths);
      assert protectedSet[..k + 1][..k] == protectedSet[..k];
      if hit { colliding := colliding + [p]; }
    }
    assert protectedSet[..|protectedSet|] == protectedSet;
  }

  lemma HitMeans(p: string, targets: seq<string>, held: set<string>)
    requires forall t :: t in held <==> t in targets
    ensures Collides(p, targets) <==> p in held || Above(p, targets, |targets|) || exists q :: q in held && q + "/" <= p
  {
    if k :| 0 <= k < |targets| && Touches(p, targets[k]) { assert targets[k] in held; }
    if Above(p, targets, |targets|) {
      var j :| 0 <= j < |targets| && p + "/" <= targets[j];
      assert Touches(p, targets[j]);
    }
    if q :| q in held && q + "/" <= p {
      var j :| 0 <= j < |targets| && targets[j] == q;
      assert Touches(p, targets[j]);
    }
    if p in held {
      var j :| 0 <= j < |targets| && targets[j] == p;
      assert Touches(p, targets[j]);
    }
  }

  // ---------------------------------------------------------------- what git does to the workspace

  ghost predicate IsProtected(p: string, entries: seq<string>) {
    exists k :: 0 <= k < |entries| && AtOrBeneath(p, entries[k])
  }

  /** Something of the target must stand at, above or beneath this path. */
  ghost predicate InTheWay(p: string, target: Tree) {
    exists t :: t in target && Touches(p, t)
  }

  /** The index after `add -A`: every path that is not ignored. */
  ghost function Added(files: Tree, entries: seq<string>): set<string> {
    set p | p in files && !IsProtected(p, entries)
  }

  /** The work-tree after `read-tree --reset -u`: the target's paths, and what was not tracked and
      not in their way. */
  ghost function ReadTree(files: Tree, tracked: set<string>, target: Tree): Tree {
    map p | p in files.Keys + target.Keys && (p in target || (p !in tracked && !InTheWay(p, target))) ::
      if p in target then target[p] else files[p]
  }

  ghost function Protected(files: Tree, entries: seq<string>): Tree {
    map p | p in files && IsProtected(p, entries) :: files[p]
  }

  ghost predicate NoCollision(entries: seq<string>, target: Tree) {
    forall k | 0 <= k < |entries| :: !InTheWay(entries[k], target)
  }

  /** Two paths around a common path are one above the other. */
  lemma AroundSame(x: string, a: string, b: string)
    requires AtOrBeneath(x, a) && AtOrBeneath(x, b)
    ensures Touches(a, b)
  {
    InsideMeans(x, a);
    InsideMeans(x, b);
    InsideMeans(a, b);
    InsideMeans(b, a);
    if |a| < |b| && x != b { assert b == x[..|b|] && b[|a|] == x[|a|] && b[..|a|] == x[..|a|]; }
    if |b| < |a| && x != a { assert a == x[..|a|] && a[|b|] == x[|b|] && a[..|b|] == x[..|b|]; }
    if |a| == |b| && x != a && x != b { assert a == x[..|a|] && b == x[..|b|]; }
  }

  lemma BeneathBoth(x: string, y: string, a: string)
    requires AtOrBeneath(x, y) && AtOrBeneath(y, a)
    ensures AtOrBeneath(x, a)
  {
    if x != y && y != a { assert a + "/" <= y <= x; }
  }

  /** A path at or beneath a protected entry is in the target's way only if the entry is. */
  lemma ProtectedIsClear(x: string, entry: string, target: Tree)
    requires AtOrBeneath(x, entry) && !InTheWay(entry, target)
    ensures !InTheWay(x, target)
  {
    forall t | t in target ensures !Touches(x, t) {
      assert !Touches(entry, t);
      if AtOrBeneath(x, t) { AroundSame(x, entry, t); }
      if AtOrBeneath(t, x) { BeneathBoth(t, x, entry); }
    }
  }

  /** A restore that passes the preflight leaves exactly the target and, untouched, everything at
      or beneath a protected entry. */
  lemma PreflightProtects(files: Tree, entries: seq<string>, target: Tree)
    requires NoCollision(entries, target)
    ensures ReadTree(files, Added(files, entries), target) == Protected(files, entries) + target
    ensures Protected(files, entries).Keys !! target.Keys
  {
    forall x | IsProtected(x, entries) ensures !InTheWay(x, target) && x !in target {
      var k :| 0 <= k < |entries| && AtOrBeneath(x, entries[k]);
      ProtectedIsClear(x, entries[k], target);
      assert x in target ==> Touches(x, x);
    }
    hide IsProtected, InTheWay, NoCollision;
  }

  /** Without the preflight a colliding file would not survive: it is gone, or the target's. */
  lemma CollisionLoses(files: Tree, tracked: set<string>, target: Tree, p: string)
    requires p in files && InTheWay(p, target)
    ensures var after := ReadTree(files, tracked, target); p in after ==> p in target && after[p] == target[p]
  {
  }

  /** An ignored entry names a file, or a directory with a file in it. */
  ghost predicate Names(files: Tree, entry: string) {
    exists p :: p in files && AtOrBeneath(p, entry)
  }

  /** A work-tree holds no path beneath a file. */
  ghost predicate IsTree(files: Tree) {
    forall p, q | p in files && q in files :: !(q + "/" <= p)
  }

  ghost function Snapshot(files: Tree, entries: seq<string>): Tree {
    map p | p in files && !IsProtected(p, entries) :: files[p]
  }

  /** The safety checkpoint holds nothing that a protected entry collides with. */
  lemma SafetyIsClear(files: Tree, entries: seq<string>)
    requires IsTree(files)
    requires forall k | 0 <= k < |entries| :: Names(files, entries[k])
    ensures NoCollision(entries, Snapshot(files, entries))
  {
    forall k, t | 0 <= k < |entries| && t in Snapshot(files, entries) ensures !Touches(entries[k], t) {
      assert !AtOrBeneath(t, entries[k]) && Names(files, entries[k]);
      var p :| p in files && AtOrBeneath(p, entries[k]);
      NotUnderFile(files, entries[k], t, p);
    }
  }

  lemma NotUnderFile(files: Tree, entry: string, t: string, p: string)
    requires IsTree(files) && t in files && p in files && AtOrBeneath(p, entry) && !AtOrBeneath(t, entry)
    ensures !AtOrBeneath(entry, t)
  {
    if AtOrBeneath(entry, t) { BeneathBoth(p, entry, t); }
  }

  lemma TargetUnprotected(entries: seq<string>, target: Tree, x: string)
    requires NoCollision(entries, target) && x in target
    ensures !IsProtected(x, entries)
  {
    forall k | 0 <= k < |entries| ensures !AtOrBeneath(x, entries[k]) {
      assert !InTheWay(entries[k], target) && !Touches(entries[k], x);
    }
  }

  lemma KeepsProtected(files: Tree, entries: seq<string>, target: Tree)
    requires NoCollision(entries, target)
    ensures Protected(Protected(files, entries) + target, entries) == Protected(files, entries)
  {
    hide NoCollision, IsProtected;
    forall x | x in target ensures !IsProtected(x, entries) { TargetUnprotected(entries, target, x); }
  }

  lemma ProtectedAndRest(files: Tree, entries: seq<string>)
    ensures Protected(files, entries) + Snapshot(files, entries) == files
  {
    hide IsProtected;
  }

  /** A restore can be undone: restoring the safety checkpoint it took, under the same ignored
      set, passes the preflight and brings back the workspace as it was. */
  lemma RestoreIsRecoverable(files: Tree, entries: seq<string>, target: Tree)
    requires IsTree(files) && NoCollision(entries, target)
    requires forall k | 0 <= k < |entries| :: Names(files, entries[k])
    ensures var restored, safety := ReadTree(files, Added(files, entries), target), Snapshot(files, entries);
      NoCollision(entries, safety) && ReadTree(restored, Added(restored, entries), safety) == files
  {
    SafetyIsClear(files, entries);
    PreflightProtects(files, entries, target);
    KeepsProtected(files, entries, target);
    PreflightProtects(Protected(files, entries) + target, entries, Snapshot(files, entries));
    ProtectedAndRest(files, entries);
    hide *;
  }

  // ---------------------------------------------------------------- the verification

  /** What `diff --quiet` asks: every tracked path holds what the target holds. */
  predicate Agrees(left: Tree, target: Tree) {
    forall t | t in target :: t in left && left[t] == target[t]
  }

  /** What `ls-files --others` lists: untracked paths that the rules of the target do not hide. */
  ghost predicate ListsOthers(others: seq<string>, left: Tree, target: Tree, hidden: set<string>) {
    forall p :: p in others <==> p in left && p !in target && p !in hidden
  }

  /** The first protected entry that holds a path. */
  function Holder(entries: seq<string>, p: string): (e: Option<string>)
    ensures e.Some? ==> e.value in entries && AtOrBeneath(p, e.value)
    ensures e.None? ==> forall k | 0 <= k < |entries| :: !AtOrBeneath(p, entries[k])
  {
    if entries == [] then None
    else if AtOrBeneath(p, entries[0]) then Some(entries[0])
    else
      var e := Holder(entries[1..], p);
      assert e.None? ==> forall k | 1 <= k < |entries| :: entries[k] == entries[1..][k - 1];
      e
  }

  /** The listed paths that no protected entry holds. */
  function Leftover(others: seq<string>, entries: seq<string>): seq<string> {
    if others == [] then []
    else
      var front, p := others[..|others| - 1], others[|others| - 1];
      Leftover(front, entries) + if Holder(entries, p).None? then [p] else []
  }

  ghost function Holders(others: seq<string>, entries: seq<string>): set<string> {
    set p | p in others && Holder(entries, p).Some? :: Holder(entries, p).value
  }

  /** Some of the entries, in their order. */
  function Chosen(entries: seq<string>, which: set<string>): seq<string> {
    if entries == [] then []
    else
      var e := entries[|entries| - 1];
      Chosen(entries[..|entries| - 1], which) + if e in which then [e] else []
  }

  lemma LeftoverSnoc(others: seq<string>, entries: seq<string>, k: nat)
    requires k < |others|
    ensures Leftover(others[..k + 1], entries) == Leftover(others[..k], entries) + if Holder(entries, others[k]).None? then [others[k]] else []
  {
    assert others[..k + 1][..k] == others[..k];
  }

  lemma ChosenSnoc(entries: seq<string>, which: set<string>, k: nat)
    requires k < |entries|
    ensures Chosen(entries[..k + 1], which) == Chosen(entries[..k], which) + if entries[k] in which then [entries[k]] else []
  {
    assert entries[..k + 1][..k] == entries[..k];
  }

  lemma HoldersSnoc(others: seq<string>, entries: seq<string>, k: nat)
    requires k < |others|
    ensures Holders(others[..k + 1], entries) ==
            Holders(others[..k], entries) + if Holder(entries, others[k]).Some? then {Holder(entries, others[k]).value} else {}
  {
    assert others[..k + 1] == others[..k] + [others[k]];
  }

  method FindHolder(entries: seq<string>, p: string) returns (e: Option<string>)
    ensures e == Holder(entries, p)
  {
    var i := 0;
    assert entries[0..] == entries;
    while i < |entries|
      invariant i <= |entries| && Holder(entries, p) == Holder(entries[i..], p)
    {
      if AtOrBeneath(p, entries[i]) { return Some(entries[i]); }
      assert entries[i..][1..] == entries[i + 1..];
      i := i + 1;
    }
    return None;
  }

  /** What was left behind, and the protected entries that the target's rules expose. */
  method SortOthers(others: seq<string>, entries: seq<string>) returns (leftover: seq<string>, exposed: seq<string>)
    ensures leftover == Leftover(others, entries)
    ensures exposed == Chosen(entries, Holders(others, entries))
  {
    hide Holder, Leftover, Holders, Chosen;
    var exposedSet: set<string> := {};
    leftover, exposed := [], [];
    SortNone(others, entries);
    for k := 0 to |others|
      invariant leftover == Leftover(others[..k], entries) && exposedSet == Holders(others[..k], entries)
    {
      LeftoverSnoc(others, entries, k);
      HoldersSnoc(others, entries, k);
      var holder := FindHolder(entries, others[k]);
      if holder.Some? { exposedSet := exposedSet + {holder.value}; } else { leftover := leftover + [others[k]]; }
    }
    assert others[..|others|] == others;
    ChosenNone(entries, exposedSet);
    for k := 0 to |entries|
      invariant exposed == Chosen(entries[..k], exposedSet)
    {
      ChosenSnoc(entries, exposedSet, k);
      if entries[k] in exposedSet { exposed := exposed + [entries[k]]; }
    }
    assert entries[..|entries|] == entries;
  }

  lemma SortNone(others: seq<string>, entries: seq<string>)
    ensures Leftover(others[..0], entries) == [] && Holders(others[..0], entries) == {}
  {
  }

  lemma ChosenNone(entries: seq<string>, which: set<string>)
    ensures Chosen(entries[..0], which) == []
  {
  }

  lemma {:induction false} LeftoverHas(others: seq<string>, entries: seq<string>)
    ensures forall p :: p in Leftover(others, entries) <==> p in others && !IsProtected(p, entries)
  {
    hide IsProtected;
    if others != [] {
      var n := |others| - 1;
      LeftoverHas(others[..n], entries);
      HolderMeans(entries, others[n]);
      assert others == others[..n] + [others[n]];
    }
  }

  lemma HolderMeans(entries: seq<string>, p: string)
    ensures Holder(entries, p).Some? <==> IsProtected(p, entries)
  {
    if Holder(entries, p).Some? {
      var k :| 0 <= k < |entries| && entries[k] == Holder(entries, p).value;
      assert AtOrBeneath(p, entries[k]);
    }
  }

  /** All that a verified work-tree can hold: the target, and beside it only what is protected or
      hidden by the rules of the target. */
  ghost predicate Verified(left: Tree, target: Tree, entries: seq<string>, hidden: set<string>) {
    Agrees(left, target) && forall p | p in left :: p in target || IsProtected(p, entries) || p in hidden
  }

  /** The two checks find out exactly that. */
  lemma ChecksAreVerified(left: Tree, target: Tree, entries: seq<string>, hidden: set<string>, others: seq<string>)
    requires ListsOthers(others, left, target, hidden)
    ensures Verified(left, target, entries, hidden) <==> Agrees(left, target) && Leftover(others, entries) == []
  {
    hide IsProtected;
    LeftoverHas(others, entries);
    if Leftover(others, entries) != [] { assert Leftover(others, entries)[0] in Leftover(others, entries); }
  }

  /** No false alarm: a `read-tree` that did its work passes them. */
  lemma GoodRestoreIsVerified(files: Tree, target: Tree, entries: seq<string>, hidden: set<string>)
    requires NoCollision(entries, target)
    ensures Verified(ReadTree(files, Added(files, entries), target), target, entries, hidden)
  {
    PreflightProtects(files, entries, target);
    hide IsProtected, NoCollision;
  }

  /** What they leave open: a verified work-tree is the target and the protected paths as they were
      if and only if those were not touched, and nothing that the target's rules hide was left. */
  lemma VerifiedIsRestoredWhen(files: Tree, left: Tree, target: Tree, entries: seq<string>, hidden: set<string>)
    requires NoCollision(entries, target) && Verified(left, target, entries, hidden)
    ensures left == Protected(files, entries) + target <==>
      && Protected(left, entries) == Protected(files, entries)
      && forall p | p in left && p in hidden :: p in target || IsProtected(p, entries)
  {
    KeepsProtected(files, entries, target);
    hide IsProtected, NoCollision;
    if Protected(left, entries) == Protected(files, entries) && forall p | p in left && p in hidden :: p in target || IsProtected(p, entries) {
      assert forall p | p in left :: p in target || p in Protected(left, entries);
    }
  }

  /** A path left behind, and hidden by the rules the target wrote, goes unnoticed. */
  lemma HiddenGoesUnnoticed()
    ensures var left: Tree, target: Tree := map["x" := 1], map[];
      Verified(left, target, [], {"x"}) && left != Protected(map["x" := 1], []) + target
  {
    var left: Tree := map["x" := 1];
    assert !IsProtected("x", []) && "x" in left;
    assert "x" !in Protected(left, []) + map[];
  }

  // ---------------------------------------------------------------- the restore

  datatype Outcome =
    | NoSuchCheckpoint | IgnoredSetUnreadable | IgnoredPathCollision(paths: seq<string>)
    | CommitFailed | RestoreIncomplete | Restored(exposed: seq<string>)

  /** How the git steps went: the target, if there is such a checkpoint; the ignored entries and
      the listing of the target, if they could be read; whether `read-tree` reported success, and
      the work-tree it left either way; whether `diff` could run; and the listing of untracked
      paths behind it. */
  datatype Steps = Steps(target: Option<Tree>, ignored: Option<seq<string>>, listed: Option<seq<string>>, committed: bool,
                         moved: bool, left: Tree, compared: bool, others: Option<seq<string>>)

  /** The preflight finds nothing in the way; without ignored entries there is nothing to look for. */
  ghost predicate Passes(git: Steps)
    requires git.ignored.Some?
  {
    git.ignored.value == [] || (git.listed.Some? && Colliding(git.ignored.value, git.listed.value) == [])
  }

  ghost predicate AllRan(git: Steps) {
    && git.target.Some? && git.ignored.Some? && Passes(git)
    && git.committed && git.moved && git.compared && git.others.Some?
  }

  class Workspace {
    ghost var files: Tree
    ghost var index: set<string>
    ghost var safety: seq<Tree>

    /** A refusal before the safety checkpoint changes nothing at all; a restore is reported as done
        exactly when the git steps succeeded and what `read-tree` left is verified, and leaves the
        way back either way. */
    method Restore(git: Steps, ghost hidden: set<string>) returns (outcome: Outcome)
      requires git.target.Some? && git.listed.Some? ==> forall t :: t in git.listed.value <==> t in git.target.value
      requires git.target.Some? && git.others.Some? ==> ListsOthers(git.others.value, git.left, git.target.value, hidden)
      modifies this
      ensures outcome.NoSuchCheckpoint? || outcome.IgnoredSetUnreadable? || outcome.IgnoredPathCollision? ==>
        files == old(files) && index == old(index) && safety == old(safety)
      ensures outcome.NoSuchCheckpoint? <==> git.target.None?
      ensures outcome.IgnoredSetUnreadable? <==>
        git.target.Some? && (git.ignored.None? || (git.ignored.value != [] && git.listed.None?))
      ensures outcome.Restored? <==> AllRan(git) && Verified(git.left, git.target.value, git.ignored.value, hidden)
      ensures outcome.IgnoredPathCollision? ==> git.ignored.Some? && git.listed.Some?
      ensures outcome.IgnoredPathCollision? ==> outcome.paths == Colliding(git.ignored.value, git.listed.value) != []
      ensures outcome.CommitFailed? ==> files == old(files) && safety == old(safety)
      ensures outcome.CommitFailed? ==> index == Added(old(files), git.ignored.value)
      ensures outcome.Restored? || outcome.RestoreIncomplete? || outcome.CommitFailed? ==> git.target.Some? && git.ignored.Some?
      ensures outcome.Restored? || outcome.RestoreIncomplete? ==> NoCollision(git.ignored.value, git.target.value)
      ensures outcome.Restored? || outcome.RestoreIncomplete? ==> safety == old(safety) + [Snapshot(old(files), git.ignored.value)]
      ensures outcome.Restored? || outcome.RestoreIncomplete? ==> files == git.left
      ensures outcome.Restored? ==> index == git.target.value.Keys
      ensures outcome.Restored? ==> outcome.exposed == Chosen(git.ignored.value, Holders(git.others.value, git.ignored.value))
      ensures AllRan(git) && git.left == ReadTree(old(files), Added(old(files), git.ignored.value), git.target.value) ==>
        outcome.Restored? && files == Protected(old(files), git.ignored.value) + git.target.value
    {
      if git.target.None? { return NoSuchCheckpoint; }
      if git.ignored.None? { return IgnoredSetUnreadable; }
      var protectedSet, target := git.ignored.value, git.target.value;
      if |protectedSet| > 0 {
        if git.listed.None? { return IgnoredSetUnreadable; }
        var colliding := Collisions(protectedSet, git.listed.value);
        if |colliding| > 0 { return IgnoredPathCollision(colliding); }
        NoneColliding(protectedSet, git.listed.value, target);
      }
      index := Added(files, protectedSet);
      if !git.committed { return CommitFailed; }
      safety := safety + [Snapshot(files, protectedSet)];
      PreflightProtects(files, protectedSet, target);
      GoodRestoreIsVerified(files, target, protectedSet, hidden);
      files := git.left;
      if !git.moved { return RestoreIncomplete; }
      index := target.Keys;
      if !git.compared || !Agrees(git.left, target) { return RestoreIncomplete; }
      if git.others.None? { return RestoreIncomplete; }
      ChecksAreVerified(git.left, target, protectedSet, hidden, git.others.value);
      var leftover, exposed := SortOthers(git.others.value, protectedSet);
      if |leftover| > 0 { return RestoreIncomplete; }
      return Restored(exposed);
    }
  }

  lemma {:induction false} CollidingHas(entries: seq<string>, targets: seq<string>, k: nat)
    requires k < |entries| && Collides(entries[k], targets)
    ensures entries[k] in Colliding(entries, targets)
    decreases |entries|
  {
    if k < |entries| - 1 { CollidingHas(entries[..|entries| - 1], targets, k); }
  }

  lemma NoneColliding(entries: seq<string>, listed: seq<string>, target: Tree)
    requires Colliding(entries, listed) == [] && forall t :: t in listed <==> t in target
    ensures NoCollision(entries, target)
  {
    forall k, t | 0 <= k < |entries| && t in target ensures !Touches(entries[k], t) {
      var j :| 0 <= j < |listed| && listed[j] == t;
      if Collides(entries[k], listed) { CollidingHas(entries, listed, k); }
    }
  }
}
