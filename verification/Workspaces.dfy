/**
Which sessions may work where: the containment test of
`src/agent-console/core/workspaces/jail.ts` on POSIX paths, and the allocator of
`src/agent-console/core/workspaces/allocator.ts` that limits how many live sessions share a
directory. Its guard runs each operation to its end.
*/
module Workspaces {
  import opened Common

  // ---------------------------------------------------------------- paths

  function WithSeparator(root: string): string {
    if root != "" && root[|root| - 1] == '/' then root else root + "/"
  }

  /** `isInsideRoot`: equal, or beneath. */
  predicate IsInside(resolved: string, root: string) {
    resolved == root || WithSeparator(root) <= resolved
  }

  predicate Overlap(a: string, b: string) {
    IsInside(a, b) || IsInside(b, a)
  }

  /** A name in a directory. */
  predicate IsName(n: string) {
    n != "" && '/' !in n
  }

  predicate AllNames(names: seq<string>) {
    forall i | 0 <= i < |names| :: IsName(names[i])
  }

  function Trail(names: seq<string>): string {
    if names == [] then "" else "/" + names[0] + Trail(names[1..])
  }

  /** The absolute path through these names, as the operating system resolves paths. */
  function PathOf(names: seq<string>): string {
    if names == [] then "/" else Trail(names)
  }

  lemma {:induction false} TrailEnd(names: seq<string>)
    requires AllNames(names) && names != []
    ensures |Trail(names)| >= 2 && Trail(names)[|Trail(names)| - 1] != '/'
  {
    assert IsName(names[0]);
    if |names| > 1 { TrailEnd(names[1..]); }
  }

  lemma SameName(a: string, b: string, s: string, t: string)
    requires IsName(a) && IsName(b) && s != "" && s[0] == '/' && t != "" && t[0] == '/'
    ensures "/" + a + s <= "/" + b + t <==> a == b && s <= t
  {
    var x, y := "/" + a + s, "/" + b + t;
    assert x[|a| + 1] == '/' && y[|b| + 1] == '/';
    assert forall i | 0 <= i < |a| :: x[i + 1] == a[i];
    assert forall i | 0 <= i < |b| :: y[i + 1] == b[i];
    if x <= y {
      assert |a| == |b|;
      assert a == x[1..|a| + 1] && b == y[1..|b| + 1];
      assert s == x[|a| + 1..] && t == y[|b| + 1..];
    }
  }

  lemma TrailStep(names: seq<string>)
    requires names != []
    ensures Trail(names) + "/" == "/" + names[0] + (Trail(names[1..]) + "/")
  {
  }

  lemma TrailOpens(names: seq<string>)
    ensures Trail(names) + "/" != "" && (Trail(names) + "/")[0] == '/'
  {
  }

  /** One trail leads on from another exactly when its names do. */
  lemma {:induction false} TrailPrefix(names: seq<string>, beneath: seq<string>)
    requires AllNames(names) && AllNames(beneath)
    ensures Trail(names) + "/" <= Trail(beneath) + "/" <==> names <= beneath
  {
    hide Trail;
    if names == [] {
      TrailNone();
      TrailOpens(beneath);
    } else if beneath == [] {
      TrailNone();
      TrailEnd(names);
    } else {
      TrailPrefix(names[1..], beneath[1..]);
      TrailStep(names);
      TrailStep(beneath);
      TrailOpens(names[1..]);
      TrailOpens(beneath[1..]);
      SameName(names[0], beneath[0], Trail(names[1..]) + "/", Trail(beneath[1..]) + "/");
      PrefixByHead(names, beneath);
    }
  }

  lemma TrailNone()
    ensures Trail([]) == ""
  {
  }

  lemma PrefixByHead(p: seq<string>, q: seq<string>)
    requires p != [] && q != []
    ensures p <= q <==> p[0] == q[0] && p[1..] <= q[1..]
  {
    assert p == [p[0]] + p[1..] && q == [q[0]] + q[1..];
  }

  /** Containment of paths is containment in the tree of directories: never a matter of two
      names that merely start alike. */
  lemma InsideIsBeneath(names: seq<string>, root: seq<string>)
    requires AllNames(names) && AllNames(root)
    ensures IsInside(PathOf(names), PathOf(root)) <==> root <= names
  {
    TrailPrefix(root, names);
    if root != [] { TrailEnd(root); }
    if names != [] { TrailEnd(names); }
    assert WithSeparator(PathOf(root)) == Trail(root) + "/";
    if Trail(root) + "/" <= Trail(names) + "/" && |root| > 0 && |names| > 0 {
      assert Trail(names) == (Trail(names) + "/")[..|Trail(names)|];
      assert Trail(root) == (Trail(root) + "/")[..|Trail(root)|];
    }
  }

  /** Two directories that contain the same directory contain one another. */
  lemma SharedIsOverlap(d: string, a: string, b: string)
    requires IsInside(d, a) && IsInside(d, b)
    ensures Overlap(a, b)
  {
    var x, y := WithSeparator(a), WithSeparator(b);
    if d != a && d != b {
      if |x| <= |y| { PrefixesCompare(d, a, b); } else { PrefixesCompare(d, b, a); }
    }
  }

  lemma PrefixesCompare(d: string, a: string, b: string)
    requires WithSeparator(a) <= d && WithSeparator(b) <= d && |WithSeparator(a)| <= |WithSeparator(b)|
    ensures Overlap(a, b)
  {
    var x, y := WithSeparator(a), WithSeparator(b);
    assert x == y[..|x|];
    if |x| == |y| {
      assert x == y;
      assert a == x[..|a|] && b == y[..|b|];
    } else {
      assert x <= b;
    }
  }

  // ---------------------------------------------------------------- reservations

  type Id = nat

  datatype Reservation = Reservation(id: Id, cwd: string, principal: string, live: bool, exclusive: bool)

  /** The reservations in the order of the map that holds them, one for each id. */
  ghost predicate Distinct(rs: seq<Reservation>) {
    forall i, j | 0 <= i < j < |rs| :: rs[i].id != rs[j].id
  }

  function Find(rs: seq<Reservation>, id: Id): Option<Reservation> {
    if rs == [] then None else if rs[0].id == id then Some(rs[0]) else Find(rs[1..], id)
  }

  /** `Map.set`: in place, or at the end. */
  function Set(rs: seq<Reservation>, r: Reservation): seq<Reservation> {
    if rs == [] then [r] else if rs[0].id == r.id then [r] + rs[1..] else [rs[0]] + Set(rs[1..], r)
  }

  /** `Map.delete`. */
  function Delete(rs: seq<Reservation>, id: Id): seq<Reservation> {
    if rs == [] then [] else if rs[0].id == id then rs[1..] else [rs[0]] + Delete(rs[1..], id)
  }

  function Overlapping(rs: seq<Reservation>, cwd: string): seq<Reservation> {
    if rs == [] then []
    else (if Overlap(cwd, rs[0].cwd) then [rs[0]] else []) + Overlapping(rs[1..], cwd)
  }

  lemma {:induction false} FindIs(rs: seq<Reservation>, id: Id)
    requires Distinct(rs)
    ensures forall r | r in rs && r.id == id :: Find(rs, id) == Some(r)
    ensures Find(rs, id).Some? ==> Find(rs, id).value in rs && Find(rs, id).value.id == id
  {
    if rs != [] { FindIs(rs[1..], id); }
  }

  lemma {:induction false} SetHolds(rs: seq<Reservation>, r: Reservation)
    requires Distinct(rs)
    ensures Distinct(Set(rs, r))
    ensures forall q :: q in Set(rs, r) <==> q == r || (q in rs && q.id != r.id)
  {
    if rs != [] && rs[0].id != r.id { SetHolds(rs[1..], r); }
  }

  lemma {:induction false} DeleteHolds(rs: seq<Reservation>, id: Id)
    requires Distinct(rs)
    ensures Distinct(Delete(rs, id))
    ensures forall q :: q in Delete(rs, id) <==> q in rs && q.id != id
  {
    if rs != [] && rs[0].id != id { DeleteHolds(rs[1..], id); }
  }

  lemma {:induction false} OverlappingHolds(rs: seq<Reservation>, cwd: string)
    ensures forall q :: q in Overlapping(rs, cwd) <==> q in rs && Overlap(cwd, q.cwd)
  {
    if rs != [] { OverlappingHolds(rs[1..], cwd); }
  }

  lemma OverlappingStep(rs: seq<Reservation>, i: nat, cwd: string)
    requires i < |rs|
    ensures Overlapping(rs[i..], cwd) ==
            if Overlap(cwd, rs[i].cwd) then [rs[i]] + Overlapping(rs[i + 1..], cwd) else Overlapping(rs[i + 1..], cwd)
  {
    assert rs[i..][1..] == rs[i + 1..];
  }

  lemma OverlappingNone(rs: seq<Reservation>, cwd: string)
    ensures Overlapping(rs[|rs|..], cwd) == []
  {
  }

  // ---------------------------------------------------------------- what every run keeps

  /** Reservations that overlap pairwise. */
  ghost predicate Clique(c: seq<Reservation>) {
    && Distinct(c)
    && forall i, j | 0 <= i < j < |c| :: Overlap(c[i].cwd, c[j].cwd)
  }

  ghost predicate Among(c: seq<Reservation>, rs: seq<Reservation>) {
    forall i | 0 <= i < |c| :: c[i] in rs
  }

  ghost predicate AllIn(c: seq<Reservation>, ids: set<Id>) {
    forall i | 0 <= i < |c| :: c[i].id in ids
  }

  ghost predicate NoneIn(c: seq<Reservation>, ids: set<Id>) {
    forall i | 0 <= i < |c| :: c[i].id !in ids
  }

  /** `recovered` are the ids restored, whatever the limit; `late` once one was restored behind
      a reservation that was let in. From then on only the others are limited. */
  ghost predicate Limited(rs: seq<Reservation>, recovered: set<Id>, max: nat, late: bool) {
    forall c: seq<Reservation> :: Bounded(c, rs, recovered, max, late)
  }

  ghost predicate Bounded(c: seq<Reservation>, rs: seq<Reservation>, recovered: set<Id>, max: nat, late: bool) {
    Clique(c) && Among(c, rs) && (late ==> NoneIn(c, recovered)) ==> |c| <= max || AllIn(c, recovered)
  }

  /** No other reservation overlaps this one, but for those to be spared. */
  ghost predicate Alone(rs: seq<Reservation>, r: Reservation, spared: set<Id>) {
    forall q | q in rs && q.id != r.id && q.id !in spared :: !Overlap(r.cwd, q.cwd)
  }

  ghost function Spared(recovered: set<Id>, late: bool): set<Id> {
    if late then recovered else {}
  }

  ghost predicate ExclusiveAlone(rs: seq<Reservation>, spared: set<Id>) {
    forall r | r in rs && r.exclusive :: Alone(rs, r, spared)
  }

  ghost predicate Inv(rs: seq<Reservation>, recovered: set<Id>, max: nat, late: bool) {
    Distinct(rs) && Limited(rs, recovered, max, late) && ExclusiveAlone(rs, Spared(recovered, late))
  }

  /** Every reservation there is was restored, and none is exclusive: boot is not over. */
  predicate Booting(rs: seq<Reservation>, recovered: set<Id>) {
    forall q | q in rs :: q.id in recovered && !q.exclusive
  }

  lemma {:induction false} Pigeonhole(c: seq<Reservation>, within: seq<Reservation>)
    requires Distinct(c) && Among(c, within)
    ensures |c| <= |within|
    decreases |c|
  {
    if c != [] {
      var k := IndexIn(within, c[0]);
      var rest := within[..k] + within[k + 1..];
      forall i | 1 <= i < |c| ensures c[i] in rest {
        var j := IndexIn(within, c[i]);
        assert j != k;
        assert within[j] == rest[if j < k then j else j - 1];
      }
      Pigeonhole(c[1..], rest);
    }
  }

  lemma IndexIn(rs: seq<Reservation>, r: Reservation) returns (k: nat)
    requires r in rs
    ensures k < |rs| && rs[k] == r
  {
    k :| k < |rs| && rs[k] == r;
  }

  /** A clique through a new reservation is no larger than what it overlapped when it was let
      in, and itself. */
  lemma CliqueThroughNew(rs: seq<Reservation>, r: Reservation, c: seq<Reservation>, k: nat)
    requires Distinct(rs) && Clique(c) && Among(c, Set(rs, r)) && k < |c| && c[k] == r
    ensures |c| <= |Overlapping(rs, r.cwd)| + 1
  {
    hide Set, Overlap, Overlapping;
    SetHolds(rs, r);
    OverlappingHolds(rs, r.cwd);
    var others := c[..k] + c[k + 1..];
    assert forall i | 0 <= i < |others| :: others[i] == c[if i < k then i else i + 1];
    forall i | 0 <= i < |others| ensures others[i] in Overlapping(rs, r.cwd) {
      var j := if i < k then i else i + 1;
      OverlapSym(c[j].cwd, r.cwd);
      assert c[j].id != r.id && c[j] in rs && Overlap(r.cwd, c[j].cwd);
    }
    assert Distinct(others);
    Pigeonhole(others, Overlapping(rs, r.cwd));
  }

  lemma OverlapSym(a: string, b: string)
    ensures Overlap(a, b) == Overlap(b, a)
  {
  }

  lemma ReserveKeeps(rs: seq<Reservation>, recovered: set<Id>, max: nat, late: bool, r: Reservation)
    requires Inv(rs, recovered, max, late) && !r.exclusive
    requires |Overlapping(rs, r.cwd)| < max
    requires forall q | q in Overlapping(rs, r.cwd) :: !q.exclusive
    ensures Inv(Set(rs, r), recovered - {r.id}, max, late)
  {
    SetHolds(rs, r);
    OverlappingHolds(rs, r.cwd);
    var t := Set(rs, r);
    forall c: seq<Reservation> ensures Bounded(c, t, recovered - {r.id}, max, late) {
      if Clique(c) && Among(c, t) {
        if r in c {
          var k := IndexIn(c, r);
          CliqueThroughNew(rs, r, c, k);
        } else {
          assert Among(c, rs) && Bounded(c, rs, recovered, max, late);
          assert forall i | 0 <= i < |c| :: c[i].id != r.id;
        }
      }
    }
  }

  /** Restored claims are not subject to the limit. Those that come first leave everything else
      to it; one that comes late is spared. */
  lemma RecoverKeeps(rs: seq<Reservation>, recovered: set<Id>, max: nat, late: bool, r: Reservation)
    requires Inv(rs, recovered, max, late) && !r.exclusive
    ensures Inv(Set(rs, r), recovered + {r.id}, max, late || !Booting(rs, recovered))
  {
    SetHolds(rs, r);
    var after := late || !Booting(rs, recovered);
    forall c: seq<Reservation> ensures Bounded(c, Set(rs, r), recovered + {r.id}, max, after) {
      if after && Clique(c) && Among(c, Set(rs, r)) && NoneIn(c, recovered + {r.id}) {
        assert Among(c, rs) && NoneIn(c, recovered) && Bounded(c, rs, recovered, max, late);
      }
    }
    forall q | q in Set(rs, r) && q.exclusive ensures Alone(Set(rs, r), q, Spared(recovered + {r.id}, after)) {
      assert Alone(rs, q, Spared(recovered, late));
    }
  }

  lemma ReleaseKeeps(rs: seq<Reservation>, recovered: set<Id>, max: nat, late: bool, id: Id)
    requires Inv(rs, recovered, max, late)
    ensures Inv(Delete(rs, id), recovered, max, late)
  {
    DeleteHolds(rs, id);
    forall c: seq<Reservation> ensures Bounded(c, Delete(rs, id), recovered, max, late) {
      assert Bounded(c, rs, recovered, max, late);
    }
  }

  lemma TouchLimited(rs: seq<Reservation>, recovered: set<Id>, max: nat, late: bool, was: Reservation, r: Reservation)
    requires Distinct(rs) && Limited(rs, recovered, max, late) && was in rs && r.id == was.id && r.cwd == was.cwd
    ensures Limited(Set(rs, r), recovered, max, late)
  {
    hide Overlap, Set;
    SetHolds(rs, r);
    var t := Set(rs, r);
    forall c: seq<Reservation> ensures Bounded(c, t, recovered, max, late) {
      if Clique(c) && Among(c, t) {
        var before := seq(|c|, i requires 0 <= i < |c| => if c[i] == r then was else c[i]);
        assert forall i | 0 <= i < |c| :: before[i].id == c[i].id && before[i].cwd == c[i].cwd && before[i] in rs;
        assert Clique(before) && Among(before, rs) && Bounded(before, rs, recovered, max, late);
      }
    }
  }

  /** A reservation changed in place, its directory as before; it may become exclusive when it
      overlaps no other. */
  lemma TouchKeeps(rs: seq<Reservation>, recovered: set<Id>, max: nat, late: bool, was: Reservation, r: Reservation)
    requires Inv(rs, recovered, max, late) && was in rs && r.id == was.id && r.cwd == was.cwd
    requires r.exclusive ==> was.exclusive || Alone(rs, r, {})
    ensures Inv(Set(rs, r), recovered, max, late)
  {
    TouchLimited(rs, recovered, max, late, was, r);
    SetHolds(rs, r);
    hide Limited, Set;
    var t, spared := Set(rs, r), Spared(recovered, late);
    forall q | q in t && q.exclusive ensures Alone(t, q, spared) {
      assert q == r && !Alone(rs, r, {}) ==> Alone(rs, was, spared);
    }
  }

  /** Any directory lies within at most `max` reservations, unless all of those around it were
      restored; after a late restore that goes for the reservations let in. */
  lemma DirectoryIsLimited(rs: seq<Reservation>, recovered: set<Id>, max: nat, late: bool, d: string, around: seq<Reservation>)
    requires Inv(rs, recovered, max, late)
    requires late ==> NoneIn(around, recovered)
    requires Distinct(around) && Among(around, rs) && forall i | 0 <= i < |around| :: IsInside(d, around[i].cwd)
    ensures |around| <= max || AllIn(around, recovered)
  {
    forall i, j | 0 <= i < j < |around| ensures Overlap(around[i].cwd, around[j].cwd) {
      SharedIsOverlap(d, around[i].cwd, around[j].cwd);
    }
    assert Bounded(around, rs, recovered, max, late);
  }

  /** No directory lies within an exclusive reservation and another one; after a late restore that
      goes for the reservations let in. */
  lemma ExclusiveIsAlone(rs: seq<Reservation>, recovered: set<Id>, max: nat, late: bool, d: string, r: Reservation, q: Reservation)
    requires Inv(rs, recovered, max, late) && r in rs && q in rs && r.exclusive && r.id != q.id
    requires late ==> q.id !in recovered
    ensures !(IsInside(d, r.cwd) && IsInside(d, q.cwd))
  {
    assert Alone(rs, r, Spared(recovered, late)) && !Overlap(r.cwd, q.cwd);
    if IsInside(d, r.cwd) && IsInside(d, q.cwd) { SharedIsOverlap(d, r.cwd, q.cwd); }
  }

  // ---------------------------------------------------------------- the allocator

  datatype ExclusiveResult = Granted | Conflict(other: Reservation) | Unallocated

  class WorkspaceAllocator {
    const max: nat
    var reservations: seq<Reservation>
    ghost var recovered: set<Id>
    ghost var late: bool

    /** Never more than `max` pairwise overlapping reservations, but for those restored at boot;
        an exclusive one overlaps no other, save one restored late. */
    ghost predicate Valid()
      reads this
    {
      1 <= max && Inv(reservations, recovered, max, late)
    }

    constructor (max: nat)
      requires 1 <= max
      ensures Valid() && this.max == max && reservations == [] && recovered == {} && !late
    {
      this.max := max;
      reservations, recovered, late := [], {}, false;
    }

    method RecoverPending(id: Id, cwd: string, principal: string)
      requires Valid()
      modifies this
      ensures Valid() && recovered == old(recovered) + {id}
      ensures late <==> old(late) || !Booting(old(reservations), old(recovered))
      ensures reservations == Set(old(reservations), Reservation(id, cwd, principal, false, false))
    {
      RecoverKeeps(reservations, recovered, max, late, Reservation(id, cwd, principal, false, false));
      late := late || !Booting(reservations, recovered);
      reservations := Set(reservations, Reservation(id, cwd, principal, false, false));
      recovered := recovered + {id};
    }

    method Overlaps(cwd: string) returns (overlaps: seq<Reservation>)
      ensures overlaps == Overlapping(reservations, cwd)
    {
      hide Overlap, Overlapping;
      overlaps := [];
      for i := 0 to |reservations|
        invariant Overlapping(reservations, cwd) == overlaps + Overlapping(reservations[i..], cwd)
      {
        OverlappingStep(reservations, i, cwd);
        if Overlap(cwd, reservations[i].cwd) { overlaps := overlaps + [reservations[i]]; }
      }
      OverlappingNone(reservations, cwd);
    }

    /** Refuses with a reservation in the way: an exclusive one first, else the oldest. */
    method Reserve(id: Id, cwd: string, principal: string) returns (conflict: Option<Reservation>)
      requires Valid()
      modifies this
      ensures Valid()
      ensures var overlaps := Overlapping(old(reservations), cwd);
        conflict.None? <==> |overlaps| < max && forall q | q in overlaps :: !q.exclusive
      ensures late == old(late) && recovered == if conflict.None? then old(recovered) - {id} else old(recovered)
      ensures conflict.None? ==> reservations == Set(old(reservations), Reservation(id, cwd, principal, false, false))
      ensures conflict.Some? ==> reservations == old(reservations) && conflict.value in Overlapping(reservations, cwd)
    {
      hide Overlapping, Inv, Set;
      var overlaps := Overlaps(cwd);
      for i := 0 to |overlaps|
        invariant forall j | 0 <= j < i :: !overlaps[j].exclusive
      {
        if overlaps[i].exclusive { return Some(overlaps[i]); }
      }
      if |overlaps| >= max { return Some(overlaps[0]); }
      ReserveKeeps(reservations, recovered, max, late, Reservation(id, cwd, principal, false, false));
      reservations := Set(reservations, Reservation(id, cwd, principal, false, false));
      recovered := recovered - {id};
      return None;
    }

    /** A change of one reservation in place, when it is there. */
    method Touch(r: Reservation)
      requires Valid() && exists was :: was in reservations && was.id == r.id && was.cwd == r.cwd && (r.exclusive ==> was.exclusive)
      modifies this`reservations
      ensures Valid() && reservations == Set(old(reservations), r)
    {
      ghost var was :| was in reservations && was.id == r.id && was.cwd == r.cwd && (r.exclusive ==> was.exclusive);
      TouchKeeps(reservations, recovered, max, late, was, r);
      reservations := Set(reservations, r);
    }

    method Activate(id: Id)
      requires Valid()
      modifies this`reservations
      ensures Valid()
      ensures var r := Find(old(reservations), id);
        reservations == if r.Some? then Set(old(reservations), r.value.(live := true)) else old(reservations)
    {
      FindIs(reservations, id);
      var r := Find(reservations, id);
      if r.Some? { Touch(r.value.(live := true)); }
    }

    method Reassign(id: Id, principal: string)
      requires Valid()
      modifies this`reservations
      ensures Valid()
      ensures var r := Find(old(reservations), id);
        reservations == if r.Some? then Set(old(reservations), r.value.(principal := principal)) else old(reservations)
    {
      FindIs(reservations, id);
      var r := Find(reservations, id);
      if r.Some? { Touch(r.value.(principal := principal)); }
    }

    method Exclusive(id: Id) returns (result: ExclusiveResult)
      requires Valid()
      modifies this`reservations
      ensures Valid()
      ensures var self := Find(old(reservations), id);
        && (result.Unallocated? <==> self.None?)
        && (result.Granted? <==> self.Some? && !self.value.exclusive && Alone(old(reservations), self.value, {}))
        && (result.Conflict? ==> result.other in reservations && Overlap(self.value.cwd, result.other.cwd))
        && reservations == if result.Granted? then Set(old(reservations), self.value.(exclusive := true)) else old(reservations)
    {
      FindIs(reservations, id);
      var self := Find(reservations, id);
      if self.None? { return Unallocated; }
      for i := 0 to |reservations|
        invariant forall j | 0 <= j < i :: reservations[j].id != id ==> !Overlap(self.value.cwd, reservations[j].cwd)
      {
        if reservations[i].id != id && Overlap(self.value.cwd, reservations[i].cwd) { return Conflict(reservations[i]); }
      }
      if self.value.exclusive { return Conflict(self.value); }
      TouchKeeps(reservations, recovered, max, late, self.value, self.value.(exclusive := true));
      reservations := Set(reservations, self.value.(exclusive := true));
      return Granted;
    }

    method ReleaseExclusive(id: Id)
      requires Valid()
      modifies this`reservations
      ensures Valid()
      ensures var r := Find(old(reservations), id);
        reservations == if r.Some? then Set(old(reservations), r.value.(exclusive := false)) else old(reservations)
    {
      FindIs(reservations, id);
      var r := Find(reservations, id);
      if r.Some? { Touch(r.value.(exclusive := false)); }
    }

    method Release(id: Id)
      requires Valid()
      modifies this`reservations
      ensures Valid() && reservations == Delete(old(reservations), id)
    {
      ReleaseKeeps(reservations, recovered, max, late, id);
      reservations := Delete(reservations, id);
    }
  }
}
