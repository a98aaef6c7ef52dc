/** Byte sequences cut into lines. */
module Bytes {
  type Byte = b: int | 0 <= b < 256 witness 0

  const NL: Byte := 10

  /** Newlines among the first `n` bytes. */
  ghost function Count(b: seq<Byte>, n: nat): nat
    requires n <= |b|
  {
    if n == 0 then 0 else Count(b, n - 1) + if b[n - 1] == NL then 1 else 0
  }

  ghost predicate NoNL(b: seq<Byte>, lo: nat, hi: nat) {
    forall i | lo <= i < hi && i < |b| :: b[i] != NL
  }

  /** A line may start here: at the front or right behind a newline. */
  ghost predicate Boundary(b: seq<Byte>, x: nat) {
    x == 0 || (x <= |b| && b[x - 1] == NL)
  }

  /** Where the first line ends: at its newline, or at the end of the bytes. */
  function FirstNL(b: seq<Byte>): (i: nat)
    ensures i <= |b| && NoNL(b, 0, i) && (i < |b| ==> b[i] == NL)
  {
    if b == [] || b[0] == NL then 0
    else
      var i := 1 + FirstNL(b[1..]);
      assert forall k | 1 <= k < |b| :: b[k] == b[1..][k - 1];
      i
  }

  /** The index of the next newline, or -1 as JavaScript's `indexOf` answers. */
  method IndexOfNL(b: seq<Byte>, from: nat) returns (i: int)
    requires from <= |b|
    ensures i == -1 ==> NoNL(b, from, |b|)
    ensures i != -1 ==> from <= i < |b| && b[i] == NL && NoNL(b, from, i)
  {
    i := from;
    while i < |b|
      invariant from <= i <= |b| && NoNL(b, from, i)
    {
      if b[i] == NL { return; }
      i := i + 1;
    }
    return -1;
  }

  lemma {:induction false} CountRun(b: seq<Byte>, lo: nat, hi: nat)
    requires lo <= hi <= |b| && NoNL(b, lo, hi)
    ensures Count(b, hi) == Count(b, lo)
    decreases hi - lo
  {
    if lo < hi { CountRun(b, lo, hi - 1); }
  }

  lemma {:induction false} CountMono(b: seq<Byte>, lo: nat, hi: nat)
    requires lo <= hi <= |b|
    ensures Count(b, lo) <= Count(b, hi) <= Count(b, lo) + (hi - lo)
    decreases hi - lo
  {
    if lo < hi { CountMono(b, lo, hi - 1); }
  }

  lemma {:induction false} CountShift(b: seq<Byte>, x: nat, n: nat)
    requires x + n <= |b|
    ensures Count(b, x + n) == Count(b, x) + Count(b[x..], n)
    decreases n
  {
    if n > 0 {
      CountShift(b, x, n - 1);
      assert b[x..][n - 1] == b[x + n - 1];
    }
  }

  lemma NoNLSlice(b: seq<Byte>, base: nat, top: nat, lo: nat, hi: nat)
    requires base <= top <= |b| && lo <= hi <= top - base
    ensures NoNL(b[base..top], lo, hi) <==> NoNL(b, base + lo, base + hi)
  {
    assert forall i | lo <= i < hi :: b[base..top][i] == b[base + i];
    assert forall i | base + lo <= i < base + hi :: b[i] == b[base..top][i - base];
  }

  lemma SliceOfSlice(b: seq<Byte>, base: nat, top: nat, lo: nat, hi: nat)
    requires base <= top <= |b| && lo <= hi <= top - base
    ensures b[base..top][lo..hi] == b[base + lo..base + hi]
  {
    var x, y := b[base..top][lo..hi], b[base + lo..base + hi];
    assert |x| == |y| && forall i | 0 <= i < |x| :: x[i] == y[i];
  }

  lemma SliceOfDrop(b: seq<Byte>, base: nat, lo: nat, hi: nat)
    requires base <= |b| && lo <= hi <= |b| - base
    ensures b[base..][lo..hi] == b[base + lo..base + hi]
  {
    SliceOfSlice(b, base, |b|, lo, hi);
    assert b[base..|b|] == b[base..];
  }

  /** A stream that arrives in chunks. */
  ghost function Concat(chunks: seq<seq<Byte>>): seq<Byte> {
    if chunks == [] then [] else Concat(chunks[..|chunks| - 1]) + chunks[|chunks| - 1]
  }

  lemma ConcatNone(chunks: seq<seq<Byte>>)
    ensures Concat(chunks[..0]) == []
  {
  }

  lemma ConcatStep(chunks: seq<seq<Byte>>, k: nat)
    requires k < |chunks|
    ensures Concat(chunks[..k + 1]) == Concat(chunks[..k]) + chunks[k]
  {
    assert chunks[..k + 1][..k] == chunks[..k];
  }

  lemma {:induction false} ConcatPrefix(chunks: seq<seq<Byte>>, k: nat)
    requires k <= |chunks|
    ensures Concat(chunks[..k]) <= Concat(chunks)
    decreases |chunks|
  {
    if k < |chunks| {
      var front := chunks[..|chunks| - 1];
      ConcatPrefix(front, k);
      assert front[..k] == chunks[..k];
    } else {
      assert chunks[..k] == chunks;
    }
  }
}
