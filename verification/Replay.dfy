/**
The event log of one session in `src/agent-console/core/index.ts` (`emit`, `deliverToAll`,
`subscribe`) with the ring of `src/agent-console/store/fs.ts`. An envelope gets its number,
enters the ring and is fanned out synchronously; its line reaches the spill later, through
the write queue. A subscriber is served by the ring, or by the spill behind a proxy that
buffers what arrives meanwhile.

A run is a sequence of uninterrupted steps. Handing a subscriber an envelope, or telling it of
a gap, is one step and what the core does once that callback has returned is another, so that
a callback may emit in between. Runs are those without a failed append, and no callback
subscribes.
*/
module Replay {
  import opened Common

  type Id = nat

  datatype Envelope = Envelope(seqNo: nat, body: int)

  datatype Item = Event(e: Envelope) | Gap(through: nat)

  /** `Ended`: the replay broke off with a gap and its buffer is still to be handed over.
      `Flushing`: `subscribe` is handing over what the ring or the buffer held, with the
      subscriber already registered for the live stream. */
  datatype Mode =
    | Live
    | Replaying(next: nat, goal: nat)
    | Ended
    | Flushing(rest: seq<Envelope>)
    | Closed

  /** `start` is the position the subscription is answered from: the one it asked for, or
      the end of the history if that is earlier. `handed`: `subscribe` is inside a call of the
      subscriber, and the watermark `through` moves there once the call returns. */
  datatype Sub = Sub(
    after: nat,
    start: nat,
    mode: Mode,
    through: nat,
    buffered: seq<Envelope>,
    got: seq<Item>,
    handed: Option<nat>)

  datatype Caps = Caps(ring: int, highWater: nat)

  /** Whether a subscriber's callback may emit inside its own hand-over: while `subscribe`
      flushes the ring or the buffer to it, and while it replays the spill to it. During an
      ordinary fan-out, and when told of a gap, a callback may always emit. */
  datatype Reentry = Reentry(flush: bool, replay: bool)

  datatype State = State(
    lastSeq: nat,
    ring: seq<Envelope>,
    spill: seq<Envelope>,
    queue: seq<Envelope>,
    fanout: seq<Envelope>,
    subs: seq<Sub>)

  /** Everything emitted: what is on disk and what the write queue still holds. */
  function History(s: State): seq<Envelope> {
    s.spill + s.queue
  }

  // ---------------------------------------------------------------- steps

  datatype Action =
    | Emit(body: int)
    | FanOut
    | Write
    | Subscribe(after: nat)
    | ReplayNext(id: Id)
    | Return(id: Id)
    | ReplayEnd(id: Id)
    | ReplayFail(id: Id)
    | Flush(id: Id)
    | Close(id: Id)

  function Last(es: seq<Envelope>, n: int): seq<Envelope> {
    if n <= 0 then [] else if |es| <= n then es else es[|es| - n..]
  }

  function After(es: seq<Envelope>, n: nat): (r: seq<Envelope>)
    ensures |r| <= |es|
  {
    if es == [] then []
    else (if es[0].seqNo > n then [es[0]] else []) + After(es[1..], n)
  }

  predicate RingServes(ring: seq<Envelope>, after: nat) {
    ring != [] && after >= ring[0].seqNo - 1
  }

  /** The subscriber's `deliver`: straight through once live, buffered up to the high-water
      mark while history is replayed, and a reported gap beyond it. */
  function Deliver(caps: Caps, sub: Sub, e: Envelope): Sub {
    match sub.mode
    case Live => sub.(got := sub.got + [Event(e)])
    case Flushing(_) => sub.(got := sub.got + [Event(e)])
    case Closed => sub
    case _ =>
      if |sub.buffered| >= caps.highWater then sub.(mode := Closed, got := sub.got + [Gap(sub.through)])
      else sub.(buffered := sub.buffered + [e])
  }

  function DeliverEach(caps: Caps, subs: seq<Sub>, e: Envelope): (r: seq<Sub>)
    ensures |r| == |subs| && forall k | 0 <= k < |subs| :: r[k] == Deliver(caps, subs[k], e)
  {
    seq(|subs|, k requires 0 <= k < |subs| => Deliver(caps, subs[k], e))
  }

  function Subscribed(s: State, after: nat): Sub {
    if after > s.lastSeq then Sub(after, s.lastSeq, Live, s.lastSeq, [], [Gap(s.lastSeq)], Some(s.lastSeq))
    else if RingServes(s.ring, after) then Sub(after, after, Flushing(After(s.ring, after)), after, [], [], None)
    else Sub(after, after, Replaying(0, s.lastSeq), after, [], [], None)
  }

  function Broken(sub: Sub): Sub {
    sub.(mode := Ended, got := sub.got + [Gap(sub.through)], handed := Some(sub.through))
  }

  function Handed(sub: Sub, e: Envelope): Sub {
    sub.(got := sub.got + [Event(e)], handed := Some(e.seqNo))
  }

  function Replayed(sub: Sub, e: Envelope): Sub
    requires sub.mode.Replaying?
  {
    if e.seqNo <= sub.after then sub.(mode := sub.mode.(next := sub.mode.next + 1))
    else if e.seqNo != sub.through + 1 then Broken(sub)
    else Handed(sub, e)
  }

  /** The call under way returns. */
  function Returned(sub: Sub): Sub
    requires sub.handed.Some?
  {
    sub.(
      through := sub.handed.value,
      handed := None,
      mode := if sub.mode.Replaying? then sub.mode.(next := sub.mode.next + 1) else sub.mode)
  }

  function Flushed(sub: Sub): Sub
    requires sub.mode.Flushing?
  {
    if sub.mode.rest == [] then sub.(mode := Live)
    else
      var e := sub.mode.rest[0];
      var moved := sub.(mode := Flushing(sub.mode.rest[1..]));
      if e.seqNo > sub.through then Handed(moved, e) else moved
  }

  predicate AboutOne(a: Action) {
    a.ReplayNext? || a.Return? || a.ReplayEnd? || a.ReplayFail? || a.Flush? || a.Close?
  }

  /** What a step about one subscriber makes of it. */
  function SubNext(spill: seq<Envelope>, sub: Sub, a: Action): Sub
    requires AboutOne(a)
    requires a.ReplayNext? ==> sub.mode.Replaying? && sub.mode.next < |spill|
    requires a.Return? ==> sub.handed.Some?
    requires a.Flush? ==> sub.mode.Flushing?
  {
    match a
    case ReplayNext(_) => Replayed(sub, spill[sub.mode.next])
    case Return(_) => Returned(sub)
    case ReplayEnd(_) => sub.(mode := Flushing(sub.buffered))
    case ReplayFail(_) => Broken(sub)
    case Flush(_) => Flushed(sub)
    case _ => sub.(mode := Closed)
  }

  /** `subscribe` has the subscriber in hand. */
  predicate Engaged(sub: Sub) {
    sub.handed.Some? || sub.mode.Flushing?
  }

  /** No synchronous block of `emit` or `subscribe` is under way. */
  predicate Quiet(s: State) {
    s.fanout == [] && forall id | 0 <= id < |s.subs| :: !Engaged(s.subs[id])
  }

  /** The callback `subscribe` is waiting for may emit. */
  predicate MayEmit(reentry: Reentry, sub: Sub) {
    && sub.handed.Some?
    && (sub.mode.Flushing? ==> reentry.flush)
    && (sub.mode.Replaying? ==> reentry.replay)
  }

  predicate Enabled(reentry: Reentry, s: State, a: Action) {
    match a
    case Emit(_) => Quiet(s) || s.fanout != [] || exists id | 0 <= id < |s.subs| :: MayEmit(reentry, s.subs[id])
    case FanOut => s.fanout != []
    case Write => Quiet(s) && s.queue != []
    case Subscribe(_) => Quiet(s)
    case ReplayNext(id) => Quiet(s) && CanReplay(s, id) && s.subs[id].mode.next < |s.spill|
    case Return(id) => s.fanout == [] && id < |s.subs| && s.subs[id].handed.Some?
    case ReplayEnd(id) =>
      && Quiet(s) && id < |s.subs|
      && (s.subs[id].mode.Ended? || (CanReplay(s, id) && s.subs[id].mode.goal <= s.subs[id].mode.next))
    case ReplayFail(id) => Quiet(s) && CanReplay(s, id)
    case Flush(id) => s.fanout == [] && id < |s.subs| && s.subs[id].mode.Flushing? && s.subs[id].handed.None?
    case Close(id) => Quiet(s) && id < |s.subs| && s.subs[id].mode.Live?
  }

  /** The replay starts once every write queued at registration has landed. */
  predicate CanReplay(s: State, id: Id) {
    id < |s.subs| && s.subs[id].mode.Replaying? && s.subs[id].mode.goal <= |s.spill|
  }

  function Next(caps: Caps, reentry: Reentry, s: State, a: Action): State
    requires Enabled(reentry, s, a)
  {
    match a
    case Emit(body) =>
      var e := Envelope(s.lastSeq + 1, body);
      s.(lastSeq := s.lastSeq + 1, ring := Last(s.ring + [e], caps.ring), queue := s.queue + [e], fanout := s.fanout + [e])
    case FanOut => s.(fanout := s.fanout[1..], subs := DeliverEach(caps, s.subs, s.fanout[0]))
    case Write => s.(spill := s.spill + [s.queue[0]], queue := s.queue[1..])
    case Subscribe(after) => s.(subs := s.subs + [Subscribed(s, after)])
    case _ => s.(subs := s.subs[a.id := SubNext(s.spill, s.subs[a.id], a)])
  }

  /** A session starts empty, or with the spill an earlier process left and no ring. */
  ghost predicate Init(s: State) {
    && Numbered(s.spill) && s.lastSeq == |s.spill|
    && s.ring == [] && s.queue == [] && s.fanout == [] && s.subs == []
  }

  ghost predicate Path(caps: Caps, reentry: Reentry, s: State, acts: seq<Action>, end: State)
    decreases |acts|
  {
    if acts == [] then end == s
    else Enabled(reentry, s, acts[0]) && Path(caps, reentry, Next(caps, reentry, s, acts[0]), acts[1..], end)
  }

  ghost predicate Reachable(caps: Caps, reentry: Reentry, s: State) {
    exists init, acts :: Init(init) && Path(caps, reentry, init, acts, s)
  }

  // ---------------------------------------------------------------- the promise

  ghost predicate Numbered(h: seq<Envelope>) {
    forall i | 0 <= i < |h| :: h[i].seqNo == i + 1
  }

  function Events(es: seq<Envelope>): (r: seq<Item>)
    ensures |r| == |es| && forall i | 0 <= i < |r| :: r[i] == Event(es[i])
  {
    seq(|es|, i requires 0 <= i < |es| => Event(es[i]))
  }

  /** The first `n` items are envelopes, and what follows them is a gap or nothing yet. */
  ghost predicate FirstGap(got: seq<Item>, n: nat) {
    n <= |got| && (forall i | 0 <= i < n :: got[i].Event?) && (n < |got| ==> got[n].Gap?)
  }

  ghost predicate GapFree(got: seq<Item>) {
    FirstGap(got, |got|)
  }

  /** Up to the first gap a subscriber has exactly the history from where it started, in
      order and with nothing missing or twice; and the gap restates how far that was. */
  ghost predicate Exact(h: seq<Envelope>, sub: Sub) {
    forall n: nat | FirstGap(sub.got, n) :: ExactTo(h, sub, n)
  }

  ghost predicate ExactTo(h: seq<Envelope>, sub: Sub, n: nat)
    requires FirstGap(sub.got, n)
  {
    && sub.start + n <= |h|
    && sub.got[..n] == Events(h[sub.start..sub.start + n])
    && (n < |sub.got| ==> sub.got[n].through == sub.start + n)
  }

  ghost predicate AllExact(s: State) {
    forall id | 0 <= id < |s.subs| :: Exact(History(s), s.subs[id])
  }

  // ---------------------------------------------------------------- the invariant

  ghost predicate IsSuffix(a: seq<Envelope>, h: seq<Envelope>) {
    |a| <= |h| && a == h[|h| - |a|..]
  }

  ghost predicate LogInv(s: State) {
    && Numbered(History(s)) && s.lastSeq == |History(s)|
    && IsSuffix(s.ring, History(s)) && IsSuffix(s.fanout, History(s))
  }

  /** `out` is how many envelopes have been fanned out. Where a subscriber is behind in a way
      that a fan-out would spoil, none is under way. */
  ghost predicate SubInv(h: seq<Envelope>, out: nat, spilled: nat, sub: Sub)
    requires out <= |h|
  {
    && Exact(h, sub)
    && (GapFree(sub.got) ==>
          && sub.start == sub.after
          && match sub.mode
             case Live => sub.handed.None? && sub.start + |sub.got| == out
             case Replaying(next, goal) =>
               && sub.start + |sub.got| == sub.through + (if sub.handed.Some? then 1 else 0)
               && sub.through == (if next <= sub.start then sub.start else next)
               && (sub.handed.Some? ==> sub.handed.value == next + 1 == sub.through + 1 <= spilled && out == |h|)
               && next <= spilled && goal <= out && sub.start <= goal
               && sub.buffered == h[goal..out]
             case Ended => false
             case Flushing(rest) =>
               if rest == [] then sub.start + |sub.got| == out
               else
                 && sub.start + |sub.got| == (if sub.handed.Some? then sub.handed.value else sub.through)
                 && out == |h| && IsSuffix(rest, h) && |h| - |rest| <= sub.start + |sub.got|
             case Closed => true)
  }

  function Most(caps: Caps): nat {
    if caps.ring <= caps.highWater then caps.highWater else caps.ring
  }

  /** What is buffered, or left to hand over, stays within the caps. */
  predicate Bounded(caps: Caps, sub: Sub) {
    && |sub.buffered| <= caps.highWater
    && (sub.mode.Flushing? ==> |sub.mode.rest| + (if sub.handed.Some? then 1 else 0) <= Most(caps))
  }

  /** `subscribe` has at most one subscriber in hand. */
  ghost predicate OneEngaged(s: State) {
    forall i, j | 0 <= i < |s.subs| && 0 <= j < |s.subs| && Engaged(s.subs[i]) && Engaged(s.subs[j]) :: i == j
  }

  ghost predicate Tidy(caps: Caps, s: State) {
    && (|s.ring| <= caps.ring || s.ring == [])
    && OneEngaged(s)
    && forall id | 0 <= id < |s.subs| :: Bounded(caps, s.subs[id])
  }

  ghost predicate Inv(caps: Caps, s: State) {
    && LogInv(s) && Tidy(caps, s)
    && forall id | 0 <= id < |s.subs| :: SubInv(History(s), s.lastSeq - |s.fanout|, |s.spill|, s.subs[id])
  }

  /** No callback emits into a replay of its spill, and none into a flush unless at most one
      envelope can ever be held for it. */
  predicate Safe(caps: Caps, reentry: Reentry) {
    !reentry.replay && !(reentry.flush && (2 <= caps.ring || 2 <= caps.highWater))
  }

  // ---------------------------------------------------------------- lemmas

  lemma {:induction false} AfterSuffix(h: seq<Envelope>, from: nat, n: nat)
    requires Numbered(h) && from <= n <= |h|
    ensures After(h[from..], n) == h[n..]
    decreases n - from, |h| - from
  {
    if from < |h| {
      assert h[from..][1..] == h[from + 1..];
      if from < n {
        AfterSuffix(h, from + 1, n);
      } else {
        AfterAll(h, from + 1, n);
        assert h[n..] == [h[n]] + h[n + 1..];
      }
    }
  }

  lemma {:induction false} AfterAll(h: seq<Envelope>, from: nat, n: nat)
    requires Numbered(h) && n <= from <= |h|
    ensures After(h[from..], n) == h[from..]
    decreases |h| - from
  {
    if from < |h| {
      assert h[from..][1..] == h[from + 1..];
      AfterAll(h, from + 1, n);
      assert h[from..] == [h[from]] + h[from + 1..];
    }
  }

  lemma FirstGapSnoc(got: seq<Item>, item: Item, n: nat)
    requires FirstGap(got + [item], n)
    ensures if n <= |got| then FirstGap(got, n) else GapFree(got) && item.Event?
  {
    assert forall i | 0 <= i < |got| :: (got + [item])[i] == got[i];
    assert (got + [item])[|got|] == item;
  }

  /** Being handed the next envelope, or the watermark, keeps a subscriber exact; after a
      gap anything does. */
  lemma ExactSnoc(h: seq<Envelope>, sub: Sub, moved: Sub, item: Item)
    requires Exact(h, sub) && moved.start == sub.start && moved.got == sub.got + [item]
    requires GapFree(sub.got) ==>
      match item
      case Event(e) => sub.start + |sub.got| < |h| && e == h[sub.start + |sub.got|]
      case Gap(w) => w == sub.start + |sub.got|
    ensures Exact(h, moved)
    ensures GapFree(moved.got) ==> GapFree(sub.got) && item.Event?
  {
    forall n: nat | FirstGap(moved.got, n) ensures ExactTo(h, moved, n) {
      FirstGapSnoc(sub.got, item, n);
      if n <= |sub.got| {
        assert ExactTo(h, sub, n) && moved.got[..n] == sub.got[..n];
      } else {
        assert ExactTo(h, sub, |sub.got|) && sub.got[..|sub.got|] == sub.got && moved.got[..n] == moved.got;
      }
    }
    if GapFree(moved.got) { FirstGapSnoc(sub.got, item, |moved.got|); }
  }

  lemma ExactExtends(h: seq<Envelope>, longer: seq<Envelope>, sub: Sub)
    requires Exact(h, sub) && h <= longer
    ensures Exact(longer, sub)
  {
    forall n: nat | FirstGap(sub.got, n) ensures ExactTo(longer, sub, n) {
      assert ExactTo(h, sub, n) && h[sub.start..sub.start + n] == longer[sub.start..sub.start + n];
    }
  }

  lemma DeliverKeeps(caps: Caps, h: seq<Envelope>, out: nat, spilled: nat, sub: Sub)
    requires out < |h| && SubInv(h, out, spilled, sub)
    ensures SubInv(h, out + 1, spilled, Deliver(caps, sub, h[out]))
  {
    var moved := Deliver(caps, sub, h[out]);
    if sub.mode.Replaying? || sub.mode.Ended? {
      if moved.mode.Closed? {
        ExactSnoc(h, sub, moved, Gap(sub.through));
      } else if GapFree(sub.got) {
        assert h[sub.mode.goal..out + 1] == h[sub.mode.goal..out] + [h[out]];
      }
    } else if !sub.mode.Closed? {
      ExactSnoc(h, sub, moved, Event(h[out]));
    }
  }

  /** An emission spoils nothing for a subscriber that is not behind. */
  ghost predicate Abreast(sub: Sub) {
    GapFree(sub.got) ==> !(sub.mode.Flushing? && sub.mode.rest != []) && !(sub.mode.Replaying? && sub.handed.Some?)
  }

  lemma SubInvExtends(h: seq<Envelope>, longer: seq<Envelope>, out: nat, spilled: nat, sub: Sub)
    requires out <= |h| && h <= longer && SubInv(h, out, spilled, sub) && Abreast(sub)
    ensures SubInv(longer, out, spilled, sub)
  {
    ExactExtends(h, longer, sub);
    if sub.mode.Replaying? && GapFree(sub.got) { assert h[sub.mode.goal..out] == longer[sub.mode.goal..out]; }
  }

  /** Whoever is in hand while something may be emitted has nothing left to be handed. */
  lemma EmittersAreAbreast(caps: Caps, reentry: Reentry, s: State, body: int, id: Id)
    requires Inv(caps, s) && Safe(caps, reentry) && Enabled(reentry, s, Emit(body)) && id < |s.subs|
    ensures Abreast(s.subs[id])
  {
    var sub := s.subs[id];
    assert SubInv(History(s), s.lastSeq - |s.fanout|, |s.spill|, sub) && Bounded(caps, sub);
    if Engaged(sub) && s.fanout == [] {
      var other :| 0 <= other < |s.subs| && MayEmit(reentry, s.subs[other]);
      assert Engaged(s.subs[other]);
    }
  }

  lemma LastIsSuffix(es: seq<Envelope>, n: int)
    ensures IsSuffix(Last(es, n), es)
  {
    assert es[|es|..] == [] && es[0..] == es;
  }

  lemma SuffixSnoc(a: seq<Envelope>, h: seq<Envelope>, e: Envelope)
    requires IsSuffix(a, h)
    ensures IsSuffix(a + [e], h + [e])
  {
  }

  lemma SuffixOfSuffix(a: seq<Envelope>, b: seq<Envelope>, h: seq<Envelope>)
    requires IsSuffix(a, b) && IsSuffix(b, h)
    ensures IsSuffix(a, h)
  {
  }

  lemma EmitKeepsLog(caps: Caps, reentry: Reentry, s: State, body: int)
    requires LogInv(s) && Enabled(reentry, s, Emit(body))
    ensures LogInv(Next(caps, reentry, s, Emit(body)))
    ensures History(Next(caps, reentry, s, Emit(body))) == History(s) + [Envelope(s.lastSeq + 1, body)]
  {
    hide IsSuffix, Last, Enabled;
    var t, e := Next(caps, reentry, s, Emit(body)), Envelope(s.lastSeq + 1, body);
    assert History(t) == History(s) + [e];
    SuffixSnoc(s.ring, History(s), e);
    SuffixSnoc(s.fanout, History(s), e);
    LastIsSuffix(s.ring + [e], caps.ring);
    SuffixOfSuffix(t.ring, s.ring + [e], History(t));
  }

  lemma EmitKeeps(caps: Caps, reentry: Reentry, s: State, body: int)
    requires Inv(caps, s) && Safe(caps, reentry) && Enabled(reentry, s, Emit(body))
    ensures Inv(caps, Next(caps, reentry, s, Emit(body)))
  {
    var t := Next(caps, reentry, s, Emit(body));
    EmitKeepsLog(caps, reentry, s, body);
    hide SubInv, LogInv, Enabled;
    forall id | 0 <= id < |t.subs| ensures SubInv(History(t), t.lastSeq - |t.fanout|, |t.spill|, t.subs[id]) {
      EmittersAreAbreast(caps, reentry, s, body, id);
      SubInvExtends(History(s), History(t), s.lastSeq - |s.fanout|, |s.spill|, s.subs[id]);
    }
  }

  lemma FanOutKeeps(caps: Caps, reentry: Reentry, s: State)
    requires Inv(caps, s) && s.fanout != []
    ensures Inv(caps, Next(caps, reentry, s, FanOut))
  {
    hide SubInv;
    var h, out := History(s), s.lastSeq - |s.fanout|;
    assert s.fanout[0] == h[out];
    assert s.fanout[1..] == h[out + 1..];
    forall id | 0 <= id < |s.subs| ensures SubInv(h, out + 1, |s.spill|, Deliver(caps, s.subs[id], s.fanout[0])) {
      DeliverKeeps(caps, h, out, |s.spill|, s.subs[id]);
    }
  }

  lemma WriteKeeps(caps: Caps, reentry: Reentry, s: State)
    requires Inv(caps, s) && Enabled(reentry, s, Write)
    ensures Inv(caps, Next(caps, reentry, s, Write))
  {
    var t := Next(caps, reentry, s, Write);
    assert History(t) == History(s);
  }

  lemma SubscribedExact(s: State, after: nat)
    requires LogInv(s) && s.fanout == []
    ensures SubInv(History(s), s.lastSeq, |s.spill|, Subscribed(s, after))
  {
    var h, sub := History(s), Subscribed(s, after);
    if after > s.lastSeq {
      assert h[s.lastSeq..s.lastSeq] == [];
      assert ExactTo(h, sub, 0);
    } else {
      assert h[after..after] == [];
      assert ExactTo(h, sub, 0);
      if RingServes(s.ring, after) {
        hide Exact, GapFree;
        var from := |h| - |s.ring|;
        assert s.ring[0] == h[from];
        AfterSuffix(h, from, after);
      }
    }
  }

  lemma SubscribeKeeps(caps: Caps, reentry: Reentry, s: State, after: nat)
    requires Inv(caps, s) && Enabled(reentry, s, Subscribe(after))
    ensures Inv(caps, Next(caps, reentry, s, Subscribe(after)))
  {
    hide SubInv, IsSuffix, Numbered;
    SubscribedExact(s, after);
    assert History(Next(caps, reentry, s, Subscribe(after))) == History(s);
  }

  lemma ReplayNextKeeps(h: seq<Envelope>, spilled: nat, sub: Sub)
    requires Numbered(h) && spilled <= |h| && SubInv(h, |h|, spilled, sub)
    requires sub.mode.Replaying? && sub.mode.next < spilled && sub.handed.None?
    ensures SubInv(h, |h|, spilled, Replayed(sub, h[sub.mode.next]))
  {
    var e := h[sub.mode.next];
    if e.seqNo > sub.after {
      ExactSnoc(h, sub, Replayed(sub, e), if e.seqNo != sub.through + 1 then Gap(sub.through) else Event(e));
    }
  }

  lemma FlushedKeeps(h: seq<Envelope>, spilled: nat, sub: Sub)
    requires Numbered(h) && SubInv(h, |h|, spilled, sub) && sub.mode.Flushing? && sub.handed.None?
    ensures SubInv(h, |h|, spilled, Flushed(sub))
  {
    if sub.mode.rest != [] {
      var e := sub.mode.rest[0];
      if GapFree(sub.got) {
        assert ExactTo(h, sub, |sub.got|);
        assert e == h[|h| - |sub.mode.rest|];
        assert sub.mode.rest[1..] == h[|h| - |sub.mode.rest| + 1..];
      }
      if e.seqNo > sub.through { ExactSnoc(h, sub, Flushed(sub), Event(e)); }
    }
  }

  lemma ReturnedKeeps(h: seq<Envelope>, spilled: nat, sub: Sub)
    requires SubInv(h, |h|, spilled, sub) && sub.handed.Some?
    ensures SubInv(h, |h|, spilled, Returned(sub))
  {
    SameGotExact(h, sub, Returned(sub));
  }

  lemma SameGotExact(h: seq<Envelope>, sub: Sub, moved: Sub)
    requires Exact(h, sub) && moved.got == sub.got && moved.start == sub.start
    ensures Exact(h, moved)
  {
    forall n: nat | FirstGap(moved.got, n) ensures ExactTo(h, moved, n) {
      assert ExactTo(h, sub, n);
    }
  }

  lemma ReplayEndKeeps(h: seq<Envelope>, spilled: nat, sub: Sub)
    requires SubInv(h, |h|, spilled, sub) && sub.handed.None?
    requires sub.mode.Ended? || (sub.mode.Replaying? && sub.mode.goal <= sub.mode.next)
    ensures SubInv(h, |h|, spilled, sub.(mode := Flushing(sub.buffered)))
  {
    if GapFree(sub.got) {
      assert ExactTo(h, sub, |sub.got|);
      assert h[sub.mode.goal..|h|] == h[|h| - |sub.buffered|..];
    }
  }

  lemma BrokenKeeps(h: seq<Envelope>, spilled: nat, sub: Sub)
    requires SubInv(h, |h|, spilled, sub) && sub.mode.Replaying? && sub.handed.None?
    ensures SubInv(h, |h|, spilled, Broken(sub))
  {
    ExactSnoc(h, sub, Broken(sub), Gap(sub.through));
  }

  lemma SubNextKeeps(reentry: Reentry, s: State, a: Action)
    requires LogInv(s) && AboutOne(a) && Enabled(reentry, s, a)
    requires SubInv(History(s), s.lastSeq, |s.spill|, s.subs[a.id])
    ensures SubInv(History(s), s.lastSeq, |s.spill|, SubNext(s.spill, s.subs[a.id], a))
  {
    var h, sub := History(s), s.subs[a.id];
    match a
    case ReplayNext(_) =>
      assert s.spill[sub.mode.next] == h[sub.mode.next] && !Engaged(sub);
      ReplayNextKeeps(h, |s.spill|, sub);
    case Return(_) => ReturnedKeeps(h, |s.spill|, sub);
    case ReplayEnd(_) =>
      assert !Engaged(sub);
      ReplayEndKeeps(h, |s.spill|, sub);
    case ReplayFail(_) =>
      assert !Engaged(sub);
      BrokenKeeps(h, |s.spill|, sub);
    case Flush(_) => FlushedKeeps(h, |s.spill|, sub);
    case Close(_) => SameGotExact(h, sub, sub.(mode := Closed));
  }

  lemma SubNextBounded(caps: Caps, reentry: Reentry, s: State, a: Action)
    requires AboutOne(a) && Enabled(reentry, s, a) && Bounded(caps, s.subs[a.id])
    ensures Bounded(caps, SubNext(s.spill, s.subs[a.id], a))
  {
    if !a.Return? && !a.Flush? { assert !Engaged(s.subs[a.id]); }
  }

  /** A step makes no second subscriber engaged. */
  lemma SubStepEngages(caps: Caps, reentry: Reentry, s: State, a: Action)
    requires OneEngaged(s) && AboutOne(a) && Enabled(reentry, s, a)
    ensures OneEngaged(Next(caps, reentry, s, a))
  {
    var t := Next(caps, reentry, s, a);
    if a.Return? || a.Flush? {
      assert Engaged(s.subs[a.id]);
    }
    assert forall i | 0 <= i < |s.subs| && i != a.id :: t.subs[i] == s.subs[i];
  }

  lemma SubStepKeeps(caps: Caps, reentry: Reentry, s: State, a: Action)
    requires Inv(caps, s) && AboutOne(a) && Enabled(reentry, s, a)
    ensures Inv(caps, Next(caps, reentry, s, a))
  {
    hide SubInv, Bounded, OneEngaged, Engaged, SubNext, IsSuffix, Numbered;
    var t := Next(caps, reentry, s, a);
    assert s.fanout == [] && History(t) == History(s);
    SubStepEngages(caps, reentry, s, a);
    SubNextBounded(caps, reentry, s, a);
    SubNextKeeps(reentry, s, a);
  }

  lemma StepKeepsInv(caps: Caps, reentry: Reentry, s: State, a: Action)
    requires Inv(caps, s) && Safe(caps, reentry) && Enabled(reentry, s, a)
    ensures Inv(caps, Next(caps, reentry, s, a))
  {
    match a
    case Emit(body) => EmitKeeps(caps, reentry, s, body);
    case FanOut => FanOutKeeps(caps, reentry, s);
    case Write => WriteKeeps(caps, reentry, s);
    case Subscribe(after) => SubscribeKeeps(caps, reentry, s, after);
    case _ => SubStepKeeps(caps, reentry, s, a);
  }

  lemma {:induction false} PathKeepsInv(caps: Caps, reentry: Reentry, s: State, acts: seq<Action>, end: State)
    requires Inv(caps, s) && Safe(caps, reentry) && Path(caps, reentry, s, acts, end)
    ensures Inv(caps, end)
    decreases |acts|
  {
    if acts != [] {
      StepKeepsInv(caps, reentry, s, acts[0]);
      PathKeepsInv(caps, reentry, Next(caps, reentry, s, acts[0]), acts[1..], end);
    }
  }

  // ---------------------------------------------------------------- results

  /** Every subscriber of a safe run is exact; one that is live and was told of no gap holds
      the whole history from where it started; the ring is the end of the history and the
      spill lacks just the write queue. */
  lemma ReplayIsExact(caps: Caps, reentry: Reentry, s: State)
    requires Safe(caps, reentry) && Reachable(caps, reentry, s)
    ensures AllExact(s)
    ensures forall id | 0 <= id < |s.subs| && s.subs[id].mode.Live? && GapFree(s.subs[id].got) && s.fanout == [] ::
      s.subs[id].start == s.subs[id].after && s.subs[id].got == Events(History(s)[s.subs[id].after..])
    ensures Numbered(s.spill + s.queue) && s.lastSeq == |s.spill| + |s.queue|
    ensures |s.ring| <= s.lastSeq && s.ring == (s.spill + s.queue)[s.lastSeq - |s.ring|..]
  {
    var init, acts :| Init(init) && Path(caps, reentry, init, acts, s);
    PathKeepsInv(caps, reentry, init, acts, s);
    forall id | 0 <= id < |s.subs| && s.subs[id].mode.Live? && GapFree(s.subs[id].got) && s.fanout == []
      ensures s.subs[id].start == s.subs[id].after && s.subs[id].got == Events(History(s)[s.subs[id].after..])
    {
      var sub := s.subs[id];
      assert SubInv(History(s), s.lastSeq, |s.spill|, sub) && ExactTo(History(s), sub, |sub.got|);
      assert sub.got[..|sub.got|] == sub.got && History(s)[sub.start..s.lastSeq] == History(s)[sub.start..];
    }
  }

  /** A gap is never invented: the recorded history has none, so replaying one more line
      tells a subscriber of no gap. */
  lemma NoFalseGap(caps: Caps, reentry: Reentry, s: State, id: Id)
    requires Safe(caps, reentry) && Reachable(caps, reentry, s)
    requires Enabled(reentry, s, ReplayNext(id)) && GapFree(s.subs[id].got)
    ensures GapFree(Next(caps, reentry, s, ReplayNext(id)).subs[id].got)
  {
    var init, acts :| Init(init) && Path(caps, reentry, init, acts, s);
    PathKeepsInv(caps, reentry, init, acts, s);
    var sub := s.subs[id];
    assert SubInv(History(s), s.lastSeq, |s.spill|, sub) && !Engaged(sub);
    assert s.spill[sub.mode.next] == History(s)[sub.mode.next];
  }

  lemma {:induction false} PathSnoc(caps: Caps, reentry: Reentry, s: State, acts: seq<Action>, mid: State, a: Action)
    requires Path(caps, reentry, s, acts, mid) && Enabled(reentry, mid, a)
    ensures Path(caps, reentry, s, acts + [a], Next(caps, reentry, mid, a))
    decreases |acts|
  {
    hide Enabled, Next;
    if acts != [] {
      assert (acts + [a])[1..] == acts[1..] + [a];
      PathSnoc(caps, reentry, Next(caps, reentry, s, acts[0]), acts[1..], mid, a);
    }
  }

  lemma Go(caps: Caps, reentry: Reentry, s: State, a: Action) returns (t: State)
    requires Reachable(caps, reentry, s) && Enabled(reentry, s, a)
    ensures t == Next(caps, reentry, s, a) && Reachable(caps, reentry, t)
  {
    hide Enabled, Next, Path;
    t := Next(caps, reentry, s, a);
    var init, acts :| Init(init) && Path(caps, reentry, init, acts, s);
    PathSnoc(caps, reentry, init, acts, s, a);
  }

  // ---------------------------------------------------------------- emitting into a flush

  lemma TwoInTheRing(caps: Caps, reentry: Reentry) returns (s: State)
    requires 2 <= caps.ring
    ensures Reachable(caps, reentry, s)
    ensures s == State(2, [Envelope(1, 10), Envelope(2, 20)], [], [Envelope(1, 10), Envelope(2, 20)], [], [])
  {
    s := State(0, [], [], [], [], []);
    assert Path(caps, reentry, s, [], s);
    hide Reachable;
    s := Go(caps, reentry, s, Emit(10));
    s := Go(caps, reentry, s, FanOut);
    s := Go(caps, reentry, s, Emit(20));
    s := Go(caps, reentry, s, FanOut);
  }

  /** Two envelopes are in the ring; the subscriber reacts to the first by emitting a third,
      which reaches it before the second. */
  lemma EmittingIntoHandOver(caps: Caps, reentry: Reentry) returns (s: State)
    requires 2 <= caps.ring && reentry.flush
    ensures Reachable(caps, reentry, s) && !AllExact(s)
  {
    hide Reachable;
    s := HalfHandedOver(caps, reentry);
    s := OvertakingEmit(caps, reentry, s, Envelope(1, 10), Envelope(2, 20), 30);
    OutOfOrder(History(s), s.subs[0], 1);
  }

  lemma HalfHandedOver(caps: Caps, reentry: Reentry) returns (s: State)
    requires 2 <= caps.ring
    ensures Reachable(caps, reentry, s) && History(s) == [Envelope(1, 10), Envelope(2, 20)]
    ensures s.lastSeq == 2 && s.fanout == []
    ensures s.subs == [Sub(0, 0, Flushing([Envelope(2, 20)]), 0, [], [Event(Envelope(1, 10))], Some(1))]
  {
    s := TwoInTheRing(caps, reentry);
    hide Reachable;
    AfterAll(s.ring, 0, 0);
    assert s.ring[0..] == s.ring && s.ring[1..] == [Envelope(2, 20)];
    s := Go(caps, reentry, s, Subscribe(0));
    assert s.subs == [Sub(0, 0, Flushing([Envelope(1, 10), Envelope(2, 20)]), 0, [], [], None)];
    s := Go(caps, reentry, s, Flush(0));
    assert s.subs[0].got == [Event(Envelope(1, 10))];
  }

  /** `subscribe` is inside the call that hands the one subscriber `e`, with `e2` still to be
      handed over; the callback emits. */
  lemma OvertakingEmit(caps: Caps, reentry: Reentry, s0: State, e: Envelope, e2: Envelope, body: int) returns (s: State)
    requires Reachable(caps, reentry, s0) && reentry.flush && s0.fanout == [] && e.seqNo < e2.seqNo
    requires |s0.subs| == 1 && s0.subs[0].mode == Flushing([e2]) && s0.subs[0].handed == Some(e.seqNo)
    ensures Reachable(caps, reentry, s) && History(s) == History(s0) + [Envelope(s0.lastSeq + 1, body)] && |s.subs| == 1
    ensures s.subs[0].got == s0.subs[0].got + [Event(Envelope(s0.lastSeq + 1, body)), Event(e2)]
    ensures s.subs[0].start == s0.subs[0].start
  {
    hide Reachable, Last;
    assert MayEmit(reentry, s0.subs[0]);
    s := Go(caps, reentry, s0, Emit(body));
    assert s.fanout == [Envelope(s0.lastSeq + 1, body)];
    s := Go(caps, reentry, s, FanOut);
    s := Go(caps, reentry, s, Return(0));
    s := Go(caps, reentry, s, Flush(0));
  }

  /** An envelope received in the place of an earlier one. */
  lemma OutOfOrder(h: seq<Envelope>, sub: Sub, k: nat)
    requires sub.start == 0 && GapFree(sub.got) && k < |sub.got| <= |h| && sub.got[k] != Event(h[k])
    ensures !Exact(h, sub)
  {
    assert sub.got[..|sub.got|][k] != Events(h[0..|sub.got|])[k];
    assert !ExactTo(h, sub, |sub.got|);
  }

  // ---------------------------------------------------------------- emitting into a replay

  lemma SpillToReplay(caps: Caps, reentry: Reentry) returns (s: State)
    ensures Reachable(caps, reentry, s)
    ensures s == State(1, [], [Envelope(1, 10)], [], [], [Sub(0, 0, Replaying(0, 1), 0, [], [], None)])
  {
    s := State(1, [], [Envelope(1, 10)], [], [], []);
    assert Init(s) && Path(caps, reentry, s, [], s);
    hide Reachable;
    s := Go(caps, reentry, s, Subscribe(0));
  }

  /** The one subscriber of a spill of one line waits for its replay. */
  ghost predicate Waiting(s: State, held: seq<Envelope>) {
    && s.spill == [Envelope(1, 10)] && s.queue == held && s.fanout == [] && s.lastSeq == 1 + |held|
    && s.subs == [Sub(0, 0, Replaying(0, 1), 0, held, [], None)]
  }

  lemma BufferOne(caps: Caps, reentry: Reentry, s0: State, held: seq<Envelope>, body: int) returns (s: State)
    requires Reachable(caps, reentry, s0) && Waiting(s0, held) && |held| < caps.highWater
    ensures Reachable(caps, reentry, s) && Waiting(s, held + [Envelope(2 + |held|, body)])
  {
    hide Reachable, Last;
    s := Go(caps, reentry, s0, Emit(body));
    assert s.fanout == [Envelope(2 + |held|, body)];
    s := Go(caps, reentry, s, FanOut);
  }

  lemma {:induction false} BufferMany(caps: Caps, reentry: Reentry, n: nat) returns (s: State, held: seq<Envelope>)
    requires n <= caps.highWater
    ensures Reachable(caps, reentry, s) && Waiting(s, held) && |held| == n
    ensures forall i | 0 <= i < n :: held[i].seqNo == i + 2
    decreases n
  {
    hide Reachable;
    if n == 0 {
      s := SpillToReplay(caps, reentry);
      held := [];
    } else {
      s, held := BufferMany(caps, reentry, n - 1);
      s := BufferOne(caps, reentry, s, held, 20);
      held := held + [Envelope(2 + |held|, 20)];
    }
  }

  lemma FirstLineHanded(caps: Caps, reentry: Reentry, s0: State, held: seq<Envelope>) returns (s: State)
    requires Reachable(caps, reentry, s0) && Waiting(s0, held)
    ensures Reachable(caps, reentry, s) && History(s) == [Envelope(1, 10)] + held && s.fanout == []
    ensures s.spill == s0.spill && s.lastSeq == s0.lastSeq
    ensures s.subs == [Sub(0, 0, Replaying(0, 1), 0, held, [Event(Envelope(1, 10))], Some(1))]
  {
    hide Reachable;
    s := Go(caps, reentry, s0, ReplayNext(0));
    assert s.subs[0].got == [Event(Envelope(1, 10))];
  }

  /** The buffer is full; the subscriber reacts to the replayed line by emitting, and is told
      that it is complete through the position before that line. */
  lemma EmittingIntoReplay(caps: Caps, reentry: Reentry) returns (s: State)
    requires reentry.replay
    ensures Reachable(caps, reentry, s) && !AllExact(s)
    ensures |s.subs| == 1 && s.subs[0].got == [Event(Envelope(1, 10)), Gap(0)]
  {
    hide Reachable, Last;
    var held;
    s, held := BufferMany(caps, reentry, caps.highWater);
    s := FirstLineHanded(caps, reentry, s, held);
    assert MayEmit(reentry, s.subs[0]);
    s := Go(caps, reentry, s, Emit(30));
    s := Go(caps, reentry, s, FanOut);
    assert FirstGap(s.subs[0].got, 1) && !ExactTo(History(s), s.subs[0], 1);
    assert !Exact(History(s), s.subs[0]);
  }

  lemma ReplayedAndEnded(caps: Caps, reentry: Reentry, s0: State, held: seq<Envelope>) returns (s: State)
    requires Reachable(caps, reentry, s0) && Waiting(s0, held)
    ensures Reachable(caps, reentry, s) && History(s) == [Envelope(1, 10)] + held && s.fanout == []
    ensures s.lastSeq == s0.lastSeq
    ensures s.subs == [Sub(0, 0, Flushing(held), 1, held, [Event(Envelope(1, 10))], None)]
  {
    hide Reachable;
    s := FirstLineHanded(caps, reentry, s0, held);
    s := Go(caps, reentry, s, Return(0));
    s := Go(caps, reentry, s, ReplayEnd(0));
  }

  /** The same overtaking through the buffer: what the subscriber emits on the first of two
      buffered envelopes reaches it before the second. */
  lemma EmittingIntoBuffer(caps: Caps, reentry: Reentry) returns (s: State)
    requires 2 <= caps.highWater && reentry.flush
    ensures Reachable(caps, reentry, s) && !AllExact(s)
  {
    hide Reachable, Last;
    var held;
    s, held := BufferMany(caps, reentry, 2);
    assert held[0].seqNo == 2 && held[1].seqNo == 3 && held[1..] == [held[1]];
    s := ReplayedAndEnded(caps, reentry, s, held);
    s := Go(caps, reentry, s, Flush(0));
    s := OvertakingEmit(caps, reentry, s, held[0], held[1], 30);
    OutOfOrder(History(s), s.subs[0], 2);
  }

  // ---------------------------------------------------------------- when delivery is exact

  /** Not all runs end in nothing: a session rehydrated from its spill serves a subscriber the
      history, and what was emitted meanwhile, and takes it on to the live stream. */
  lemma CaughtUpFromSpill(caps: Caps, reentry: Reentry, body: int) returns (s: State)
    requires 1 <= caps.highWater
    ensures Reachable(caps, reentry, s) && |s.subs| == 1 && s.subs[0].mode.Live?
    ensures s.subs[0].got == [Event(Envelope(1, 10)), Event(Envelope(2, body))]
  {
    hide Reachable;
    s := SpillToReplay(caps, reentry);
    s := BufferOne(caps, reentry, s, [], body);
    var held := [] + [Envelope(2, body)];
    s := ReplayedAndEnded(caps, reentry, s, held);
    s := Go(caps, reentry, s, Flush(0));
    s := Go(caps, reentry, s, Return(0));
    s := Go(caps, reentry, s, Flush(0));
  }

  /** Every subscriber of every run is served exactly if and only if no callback emits into
      the replay of its spill, nor into a flush while two envelopes can be held for it. */
  lemma ReplayExactWhen(caps: Caps, reentry: Reentry)
    ensures (forall s :: Reachable(caps, reentry, s) ==> AllExact(s)) <==>
      !reentry.replay && !(reentry.flush && (2 <= caps.ring || 2 <= caps.highWater))
  {
    if Safe(caps, reentry) {
      forall s | Reachable(caps, reentry, s) ensures AllExact(s) { ReplayIsExact(caps, reentry, s); }
    } else if reentry.replay {
      var s := EmittingIntoReplay(caps, reentry);
    } else if 2 <= caps.ring {
      var s := EmittingIntoHandOver(caps, reentry);
    } else {
      var s := EmittingIntoBuffer(caps, reentry);
    }
  }

  // ---------------------------------------------------------------- the session entry

  lemma {:induction false} AfterSnoc(es: seq<Envelope>, e: Envelope, n: nat)
    ensures After(es + [e], n) == After(es, n) + if e.seqNo > n then [e] else []
    decreases |es|
  {
    if es != [] {
      assert (es + [e])[1..] == es[1..] + [e];
      AfterSnoc(es[1..], e, n);
    }
  }

  const ANY := Reentry(true, true)

  /** The mutable half: one method per synchronous block of the source. */
  class SessionEntry {
    const caps: Caps
    var lastSeq: nat
    var ring: seq<Envelope>
    var spill: seq<Envelope>
    var queue: seq<Envelope>
    var fanout: seq<Envelope>
    var subs: seq<Sub>

    ghost function Now(): State
      reads this
    {
      State(lastSeq, ring, spill, queue, fanout, subs)
    }

    constructor (caps: Caps, spill: seq<Envelope>)
      requires Numbered(spill)
      ensures this.caps == caps && Init(Now()) && this.spill == spill
    {
      this.caps := caps;
      this.lastSeq, this.spill := |spill|, spill;
      ring, queue, fanout, subs := [], [], [], [];
    }

    method PushRing(e: Envelope)
      modifies this`ring
      ensures ring == Last(old(ring) + [e], caps.ring) || (caps.ring <= 0 && ring == old(ring))
    {
      if caps.ring <= 0 { return; }
      ring := ring + [e];
      if |ring| > caps.ring { ring := ring[|ring| - caps.ring..]; }
    }

    method ReadRingAfter(after: nat) returns (r: Option<seq<Envelope>>)
      ensures r == if RingServes(ring, after) then Some(After(ring, after)) else None
    {
      if ring == [] { return None; }
      if after < ring[0].seqNo - 1 { return None; }
      var kept := [];
      for i := 0 to |ring|
        invariant kept == After(ring[..i], after)
      {
        AfterSnoc(ring[..i], ring[i], after);
        assert ring[..i + 1] == ring[..i] + [ring[i]];
        if ring[i].seqNo > after { kept := kept + [ring[i]]; }
      }
      assert ring[..|ring|] == ring;
      return Some(kept);
    }

    method EmitEvent(body: int) returns (e: Envelope)
      requires Enabled(ANY, Now(), Emit(body))
      requires caps.ring <= 0 ==> ring == []
      modifies this
      ensures Now() == Next(caps, ANY, old(Now()), Emit(body))
      ensures e == Envelope(old(lastSeq) + 1, body)
      ensures caps.ring <= 0 ==> ring == []
    {
      lastSeq := lastSeq + 1;
      e := Envelope(lastSeq, body);
      PushRing(e);
      queue := queue + [e];
      fanout := fanout + [e];
    }

    method DeliverToAll()
      requires fanout != []
      modifies this
      ensures Now() == Next(caps, ANY, old(Now()), FanOut)
    {
      var e := fanout[0];
      for k := 0 to |subs|
        invariant |subs| == |old(subs)| && forall i | 0 <= i < |subs| ::
            subs[i] == if i < k then Deliver(caps, old(subs[i]), e) else old(subs[i])
        invariant (lastSeq, ring, spill, queue, fanout) == old((lastSeq, ring, spill, queue, fanout))
      {
        subs := subs[k := Deliver(caps, subs[k], e)];
      }
      assert subs == DeliverEach(caps, old(subs), e);
      fanout := fanout[1..];
    }

    method LandWrite()
      requires Enabled(ANY, Now(), Write)
      modifies this
      ensures Now() == Next(caps, ANY, old(Now()), Write)
    {
      spill, queue := spill + [queue[0]], queue[1..];
    }

    method Register(after: nat)
      requires Enabled(ANY, Now(), Subscribe(after))
      modifies this
      ensures Now() == Next(caps, ANY, old(Now()), Subscribe(after))
    {
      if after > lastSeq {
        subs := subs + [Sub(after, lastSeq, Live, lastSeq, [], [Gap(lastSeq)], Some(lastSeq))];
        return;
      }
      var held := ReadRingAfter(after);
      match held
      case Some(es) => subs := subs + [Sub(after, after, Flushing(es), after, [], [], None)];
      case None => subs := subs + [Sub(after, after, Replaying(0, lastSeq), after, [], [], None)];
    }

    method ReplayLine(id: Id)
      requires Enabled(ANY, Now(), ReplayNext(id))
      modifies this
      ensures Now() == Next(caps, ANY, old(Now()), ReplayNext(id))
    {
      var sub := subs[id];
      var e := spill[sub.mode.next];
      if e.seqNo <= sub.after {
        subs := subs[id := sub.(mode := sub.mode.(next := sub.mode.next + 1))];
      } else if e.seqNo != sub.through + 1 {
        subs := subs[id := sub.(mode := Ended, got := sub.got + [Gap(sub.through)], handed := Some(sub.through))];
      } else {
        subs := subs[id := sub.(got := sub.got + [Event(e)], handed := Some(e.seqNo))];
      }
    }

    method CallReturns(id: Id)
      requires Enabled(ANY, Now(), Return(id))
      modifies this
      ensures Now() == Next(caps, ANY, old(Now()), Return(id))
    {
      var sub := subs[id];
      sub := sub.(through := sub.handed.value, handed := None);
      if sub.mode.Replaying? { sub := sub.(mode := sub.mode.(next := sub.mode.next + 1)); }
      subs := subs[id := sub];
    }

    method FlushOne(id: Id)
      requires Enabled(ANY, Now(), Flush(id))
      modifies this
      ensures Now() == Next(caps, ANY, old(Now()), Flush(id))
    {
      var sub := subs[id];
      if sub.mode.rest == [] {
        subs := subs[id := sub.(mode := Live)];
      } else {
        var e := sub.mode.rest[0];
        sub := sub.(mode := Flushing(sub.mode.rest[1..]));
        if e.seqNo > sub.through { sub := sub.(got := sub.got + [Event(e)], handed := Some(e.seqNo)); }
        subs := subs[id := sub];
      }
    }
  }
}
