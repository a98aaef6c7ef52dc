/**
One event subscription over the runtime's RPC link
(`src/agent-console/runtime/protocol/subscriptions.ts`), as the writer of
`src/agent-console/runtime/protocol/writer.ts` drives it. History is read back one record at a
time, and only against credit; live events wait in a bounded queue meanwhile. Each method runs
without interruption; between them anything may happen that their conditions allow.
*/
module Subscriptions {
  import opened Common

  const LINE_BYTES := 8 * 1024 * 1024
  const MAX_SAFE := 0x1F_FFFF_FFFF_FFFF

  /** An envelope of the session, or a frame, which carries no sequence number. */
  datatype Event = Envelope(number: int) | Frame

  datatype Item = Item(event: Event, bytes: nat)

  /** What reading one record of the history comes to. */
  datatype Read = Record(number: int, bytes: nat) | NoRecord | SessionGone

  ghost function Size(items: seq<Item>): nat {
    if items == [] then 0 else Size(items[..|items| - 1]) + items[|items| - 1].bytes
  }

  /** The sequence numbers among these items. */
  ghost function Numbers(items: seq<Item>): seq<int> {
    if items == [] then []
    else
      var e := items[|items| - 1].event;
      Numbers(items[..|items| - 1]) + if e.Envelope? then [e.number] else []
  }

  /** `from + 1`, `from + 2`, and so on. */
  ghost predicate RunsFrom(from: int, ns: seq<int>) {
    forall i | 0 <= i < |ns| :: ns[i] == from + 1 + i
  }

  lemma RunsSnoc(from: int, ns: seq<int>, n: int)
    requires RunsFrom(from, ns) && n == from + 1 + |ns|
    ensures RunsFrom(from, ns + [n])
  {
  }

  lemma RunsTail(from: int, ns: seq<int>)
    requires RunsFrom(from, ns) && ns != []
    ensures ns[0] == from + 1 && RunsFrom(from + 1, ns[1..])
  {
  }

  lemma Snoc(items: seq<Item>, x: Item)
    ensures Size(items + [x]) == Size(items) + x.bytes
    ensures Numbers(items + [x]) == if x.event.Envelope? then Numbers(items) + [x.event.number] else Numbers(items)
  {
    assert (items + [x])[..|items|] == items;
  }

  lemma OneSize(x: Item)
    ensures Size([x]) == x.bytes && Size([]) == 0
  {
    Snoc([], x);
    assert [] + [x] == [x];
  }

  lemma {:induction false} Shift(items: seq<Item>)
    requires items != []
    ensures Size(items) == items[0].bytes + Size(items[1..])
    ensures Numbers(items) == if items[0].event.Envelope? then [items[0].event.number] + Numbers(items[1..]) else Numbers(items[1..])
    decreases |items|
  {
    if |items| == 1 {
      assert items[..0] == [] && items[1..] == [];
    } else {
      var front, x := items[..|items| - 1], items[|items| - 1];
      Shift(front);
      Snoc(front[1..], x);
      assert front[1..] + [x] == items[1..];
    }
  }

  class Subscription {
    const fromSeq: int
    const replayThrough: int
    const budget: nat
    var credit: nat
    var queue: seq<Item>
    var bytes: nat
    var through: int
    var stopped: bool
    var replaying: bool
    var reading: bool
    var replayItem: Option<Item>
    /** The writer is still up; once down, nothing is written any more. */
    var linkUp: bool
    /** The watermarks told to the client in gap notices. */
    var notices: seq<int>
    /** The last envelope the core has handed over live, all credit ever granted, every item
        written, and items taken but not written. */
    ghost var live: int
    ghost var granted: nat
    ghost var sent: seq<Item>
    ghost var lost: nat

    ghost function Held(): seq<Item>
      reads this
    {
      if replayItem.Some? then [replayItem.value] else []
    }

    /** The watermark from which the queued live envelopes run on. */
    ghost function LiveFrom(): int
      reads this
    {
      if replaying then replayThrough else through
    }

    /** The client has been sent the envelopes behind `fromSeq` without a gap or a repeat, up to
        its watermark; credit is never created or destroyed. */
    ghost predicate Accounts()
      reads this
    {
      && RunsFrom(fromSeq, Numbers(sent)) && through == fromSeq + |Numbers(sent)|
      && granted == credit + |sent| + lost && (lost > 0 ==> !linkUp)
      && bytes == Size(queue) + Size(Held())
      && (stopped ==> queue == [] && replayItem.None?)
    }

    /** What the pump relies on while the subscription lives: the queue goes on where the history
        or the last live event left off, and stays within its limits. */
    ghost predicate Flowing()
      reads this
    {
      && RunsFrom(LiveFrom(), Numbers(queue)) && live == LiveFrom() + |Numbers(queue)|
      && (replaying <==> through < replayThrough)
      && (replayItem.Some? ==> replaying && !reading && replayItem.value.event == Envelope(through + 1))
      && (reading ==> replaying)
      && |queue| + |Held()| <= budget && bytes <= LINE_BYTES && notices == []
    }

    ghost predicate Valid()
      reads this
    {
      Accounts() && (linkUp && !stopped ==> Flowing())
    }

    constructor (fromSeq: int, replayThrough: int, budget: nat)
      ensures Valid() && linkUp && !stopped && through == fromSeq && credit == 0 && sent == [] && granted == 0
      ensures live == (if fromSeq < replayThrough then replayThrough else fromSeq) && notices == []
      ensures this.fromSeq == fromSeq && this.replayThrough == replayThrough && this.budget == budget
    {
      this.fromSeq, this.replayThrough, this.budget := fromSeq, replayThrough, budget;
      credit, queue, bytes, through, stopped := 0, [], 0, fromSeq, false;
      replaying, reading, replayItem, linkUp := fromSeq < replayThrough, false, None, true;
      live, granted, sent, lost, notices := if fromSeq < replayThrough then replayThrough else fromSeq, 0, [], 0, [];
    }

    method Retire()
      requires Valid()
      modifies this`stopped, this`queue, this`bytes, this`replayItem
      ensures Valid() && stopped && queue == [] && bytes == 0 && replayItem == None
    {
      stopped, queue, bytes, replayItem := true, [], 0, None;
    }

    /** The budget is exhausted or the history is broken: the subscription ends with a notice
        that repeats the watermark, or, when the link itself is stuck, the link ends. */
    method Gap(backpressured: bool)
      requires Valid()
      modifies this`stopped, this`queue, this`bytes, this`replayItem, this`linkUp, this`notices
      ensures Valid() && (stopped || !linkUp)
      ensures if !old(stopped) && backpressured then !linkUp && !stopped && queue == old(queue) else stopped && linkUp == old(linkUp)
      ensures notices == old(notices) + if !old(stopped) && !backpressured then [through] else []
    {
      if stopped { return; }
      if backpressured {
        linkUp := false;
        return;
      }
      Retire();
      notices := notices + [through];
    }

    /** An item of this size still has its place. */
    ghost predicate Room(size: nat)
      reads this
    {
      |queue| + |Held()| < budget && bytes + size <= LINE_BYTES
    }

    /** The subscription has ended, and the client has been told how far it was sent. */
    ghost predicate Told(before: seq<int>)
      reads this
    {
      stopped && linkUp && notices == before + [through]
    }

    /** The link has ended, and with it every subscription. */
    ghost predicate LinkDown(before: seq<int>)
      reads this
    {
      !linkUp && notices == before
    }

    /** Whether an item may be kept; its bytes are counted from here on. */
    method Encode(event: Event, size: nat, backpressured: bool) returns (item: Option<Item>)
      requires Valid() && linkUp && !stopped
      modifies this`stopped, this`queue, this`bytes, this`replayItem, this`linkUp, this`notices
      ensures item.Some? <==> old(Room(size))
      ensures item.None? ==> Valid() && (if size - 1 > LINE_BYTES || backpressured then LinkDown(old(notices)) else Told(old(notices)))
      ensures item.Some? ==>
        && item.value == Item(event, size) && bytes == old(bytes) + size <= LINE_BYTES && |queue| + |Held()| < budget
        && queue == old(queue) && replayItem == old(replayItem) && linkUp && !stopped && notices == old(notices)
    {
      if size - 1 > LINE_BYTES {
        linkUp := false;
        return None;
      }
      if |queue| + (if replayItem.Some? then 1 else 0) >= budget || bytes + size > LINE_BYTES {
        Gap(backpressured);
        return None;
      }
      bytes := bytes + size;
      return Some(Item(event, size));
    }

    /** The core can serve the subscriber no further and says so, with its own watermark: the last
        envelope it has handed over, or, for a resume point behind the end of the history, that
        end. The notice is passed on as it is. It restates what the client has been sent only when
        the history is caught up with and no envelope waits. */
    method DeliverGap(mark: int)
      requires Valid() && linkUp && (mark == live || mark == replayThrough < fromSeq)
      modifies this`stopped, this`queue, this`bytes, this`replayItem, this`notices
      ensures Valid() && stopped
      ensures notices == old(notices) + if old(stopped) then [] else [mark]
      ensures !old(stopped) ==> (mark == through <==> mark == live && !old(replaying) && Numbers(old(queue)) == [])
    {
      hide Size, Numbers, RunsFrom;
      if stopped { return; }
      Retire();
      notices := notices + [mark];
    }

    /** The core hands over an event live: the next envelope, or a frame. */
    method Deliver(event: Event, size: nat, backpressured: bool)
      requires Valid() && linkUp && (event.Envelope? && !stopped ==> event.number == live + 1)
      modifies this
      ensures Valid() && sent == old(sent) && through == old(through) && credit == old(credit)
      ensures old(stopped) ==> queue == old(queue)
      ensures !old(stopped) && old(Room(size)) ==> linkUp && !stopped
      ensures linkUp && !stopped ==> queue == old(queue) + (if event.Frame? && old(replaying) then [] else [Item(event, size)])
      ensures !old(stopped) && !(event.Frame? && old(replaying)) && !old(Room(size)) ==>
        if size - 1 > LINE_BYTES || backpressured then LinkDown(old(notices)) else Told(old(notices))
      ensures old(stopped) || (event.Frame? && old(replaying)) || old(Room(size)) ==>
        stopped == old(stopped) && linkUp && notices == old(notices)
    {
      hide Size, Numbers, RunsFrom;
      if stopped { return; }
      if replaying && event.Frame? { return; }
      var item := Encode(event, size, backpressured);
      if item.None? { return; }
      Snoc(queue, item.value);
      if event.Envelope? { RunsSnoc(LiveFrom(), Numbers(queue), event.number); }
      queue := queue + [item.value];
      if event.Envelope? { live := event.number; }
    }

    /** `next`: the item to write, paid for with one credit; or a read of the history is begun. */
    method Next() returns (item: Option<Item>)
      requires Valid() && linkUp && !stopped
      modifies this`credit, this`queue, this`bytes, this`replayItem, this`reading
      ensures item.None? ==> Valid() && credit == old(credit) && queue == old(queue) && replayItem == old(replayItem)
      ensures item.None? <==> old(credit) == 0 || (if old(replaying) then old(replayItem).None? else old(queue) == [])
      ensures item.None? && old(credit) > 0 && old(replaying) ==> reading
      ensures item.Some? ==> credit == old(credit) - 1 && reading == old(reading) && bytes == Size(queue) + Size(Held()) <= old(bytes)
      ensures item.Some? ==> if old(replaying)
        then old(replayItem) == item && replayItem == None && queue == old(queue)
        else old(queue) == [item.value] + queue && replayItem == old(replayItem)
    {
      hide Size, Numbers, RunsFrom;
      if credit == 0 { return None; }
      if replaying {
        item := replayItem;
        if item.None? {
          reading := true;
          return;
        }
        OneSize(item.value);
        replayItem := None;
      } else {
        if queue == [] { return None; }
        Shift(queue);
        item := Some(queue[0]);
        queue := queue[1..];
      }
      credit := credit - 1;
      bytes := bytes - item.value.bytes;
    }

    /** One turn of the pump for this subscription: what is taken is written at once and moves the
        watermark, unless the output has no room left for it, which ends the link. */
    method Pump(fits: bool) returns (item: Option<Item>)
      requires Valid() && linkUp && !stopped
      modifies this
      ensures Valid()
      ensures item.None? <==> old(credit) == 0 || (if old(replaying) then old(replayItem).None? else old(queue) == [])
      ensures item.None? ==> sent == old(sent) && through == old(through) && linkUp
      ensures item.Some? ==> linkUp == fits && credit == old(credit) - 1
      ensures item.Some? && fits ==> sent == old(sent) + [item.value]
      ensures item.Some? && fits && item.value.event.Envelope? ==> item.value.event.number == old(through) + 1 == through
      ensures item.Some? && !fits ==> sent == old(sent) && through == old(through)
    {
      hide Size, Numbers, RunsFrom;
      var fromReplay := replaying;
      ghost var waiting := queue;
      item := Next();
      if item.None? { return; }
      ghost var e := item.value.event;
      if !fromReplay {
        Shift(waiting);
        if e.Envelope? {
          RunsTail(through, Numbers(waiting));
          assert Numbers(waiting)[1..] == Numbers(queue);
        }
      }
      if !fits {
        linkUp, lost := false, lost + 1;
        return;
      }
      Snoc(sent, item.value);
      if e.Envelope? { RunsSnoc(fromSeq, Numbers(sent), e.number); }
      sent := sent + [item.value];
      if fromReplay {
        through := item.value.event.number;
        if through == replayThrough { replaying := false; }
      } else if item.value.event.Envelope? {
        through := item.value.event.number;
      }
    }

    /** A read of the history comes back. */
    method ReadReturns(result: Read, backpressured: bool)
      requires Valid() && linkUp && reading
      modifies this
      ensures Valid() && !reading && sent == old(sent) && through == old(through) && credit == old(credit)
      ensures old(stopped) ==> stopped && replayItem == None
      ensures !old(stopped) && result.Record? && result.number == through + 1 && old(Room(result.bytes)) ==> linkUp && !stopped
      ensures linkUp && !stopped ==> result.Record? && result.number == through + 1
      ensures linkUp && !stopped ==> replayItem == Some(Item(Envelope(result.number), result.bytes)) && queue == old(queue)
      ensures !old(stopped) && result.SessionGone? ==> stopped && linkUp && notices == old(notices)
      ensures !old(stopped) && (result.NoRecord? || (result.Record? && result.number != through + 1)) ==>
        if backpressured then LinkDown(old(notices)) else Told(old(notices))
      ensures !old(stopped) && result.Record? && result.number == through + 1 && !old(Room(result.bytes)) ==>
        if result.bytes - 1 > LINE_BYTES || backpressured then LinkDown(old(notices)) else Told(old(notices))
    {
      hide Size, Numbers, RunsFrom;
      reading := false;
      if stopped { return; }
      match result
      case SessionGone => Retire();
      case NoRecord => Gap(backpressured);
      case Record(number, size) =>
        if number != through + 1 {
          Gap(backpressured);
          return;
        }
        var item := Encode(Envelope(number), size, backpressured);
        if item.None? { return; }
        OneSize(item.value);
        replayItem := item;
    }

    method AddCredit(count: nat) returns (ok: bool)
      requires Valid()
      modifies this`credit, this`granted
      ensures Valid() && (ok <==> old(credit) + count <= MAX_SAFE)
      ensures credit == old(credit) + if ok then count else 0
    {
      ok := credit + count <= MAX_SAFE;
      if ok { credit, granted := credit + count, granted + count; }
    }
  }

  /** A gap notice of the core that overtakes the history: the client has been sent nothing
      behind 0 and is told 5, although the protocol promises the last delivered watermark. */
  method ForwardedGapOverstates() returns (told: int, delivered: int)
    ensures told == 5 && delivered == 0
  {
    var s := new Subscription(0, 5, 256);
    s.DeliverGap(5);
    told, delivered := s.notices[0], s.through;
  }
}
