/** TankQueue and TankFeed: the tank that turns a recursive flow into an
    iterative one. TankQueue holds packets in a priority queue of bounded
    size, padded at the front with `None` spacers; every accepted packet is
    pushed, and while the queue is over size the head is popped and, unless
    it is a spacer, sent on main. TankFeed pushes straight into the queue of
    the TankQueue it is wired to, bypassing that filter's `filter_data`. */
module Tank {

  import opened Packets
  import opened PriorityQueue

  class TankQueue {
    /** `tank_size`; a negative size is unlimited. */
    var tankSize: int
    const priorityField: string
    /** The priority queue, in pop order. */
    var queue: seq<Entry>
    /** The queue's insertion counter. */
    var nextSeq: nat
    /** `packets_held`. */
    var packetsHeld: int
    var sent: seq<Emission>

    ghost predicate Valid()
      reads this
    {
      Sorted(queue) && SeqBelow(queue, nextSeq) && packetsHeld == CountHeld(queue)
    }

    /** `init_filter`: an empty queue, then the tank size is set, which pads
        the queue with spacers up to that size. */
    constructor (tankSize: int, priorityField: string)
      ensures Valid()
      ensures this.tankSize == tankSize && this.priorityField == priorityField
      ensures tankSize >= 0 ==> |queue| == tankSize
      ensures tankSize < 0 ==> queue == []
      ensures HeldPackets(queue) == [] && sent == []
    {
      this.tankSize := -1;
      this.priorityField := priorityField;
      queue := [];
      nextSeq := 0;
      packetsHeld := 0;
      sent := [];
      new;
      SetTankSize(tankSize);
    }

    /** `sorted_packets`: the packets held, in pop order, spacers skipped. */
    function SortedPackets(): seq<Packet>
      reads this
    {
      HeldPackets(queue)
    }

    /** `push`: a packet goes in at its priority, a spacer (`None`) in front
        of every packet. */
    method Push(p: Option<Packet>)
      requires Valid()
      modifies this
      ensures Valid()
      ensures tankSize == old(tankSize) && sent == old(sent) && nextSeq == old(nextSeq) + 1
      ensures p.Some? ==> queue == Insert(old(queue), Held(PriorityOf(p.value, priorityField), old(nextSeq), p.value))
      ensures p.None? ==> queue == Insert(old(queue), Spacer(old(nextSeq)))
      ensures p.None? ==> HeldPackets(queue) == HeldPackets(old(queue)) && HeldEntries(queue) == HeldEntries(old(queue))
      ensures p.Some? ==> multiset(HeldPackets(queue)) == multiset(HeldPackets(old(queue))) + multiset{p.value}
    {
      var e := if p.Some? then Held(PriorityOf(p.value, priorityField), nextSeq, p.value) else Spacer(nextSeq);
      InsertSorted(queue, e);
      InsertMultiset(queue, e);
      if p.Some? {
        InsertHeldCount(queue, e);
        packetsHeld := packetsHeld + 1;
      } else {
        InsertSpacerKeepsPackets(queue, nextSeq);
      }
      InsertBelow(queue, e, nextSeq);
      queue := Insert(queue, e);
      nextSeq := nextSeq + 1;
    }

    /** `pop`: the head of the queue; `None` when it is a spacer or the
        queue is empty. */
    method Pop() returns (r: Option<Packet>)
      requires Valid()
      modifies this
      ensures Valid()
      ensures tankSize == old(tankSize) && sent == old(sent) && nextSeq == old(nextSeq)
      ensures old(queue) == [] ==> queue == [] && r == None
      ensures old(queue) != [] ==> queue == old(queue)[1..]
      ensures old(queue) != [] ==> r == if old(queue)[0].Held? then Some(old(queue)[0].packet) else None
    {
      if queue == [] {
        return None;
      }
      var head := queue[0];
      queue := queue[1..];
      if head.Held? {
        packetsHeld := packetsHeld - 1;
        r := Some(head.packet);
      } else {
        r := None;
      }
    }

    /** Pops and sends on main until the queue fits the tank size; spacers
        are popped but not sent. */
    method DrainExcess()
      requires Valid()
      modifies this
      ensures Valid()
      ensures tankSize == old(tankSize) && nextSeq == old(nextSeq)
      ensures var k := Overflow(|old(queue)|, tankSize);
        queue == old(queue)[k..] && sent == old(sent) + SendAll(HeldPackets(old(queue)[..k]), Main)
    {
      ghost var q0 := queue;
      ghost var k := Overflow(|q0|, tankSize);
      ghost var j := 0;
      while tankSize >= 0 && |queue| > tankSize
        invariant Valid() && tankSize == old(tankSize) && nextSeq == old(nextSeq)
        invariant 0 <= j <= k && queue == q0[j..]
        invariant sent == old(sent) + SendAll(HeldPackets(q0[..j]), Main)
        decreases |queue|
      {
        DrainStep(q0, j, old(sent), sent);
        var out := Pop();
        if out.Some? {
          sent := sent + [Emission(Main, DataUnit(out.value))];
        }
        j := j + 1;
      }
    }

    /** One round of the drain: sending the packet at position `j` (or
        nothing for a spacer) extends the trace by one more held packet. */
    static lemma DrainStep(q0: seq<Entry>, j: nat, s0: seq<Emission>, s: seq<Emission>)
      requires j < |q0| && s == s0 + SendAll(HeldPackets(q0[..j]), Main)
      ensures (if q0[j].Held? then s + [Emission(Main, DataUnit(q0[j].packet))] else s)
           == s0 + SendAll(HeldPackets(q0[..j + 1]), Main)
    {
      HeldPacketsStep(q0, j);
      SendAllAppend(HeldPackets(q0[..j]), if q0[j].Held? then [q0[j].packet] else [], Main);
    }

    /** The `tank_size` setter: a smaller size sends the excess on main; a
        larger size pads the front with spacers; a negative size neither
        sends nor pads. */
    method SetTankSize(n: int)
      requires Valid()
      modifies this
      ensures Valid() && tankSize == n
      ensures var k := Overflow(|old(queue)|, n);
        sent == old(sent) + SendAll(HeldPackets(old(queue)[..k]), Main) &&
        HeldPackets(queue) == HeldPackets(old(queue)[k..]) &&
        (n >= 0 ==> |queue| == n) &&
        (n < 0 || |old(queue)| >= n ==> queue == old(queue)[k..])
      ensures n >= |old(queue)| ==> queue == Padded(old(queue), old(nextSeq), n - |old(queue)|)
    {
      tankSize := n;
      DrainExcess();
      if tankSize >= 0 {
        PadFront();
      }
    }

    /** The padding loop of the `tank_size` setter: spacers are pushed one
        by one until the queue holds exactly `tank_size` entries. */
    method PadFront()
      requires Valid() && 0 <= tankSize && |queue| <= tankSize
      modifies this
      ensures Valid() && tankSize == old(tankSize) && sent == old(sent)
      ensures queue == Padded(old(queue), old(nextSeq), tankSize - |old(queue)|)
      ensures HeldPackets(queue) == HeldPackets(old(queue)) && HeldEntries(queue) == HeldEntries(old(queue))
    {
      ghost var j := 0;
      while |queue| < tankSize
        invariant Valid() && tankSize == old(tankSize) && sent == old(sent)
        invariant j == |queue| - |old(queue)| && nextSeq == old(nextSeq) + j
        invariant |queue| <= tankSize && queue == Padded(old(queue), old(nextSeq), j)
        invariant HeldPackets(queue) == HeldPackets(old(queue)) && HeldEntries(queue) == HeldEntries(old(queue))
        decreases tankSize - |queue|
      {
        PushSpacer(old(queue), old(nextSeq), j);
        j := j + 1;
      }
    }

    /** One round of the padding: `push(None)` adds the next spacer. */
    method PushSpacer(ghost q0: seq<Entry>, ghost s0: nat, ghost j: nat)
      requires Valid() && queue == Padded(q0, s0, j) && nextSeq == s0 + j
      modifies this
      ensures Valid() && tankSize == old(tankSize) && sent == old(sent) && nextSeq == old(nextSeq) + 1
      ensures queue == Padded(q0, s0, j + 1) && |queue| == |old(queue)| + 1
      ensures HeldPackets(queue) == HeldPackets(old(queue)) && HeldEntries(queue) == HeldEntries(old(queue))
    {
      PaddedLast(q0, s0, j);
      Push(None);
    }

    /** `filter_data`: push the packet, then restore the size by sending on
        the oldest (lowest priority) entries. */
    method FilterData(p: Packet)
      requires Valid()
      modifies this
      ensures Valid() && tankSize == old(tankSize) && nextSeq == old(nextSeq) + 1
      ensures var q1 := Insert(old(queue), Held(PriorityOf(p, priorityField), old(nextSeq), p));
        var k := Overflow(|q1|, tankSize);
        queue == q1[k..] && sent == old(sent) + SendAll(HeldPackets(q1[..k]), Main)
      ensures tankSize >= 0 ==> |queue| <= tankSize
      ensures multiset(HeldPackets(queue)) + multiset(SentPackets(sent[|old(sent)|..]))
           == multiset(HeldPackets(old(queue))) + multiset{p}
    {
      Push(Some(p));
      ghost var q1 := queue;
      ghost var s0 := sent;
      DrainExcess();
      ghost var k := Overflow(|q1|, tankSize);
      HeldPacketsSplit(q1, k);
      assert sent[|s0|..] == SendAll(HeldPackets(q1[..k]), Main);
      SentPacketsOfSendAll(HeldPackets(q1[..k]), Main);
    }

    /** `flush_buffer`: setting the size to 0 sends every packet held, in
        pop order, and leaves the tank empty. */
    method FlushBuffer()
      requires Valid()
      modifies this
      ensures Valid() && tankSize == 0 && queue == []
      ensures sent == old(sent) + SendAll(HeldPackets(old(queue)), Main)
    {
      SetTankSize(0);
      assert old(queue)[..|old(queue)|] == old(queue);
    }

    /** `zero_inputs`: the queue is cleared, and with it the count of packets
        held (the source clears the queue only; see TankZeroAsWritten). */
    method ZeroInputs()
      requires Valid()
      modifies this
      ensures Valid() && queue == [] && packetsHeld == 0
      ensures tankSize == old(tankSize) && sent == old(sent) && nextSeq == old(nextSeq)
    {
      queue := [];
      packetsHeld := 0;
    }
  }

  /** What a tank sends and keeps for one accepted packet, as pure values:
      every packet sent pops before every entry kept, the packets sent come
      out in pop order, and sent plus kept are the old packets plus the new
      one. */
  lemma AcceptOrdered(q: seq<Entry>, next: nat, size: int, p: Packet, field: string)
    requires Sorted(q) && SeqBelow(q, next)
    ensures var q1 := Insert(q, Held(PriorityOf(p, field), next, p));
      var k := Overflow(|q1|, size);
      Sorted(q1[k..]) &&
      (forall i, j :: 0 <= i < k <= j < |q1| ==> Before(q1[i], q1[j])) &&
      Sorted(HeldEntries(q1[..k])) &&
      HeldPackets(q1[..k]) + HeldPackets(q1[k..]) == HeldPackets(q1) &&
      multiset(HeldPackets(q1)) == multiset(HeldPackets(q)) + multiset{p}
  {
    var e := Held(PriorityOf(p, field), next, p);
    InsertSorted(q, e);
    var q1 := Insert(q, e);
    var k := Overflow(|q1|, size);
    SplitOrdered(q1, k);
    HeldEntriesSorted(q1[..k]);
    HeldPacketsSplit(q1, k);
    InsertHeldCount(q, e);
  }

  /** `zero_inputs` as written: `_priority_queue.clear()`, with
      `packets_held` left as it was. Returns the new queue and count. */
  function TankZeroAsWritten(queue: seq<Entry>, packetsHeld: int): (r: (seq<Entry>, int))
    ensures r.0 == [] && r.1 == packetsHeld
  {
    ([], packetsHeld)
  }

  /** A tank holding one packet: after `zero_inputs` as written,
      `packets_held` still says 1 while the queue holds none. */
  lemma TankZeroAsWrittenMiscounts(p: Packet)
    ensures var q := [Held(Unnumbered, 0, p)];
      Sorted(q) && CountHeld(q) == 1 &&
      var (q', held) := TankZeroAsWritten(q, CountHeld(q));
      held == 1 && CountHeld(q') == 0
  {
    var q := [Held(Unnumbered, 0, p)];
    assert q[1..] == [];
  }

  /** What a TankFeed's `next_filter` points at. */
  datatype Link = NoLink | TankLink(tank: TankQueue) | OtherLink(ftype: string)

  /** TankFeed's wiring: `next_filter` and the remembered `_next_filter`. */
  datatype Wiring = Wiring(next: Link, saved: Link)

  /** `zero_inputs` as written: the next filter is remembered and then
      disabled; without a next filter it raises, even when one was
      remembered by an earlier call. Gives the new wiring and the tank. */
  function FeedZeroAsWritten(w: Wiring): (r: (Wiring, Result<TankQueue>))
    ensures w.next.TankLink? ==> r == (Wiring(NoLink, w.next), Ok(w.next.tank))
    ensures w.next == NoLink ==> r.1 == Err(FilterRoutingError)
  {
    if w.next == NoLink then (w, Err(FilterRoutingError))
    else
      var w' := Wiring(NoLink, w.next);
      match w.next
      case TankLink(t) => (w', Ok(t))
      case _ => (w', Err(FilterRoutingError))
  }

  /** `zero_inputs` as the remembering of `_next_filter` intends it: a
      second call uses the remembered filter. */
  function FeedZero(w: Wiring): (r: (Wiring, Result<TankQueue>))
    ensures var target := if w.next != NoLink then w.next else w.saved;
      (target.TankLink? <==> r.1.Ok?) && (target.TankLink? ==> r.1.value == target.tank) &&
      r.0 == Wiring(NoLink, target)
  {
    var target := if w.next != NoLink then w.next else w.saved;
    var w' := Wiring(NoLink, target);
    match target
    case TankLink(t) => (w', Ok(t))
    case _ => (w', Err(FilterRoutingError))
  }

  /** A feed wired straight to a tank: as written, its second `zero_inputs`
      raises a routing error. */
  lemma FeedZeroAsWrittenFailsTwice(t: TankQueue)
    ensures var (w1, r1) := FeedZeroAsWritten(Wiring(TankLink(t), NoLink));
      r1 == Ok(t) && FeedZeroAsWritten(w1).1 == Err(FilterRoutingError)
  {
  }

  /** With the remembered filter used, `zero_inputs` may be repeated: every
      later call finds the same tank and keeps the same wiring. */
  lemma FeedZeroRepeatable(w: Wiring)
    requires FeedZero(w).1.Ok?
    ensures var (w1, r1) := FeedZero(w); FeedZero(w1) == (w1, r1)
  {
  }

  /** A feed that is wired to anything but a tank is a routing error. */
  lemma FeedZeroNeedsTank(w: Wiring, ftype: string)
    requires w.next == OtherLink(ftype) || (w.next == NoLink && !w.saved.TankLink?)
    ensures FeedZero(w).1 == Err(FilterRoutingError)
  {
  }

  class TankFeed {
    var wiring: Wiring
    /** `destination_tank`, set by `zero_inputs`. */
    var destination: TankQueue?

    constructor (next: Link)
      ensures wiring == Wiring(next, NoLink) && destination == null
    {
      wiring := Wiring(next, NoLink);
      destination := null;
    }

    method ZeroInputs() returns (err: Option<FilterError>)
      modifies this
      ensures wiring == FeedZero(old(wiring)).0
      ensures FeedZero(old(wiring)).1.Ok? ==> err == None && destination == FeedZero(old(wiring)).1.value
      ensures FeedZero(old(wiring)).1.Err? ==> err == Some(FilterRoutingError) && destination == old(destination)
    {
      var (w, r) := FeedZero(wiring);
      wiring := w;
      if r.Ok? {
        destination := r.value;
        err := None;
      } else {
        err := Some(FilterRoutingError);
      }
    }

    /** `filter_data`: push straight into the destination tank's queue,
        without draining it and without sending anything. */
    method FilterData(p: Packet) returns (err: Option<FilterError>)
      requires destination != null ==> destination.Valid()
      modifies destination
      ensures destination == null ==> err == Some(AttributeError("destination_tank"))
      ensures destination != null ==> (err == None && destination.Valid() &&
        destination.queue == Insert(old(destination.queue), Held(PriorityOf(p, destination.priorityField), old(destination.nextSeq), p)) &&
        destination.sent == old(destination.sent) && destination.tankSize == old(destination.tankSize))
    {
      if destination == null {
        return Some(AttributeError("destination_tank"));
      }
      destination.Push(Some(p));
      return None;
    }
  }
}
