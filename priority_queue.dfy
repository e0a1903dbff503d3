/** The tank's priority queue, as the tank uses it: entries ordered by
    (priority, insertion sequence), where a `None` spacer sorts before every
    real entry. The engine's own PriorityQueue class lives outside this model;
    the queue is modelled as the sequence of its entries in pop order. */
module PriorityQueue {

  import opened Packets

  /** A packet's priority: its numeric priority attribute (a boolean counts
      as 0 or 1), or none. Python 2 orders None below every number, so
      unnumbered packets come first. */
  datatype Priority = Unnumbered | Num(n: int)

  /** A queue entry with its insertion sequence number. */
  datatype Entry = Spacer(seqNo: nat) | Held(priority: Priority, seqNo: nat, packet: Packet)

  /** The priority the tank gives a packet: `packet.__dict__.get(field, None)`. */
  function PriorityOf(p: Packet, field: string): (pr: Priority)
    ensures pr.Num? <==> field in p.attrs && IsNum(p.attrs[field])
    ensures pr.Num? ==> pr.n == Packets.Num(p.attrs[field])
  {
    if field in p.attrs && IsNum(p.attrs[field]) then Num(Packets.Num(p.attrs[field])) else Unnumbered
  }

  /** Spacers first, then unnumbered packets, then numbered ones. */
  function Rank(e: Entry): nat
  {
    match e
    case Spacer(_) => 0
    case Held(Unnumbered, _, _) => 1
    case Held(Num(_), _, _) => 2
  }

  /** `a` pops before `b`: lower rank, then lower priority number, then
      earlier insertion. */
  predicate Before(a: Entry, b: Entry)
  {
    Rank(a) < Rank(b) ||
    (Rank(a) == Rank(b) &&
     if Rank(a) == 2 && a.priority.n != b.priority.n then a.priority.n < b.priority.n
     else a.seqNo < b.seqNo)
  }

  /** Before is a strict total order on entries with distinct sequence numbers. */
  lemma BeforeOrder(a: Entry, b: Entry, c: Entry)
    ensures !Before(a, a)
    ensures Before(a, b) && Before(b, c) ==> Before(a, c)
    ensures a.seqNo != b.seqNo ==> Before(a, b) || Before(b, a)
    ensures Before(a, b) ==> !Before(b, a)
  {
  }

  /** Two packets pushed by the tank pop in the order of their priority
      attributes: a packet without a numeric priority before any packet
      with one, smaller priorities first (a boolean counting as 0 or 1), and arrival order among equal
      priorities; every spacer pops before any packet. */
  lemma PacketOrder(p: Packet, q: Packet, field: string, s: nat, t: nat)
    ensures var a, b := Held(PriorityOf(p, field), s, p), Held(PriorityOf(q, field), t, q);
      var pNum, qNum := field in p.attrs && IsNum(p.attrs[field]), field in q.attrs && IsNum(q.attrs[field]);
      Before(Spacer(s), b) &&
      (Before(a, b) <==>
        if pNum && qNum then
          Packets.Num(p.attrs[field]) < Packets.Num(q.attrs[field]) ||
          (Packets.Num(p.attrs[field]) == Packets.Num(q.attrs[field]) && s < t)
        else if pNum == qNum then s < t
        else qNum)
  {
  }

  /** The queue in pop order. */
  ghost predicate Sorted(q: seq<Entry>)
  {
    forall i, j :: 0 <= i < j < |q| ==> Before(q[i], q[j])
  }

  /** Every entry's sequence number is below `next`, the next one to hand out. */
  ghost predicate SeqBelow(q: seq<Entry>, next: nat)
  {
    forall i :: 0 <= i < |q| ==> q[i].seqNo < next
  }

  /** `push`: the entry goes in at its place in the order. */
  function Insert(q: seq<Entry>, e: Entry): (r: seq<Entry>)
    ensures |r| == |q| + 1
  {
    if q == [] then [e]
    else if Before(e, q[0]) then [e] + q
    else [q[0]] + Insert(q[1..], e)
  }

  /** Pushing adds the entry and keeps every other one. */
  lemma {:induction false} InsertMultiset(q: seq<Entry>, e: Entry)
    ensures multiset(Insert(q, e)) == multiset(q) + multiset{e}
    ensures forall x :: x in Insert(q, e) <==> x == e || x in q
  {
    if q != [] && !Before(e, q[0]) {
      InsertMultiset(q[1..], e);
      assert q == [q[0]] + q[1..];
    }
  }

  /** Pushing into a queue in pop order keeps it in pop order. */
  lemma {:induction false} InsertSorted(q: seq<Entry>, e: Entry)
    requires Sorted(q)
    requires forall i :: 0 <= i < |q| ==> q[i].seqNo != e.seqNo
    ensures Sorted(Insert(q, e))
  {
    if q == [] {
    } else if Before(e, q[0]) {
      BeforeAll(e, q);
    } else {
      var t := Insert(q[1..], e);
      InsertSorted(q[1..], e);
      InsertMultiset(q[1..], e);
      forall j | 0 <= j < |t| ensures Before(q[0], t[j]) {
        assert t[j] in t;
        if t[j] == e {
          BeforeOrder(e, q[0], q[0]);
        } else {
          var i :| 0 <= i < |q[1..]| && q[1..][i] == t[j];
          assert q[i + 1] == t[j];
        }
      }
      assert Insert(q, e) == [q[0]] + t;
    }
  }

  /** A new entry numbered with the counter keeps every number below the
      incremented counter. */
  lemma InsertBelow(q: seq<Entry>, e: Entry, next: nat)
    requires SeqBelow(q, next) && e.seqNo == next
    ensures SeqBelow(Insert(q, e), next + 1)
  {
    var r := Insert(q, e);
    InsertMultiset(q, e);
    forall i | 0 <= i < |r| ensures r[i].seqNo < next + 1 {
      assert r[i] in r;
    }
  }

  /** An entry that precedes the head of a sorted queue precedes all of it. */
  lemma BeforeAll(e: Entry, q: seq<Entry>)
    requires Sorted(q) && q != [] && Before(e, q[0])
    ensures Sorted([e] + q)
  {
    forall j | 0 < j < |q| ensures Before(e, q[j]) {
      BeforeOrder(e, q[0], q[j]);
    }
  }

  /** The packets of the queue, in order, spacers left out. */
  function HeldPackets(q: seq<Entry>): (ps: seq<Packet>)
    ensures |ps| <= |q|
  {
    if q == [] then []
    else (if q[0].Held? then [q[0].packet] else []) + HeldPackets(q[1..])
  }

  /** The number of real (non-spacer) entries. */
  function CountHeld(q: seq<Entry>): nat
  {
    |HeldPackets(q)|
  }

  lemma {:induction false} HeldPacketsAppend(a: seq<Entry>, b: seq<Entry>)
    ensures HeldPackets(a + b) == HeldPackets(a) + HeldPackets(b)
  {
    if a == [] {
      assert a + b == b;
    } else {
      assert (a + b)[0] == a[0];
      assert (a + b)[1..] == a[1..] + b;
      HeldPacketsAppend(a[1..], b);
    }
  }

  /** Cutting a queue in two keeps every packet, once, in order. */
  lemma HeldPacketsSplit(q: seq<Entry>, k: nat)
    requires k <= |q|
    ensures HeldPackets(q[..k]) + HeldPackets(q[k..]) == HeldPackets(q)
  {
    assert q == q[..k] + q[k..];
    HeldPacketsAppend(q[..k], q[k..]);
  }

  /** Popping the head takes its packet, if any, off the front. */
  lemma HeldPacketsStep(q: seq<Entry>, k: nat)
    requires k < |q|
    ensures HeldPackets(q[..k + 1]) == HeldPackets(q[..k]) + (if q[k].Held? then [q[k].packet] else [])
  {
    assert q[..k + 1] == q[..k] + [q[k]];
    HeldPacketsAppend(q[..k], [q[k]]);
    assert [q[k]][1..] == [];
  }

  /** In a sorted queue, whatever is taken off the front pops before
      everything that stays. */
  lemma SplitOrdered(q: seq<Entry>, k: nat)
    requires Sorted(q) && k <= |q|
    ensures forall i, j :: 0 <= i < k <= j < |q| ==> Before(q[i], q[j])
    ensures Sorted(q[..k]) && Sorted(q[k..])
  {
  }

  /** The entries holding packets, in order. */
  function HeldEntries(q: seq<Entry>): (r: seq<Entry>)
    ensures forall i :: 0 <= i < |r| ==> r[i].Held? && r[i] in q
  {
    if q == [] then []
    else (if q[0].Held? then [q[0]] else []) + HeldEntries(q[1..])
  }

  /** The held entries of a sorted queue are themselves sorted, and their
      packets are the queue's packets. */
  lemma {:induction false} HeldEntriesSorted(q: seq<Entry>)
    requires Sorted(q)
    ensures Sorted(HeldEntries(q))
    ensures |HeldEntries(q)| == |HeldPackets(q)|
    ensures forall i :: 0 <= i < |HeldEntries(q)| ==> HeldEntries(q)[i].packet == HeldPackets(q)[i]
  {
    if q != [] {
      HeldEntriesSorted(q[1..]);
      var t := HeldEntries(q[1..]);
      if q[0].Held? {
        forall j | 0 <= j < |t| ensures Before(q[0], t[j]) {
          var i :| 0 <= i < |q[1..]| && q[1..][i] == t[j];
          assert q[i + 1] == t[j];
        }
      }
    }
  }

  /** Pushing a spacer leaves the packets, and their order, as they were. */
  lemma {:induction false} InsertSpacerKeepsPackets(q: seq<Entry>, s: nat)
    ensures HeldPackets(Insert(q, Spacer(s))) == HeldPackets(q)
    ensures HeldEntries(Insert(q, Spacer(s))) == HeldEntries(q)
  {
    if q != [] && !Before(Spacer(s), q[0]) {
      var t := Insert(q[1..], Spacer(s));
      assert Insert(q, Spacer(s)) == [q[0]] + t;
      InsertSpacerKeepsPackets(q[1..], s);
      assert ([q[0]] + t)[1..] == t;
    } else if q != [] {
      assert ([Spacer(s)] + q)[1..] == q;
    }
  }

  /** Pushing a packet adds exactly one packet. */
  lemma {:induction false} InsertHeldCount(q: seq<Entry>, e: Entry)
    requires e.Held?
    ensures CountHeld(Insert(q, e)) == CountHeld(q) + 1
    ensures multiset(HeldPackets(Insert(q, e))) == multiset(HeldPackets(q)) + multiset{e.packet}
  {
    if q == [] {
    } else if Before(e, q[0]) {
    } else {
      assert Insert(q, e)[1..] == Insert(q[1..], e);
      InsertHeldCount(q[1..], e);
      assert Insert(q, e) == [q[0]] + Insert(q[1..], e);
      HeldPacketsAppend([q[0]], Insert(q[1..], e));
      HeldPacketsAppend([q[0]], q[1..]);
      assert q == [q[0]] + q[1..];
    }
  }

  /** Pushing `m` spacers with sequence numbers from `s` on. */
  function Padded(q: seq<Entry>, s: nat, m: nat): (r: seq<Entry>)
    ensures |r| == |q| + m
    decreases m
  {
    if m == 0 then q else Padded(Insert(q, Spacer(s)), s + 1, m - 1)
  }

  /** Padding with one more spacer pushes it after the others. */
  lemma {:induction false} PaddedLast(q: seq<Entry>, s: nat, m: nat)
    ensures Padded(q, s, m + 1) == Insert(Padded(q, s, m), Spacer(s + m))
    decreases m
  {
    if m > 0 {
      PaddedLast(Insert(q, Spacer(s)), s + 1, m - 1);
    }
  }

  /** How many entries the tank must pop so that a queue of this length fits
      `size`; a negative size is unlimited and pops nothing. */
  function Overflow(len: nat, size: int): (k: nat)
    ensures k <= len
    ensures size >= 0 ==> len - k <= size
    ensures size >= 0 && len >= size ==> len - k == size
    ensures size < 0 || len <= size ==> k == 0
  {
    if size >= 0 && len > size then len - size else 0
  }
}
