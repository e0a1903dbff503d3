/** SeqPacket: gives each packet that has no sequence number yet the
    filter's next number. A packet already numbered (0 or more) keeps its
    number, so a looping packet is not renumbered. */
module SeqPacket {

  import opened Packets

  /** Python 2's `v < 0`: numbers compare by value and `None` is below
      every number, while strings, lists and booleans above zero or equal
      to it are not below zero. */
  predicate BelowZero(v: Value)
  {
    match v
    case Int(i) => i < 0
    case Null => true
    case _ => false
  }

  /** The packet has no number yet: the attribute is missing or below
      zero. */
  predicate NeedsNumber(p: Packet, field: string)
  {
    field !in p.attrs || BelowZero(p.attrs[field])
  }

  /** The packet as it leaves the filter when the next number is `n`. */
  function Numbered(p: Packet, field: string, n: int): (q: Packet)
    ensures NeedsNumber(p, field) ==> q == SetAttr(p, field, Int(n))
    ensures !NeedsNumber(p, field) ==> q == p
  {
    if NeedsNumber(p, field) then SetAttr(p, field, Int(n)) else p
  }

  /** How many packets of `ps` need a number. */
  function CountNeeds(ps: seq<Packet>, field: string): (c: nat)
    ensures c <= |ps|
  {
    if ps == [] then 0
    else CountNeeds(ps[..|ps| - 1], field) + (if NeedsNumber(ps[|ps| - 1], field) then 1 else 0)
  }

  /** The packets `ps` as numbered by a filter whose counter starts at
      `start`. */
  function NumberAll(ps: seq<Packet>, field: string, start: int): (r: seq<Packet>)
    ensures |r| == |ps|
  {
    if ps == [] then []
    else
      var front := ps[..|ps| - 1];
      NumberAll(front, field, start) + [Numbered(ps[|ps| - 1], field, start + CountNeeds(front, field))]
  }

  /** Packet `i` is given the counter's start plus the number of earlier
      packets that needed a number. */
  lemma {:induction false} NumberAllAt(ps: seq<Packet>, field: string, start: int, i: nat)
    requires i < |ps|
    ensures NumberAll(ps, field, start)[i] == Numbered(ps[i], field, start + CountNeeds(ps[..i], field))
    decreases |ps|
  {
    var front := ps[..|ps| - 1];
    if i < |ps| - 1 {
      NumberAllAt(front, field, start, i);
      assert front[..i] == ps[..i];
    } else {
      assert front == ps[..i];
    }
  }

  /** The count of numbered packets never falls as the stream grows. */
  lemma {:induction false} CountNeedsPrefix(ps: seq<Packet>, field: string, i: nat, j: nat)
    requires i <= j <= |ps|
    ensures CountNeeds(ps[..i], field) <= CountNeeds(ps[..j], field)
    ensures i < j && NeedsNumber(ps[i], field) ==> CountNeeds(ps[..i], field) < CountNeeds(ps[..j], field)
    decreases j - i
  {
    if i < j {
      CountNeedsPrefix(ps, field, i + 1, j);
      assert ps[..i + 1][..i] == ps[..i];
    }
  }

  /** The numbers given are consecutive from the start, in arrival order:
      two packets that were given a number never share one, and the later
      one's is larger. */
  lemma NumbersIncrease(ps: seq<Packet>, field: string, start: int, i: nat, j: nat)
    requires i < j < |ps| && NeedsNumber(ps[i], field) && NeedsNumber(ps[j], field)
    ensures var r := NumberAll(ps, field, start);
      field in r[i].attrs && field in r[j].attrs && r[i].attrs[field].Int? && r[j].attrs[field].Int? && r[i].attrs[field].i < r[j].attrs[field].i
  {
    NumberAllAt(ps, field, start, i);
    NumberAllAt(ps, field, start, j);
    CountNeedsPrefix(ps, field, i, j);
  }

  /** One more packet: it is numbered with the count so far. */
  lemma NumberedStep(ps: seq<Packet>, p: Packet, field: string, start: int)
    ensures NumberAll(ps + [p], field, start) == NumberAll(ps, field, start) + [Numbered(p, field, start + CountNeeds(ps, field))]
    ensures CountNeeds(ps + [p], field) == CountNeeds(ps, field) + if NeedsNumber(p, field) then 1 else 0
  {
    assert (ps + [p])[..|ps + [p]| - 1] == ps;
  }

  lemma NumberedSent(ps: seq<Packet>, p: Packet, field: string, start: int)
    ensures SendAll(NumberAll(ps + [p], field, start), Main)
      == SendAll(NumberAll(ps, field, start), Main) + [Emission(Main, DataUnit(Numbered(p, field, start + CountNeeds(ps, field))))]
    ensures CountNeeds(ps + [p], field) == CountNeeds(ps, field) + if NeedsNumber(p, field) then 1 else 0
  {
    NumberedStep(ps, p, field, start);
    SendAllAppend(NumberAll(ps, field, start), [Numbered(p, field, start + CountNeeds(ps, field))], Main);
  }

  class SeqPacket {
    const field: string
    /** The filter attribute named by `seq_packet_field_name`. */
    var counter: int
    var sent: seq<Emission>
    /** The packets received since the counter was last reset, the value
        it was reset to, and where the emissions since then start. */
    ghost var seen: seq<Packet>
    ghost var start: int
    ghost var mark: nat

    ghost predicate Valid()
      reads this
    {
      counter == start + CountNeeds(seen, field) &&
      mark <= |sent| && sent[mark..] == SendAll(NumberAll(seen, field, start), Main)
    }

    /** `init_filter`: the counter starts at 0. */
    constructor (field: string)
      ensures Valid() && this.field == field && counter == 0 && sent == [] && seen == []
    {
      this.field := field;
      counter := 0;
      sent := [];
      seen := [];
      start := 0;
      mark := 0;
    }

    /** `filter_data`: number the packet if it needs one, and send it on. */
    method FilterData(p: Packet)
      requires Valid()
      modifies this
      ensures Valid() && seen == old(seen) + [p]
      ensures sent == old(sent) + [Emission(Main, DataUnit(Numbered(p, field, old(counter))))]
      ensures counter == old(counter) + (if NeedsNumber(p, field) then 1 else 0)
    {
      var out := p;
      if !(field in p.attrs) || BelowZero(p.attrs[field]) {
        out := SetAttr(p, field, Int(counter));
      }
      NumberedSent(seen, p, field, start);
      ghost var before := sent[mark..];
      assert (sent + [Emission(Main, DataUnit(out))])[mark..] == before + [Emission(Main, DataUnit(out))];
      if NeedsNumber(p, field) {
        counter := counter + 1;
      }
      sent := sent + [Emission(Main, DataUnit(out))];
      seen := seen + [p];
    }

    /** `reset_counter`. */
    method ResetCounter(resetTo: int)
      modifies this
      ensures Valid() && counter == resetTo && seen == [] && sent == old(sent)
    {
      counter := resetTo;
      seen := [];
      start := resetTo;
      mark := |sent|;
      assert sent[mark..] == [];
    }

    /** `zero_inputs`: the counter goes back to 0. */
    method ZeroInputs()
      modifies this
      ensures Valid() && counter == 0 && seen == [] && sent == old(sent)
    {
      ResetCounter(0);
    }
  }
}
