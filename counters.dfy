/** CountBytes and CountPackets: filters that count what passes them,
    without touching the packets. */
module Counters {

  import opened Packets

  /** The sum of `xs`. */
  function Sum(xs: seq<nat>): nat
  {
    if xs == [] then 0 else Sum(xs[..|xs| - 1]) + xs[|xs| - 1]
  }

  /** The sum over a stream split in two is the sum of the parts. */
  lemma {:induction false} SumAppend(xs: seq<nat>, ys: seq<nat>)
    ensures Sum(xs + ys) == Sum(xs) + Sum(ys)
    decreases |ys|
  {
    if ys != [] {
      var front := ys[..|ys| - 1];
      SumAppend(xs, front);
      assert (xs + ys)[..|xs + ys| - 1] == xs + front;
    } else {
      assert xs + ys == xs;
    }
  }

  class CountBytes {
    /** `counted_bytes`, under the name the filter is given. */
    var countedBytes: int
    var countedPackets: int
    var sent: seq<Emission>
    /** The lengths of the packets counted since the last reset. */
    ghost var lengths: seq<nat>

    ghost predicate Valid()
      reads this
    {
      countedBytes == Sum(lengths) && countedPackets == |lengths|
    }

    constructor ()
      ensures Valid() && lengths == [] && sent == []
    {
      countedBytes := 0;
      countedPackets := 0;
      lengths := [];
      sent := [];
    }

    /** `filter_data`: add the packet's data length to the byte count and
        one to the packet count; data without a length is a type error. */
    method FilterData(p: Packet) returns (err: Option<FilterError>)
      requires Valid()
      modifies this
      ensures Valid()
      ensures DataLength(p.data).Err? ==> err == Some(TypeError) && lengths == old(lengths) && sent == old(sent)
      ensures DataLength(p.data).Ok? ==> (err == None && lengths == old(lengths) + [DataLength(p.data).value] &&
        sent == old(sent) + [Emission(Main, DataUnit(p))])
    {
      var n := DataLength(p.data);
      if n.Err? {
        return Some(TypeError);
      }
      assert (lengths + [n.value])[..|lengths|] == lengths;
      countedBytes := countedBytes + n.value;
      countedPackets := countedPackets + 1;
      lengths := lengths + [n.value];
      sent := sent + [Emission(Main, DataUnit(p))];
      return None;
    }

    /** `zero_inputs`: both counts back to 0. */
    method ZeroInputs()
      modifies this
      ensures Valid() && countedBytes == 0 && countedPackets == 0 && sent == old(sent)
    {
      countedBytes := 0;
      countedPackets := 0;
      lengths := [];
    }
  }

  class CountPackets {
    /** `counted_packets`, under the name the filter is given. */
    var countedPackets: int
    var sent: seq<Emission>

    constructor ()
      ensures countedPackets == 0 && sent == []
    {
      countedPackets := 0;
      sent := [];
    }

    /** `filter_data`: one more packet counted and passed on. */
    method FilterData(p: Packet)
      modifies this
      ensures countedPackets == old(countedPackets) + 1
      ensures sent == old(sent) + [Emission(Main, DataUnit(p))]
    {
      countedPackets := countedPackets + 1;
      sent := sent + [Emission(Main, DataUnit(p))];
    }

    method ZeroInputs()
      modifies this
      ensures countedPackets == 0 && sent == old(sent)
    {
      countedPackets := 0;
    }
  }
}
