/** Peek: holds each packet back until the next one arrives, then sends it
    on with a `peek` attribute holding the first `peek_ahead` items of the
    next packet's data. At close the last packet goes on with an empty
    `peek`. */
module Peek {

  import opened Packets
  import opened PySeq

  /** Data that can be sliced: a string or a list. */
  predicate Sliceable(v: Value)
  {
    v.Str? || v.List?
  }

  /** `data[:n]`. */
  function PeekValue(v: Value, n: int): (r: Result<Value>)
    ensures r.Ok? <==> Sliceable(v)
    ensures v.Str? ==> r == Ok(Str(Take(v.s, n)))
    ensures v.List? ==> r == Ok(List(Take(v.items, n)))
    ensures r.Err? ==> r.error == TypeError
  {
    match v
    case Str(s) => Ok(Str(Take(s, n)))
    case List(items) => Ok(List(Take(items, n)))
    case _ => Err(TypeError)
  }

  /** The peek a packet is given at `v`; only data that can be sliced is
      ever accepted, so the fallback is never sent. */
  function PeekOf(v: Value, n: int): (r: Value)
    ensures Sliceable(v) ==> r == PeekValue(v, n).value
  {
    match PeekValue(v, n)
    case Ok(x) => x
    case Err(_) => Null
  }

  /** Every packet of `seen` but the last, each carrying a peek at its
      successor. */
  function Peeked(seen: seq<Packet>, n: int): seq<Packet>
    decreases |seen|
  {
    if |seen| <= 1 then []
    else [SetAttr(seen[0], "peek", PeekOf(seen[1].data, n))] + Peeked(seen[1..], n)
  }

  /** Everything sent once the stream has been closed. */
  function PeekAll(seen: seq<Packet>, n: int): seq<Packet>
  {
    if seen == [] then [] else Peeked(seen, n) + [SetAttr(seen[|seen| - 1], "peek", Str(""))]
  }

  /** Each packet but the last is sent with a peek at its successor. */
  lemma {:induction false} PeekedAt(seen: seq<Packet>, n: int)
    ensures |Peeked(seen, n)| == if |seen| <= 1 then 0 else |seen| - 1
    ensures forall i :: 0 <= i < |seen| - 1 ==>
      Peeked(seen, n)[i] == SetAttr(seen[i], "peek", PeekOf(seen[i + 1].data, n))
    decreases |seen|
  {
    if |seen| > 1 {
      var r := Peeked(seen, n);
      PeekedAt(seen[1..], n);
      forall i | 0 <= i < |seen| - 1
        ensures r[i] == SetAttr(seen[i], "peek", PeekOf(seen[i + 1].data, n))
      {
        if i > 0 {
          assert r[i] == Peeked(seen[1..], n)[i - 1];
          assert seen[1..][i - 1] == seen[i] && seen[1..][i] == seen[i + 1];
        }
      }
    }
  }

  /** A closed peek sends every packet once, in order, with its data and
      other attributes untouched; each carries the start of the next
      packet's data, and the last an empty peek. */
  lemma PeekAllKeepsPackets(seen: seq<Packet>, n: int)
    requires forall i :: 0 <= i < |seen| ==> Sliceable(seen[i].data)
    ensures var out := PeekAll(seen, n);
      |out| == |seen| &&
      (forall i :: 0 <= i < |seen| ==>
        out[i].data == seen[i].data && out[i].attrs.Keys == seen[i].attrs.Keys + {"peek"} &&
        (forall k :: k in seen[i].attrs && k != "peek" ==> out[i].attrs[k] == seen[i].attrs[k])) &&
      (forall i :: 0 <= i < |seen| - 1 ==> out[i].attrs["peek"] == PeekValue(seen[i + 1].data, n).value) &&
      (seen != [] ==> out[|seen| - 1].attrs["peek"] == Str(""))
  {
    var out := PeekAll(seen, n);
    PeekedAt(seen, n);
    forall i | 0 <= i < |seen|
      ensures out[i].data == seen[i].data && out[i].attrs.Keys == seen[i].attrs.Keys + {"peek"}
      ensures forall k :: k in seen[i].attrs && k != "peek" ==> out[i].attrs[k] == seen[i].attrs[k]
      ensures i < |seen| - 1 ==> out[i].attrs["peek"] == PeekValue(seen[i + 1].data, n).value
      ensures i == |seen| - 1 ==> out[i].attrs["peek"] == Str("")
    {
      var v := if i < |seen| - 1 then PeekOf(seen[i + 1].data, n) else Str("");
      if i < |seen| - 1 {
        assert out[i] == Peeked(seen, n)[i];
      }
      assert out[i] == SetAttr(seen[i], "peek", v);
      SetAttrKeeps(seen[i], "peek", v);
    }
  }

  /** One more packet adds exactly one peeked packet: its predecessor. */
  lemma {:induction false} PeekedStep(seen: seq<Packet>, p: Packet, n: int)
    requires seen != []
    ensures Peeked(seen + [p], n) == Peeked(seen, n) + [SetAttr(seen[|seen| - 1], "peek", PeekOf(p.data, n))]
    decreases |seen|
  {
    var s := seen + [p];
    if |seen| == 1 {
      assert s[1..] == [p];
    } else {
      assert s[1..] == seen[1..] + [p];
      PeekedStep(seen[1..], p, n);
    }
  }

  /** The trace since `mark`, extended by the released packet, is the
      trace of the longer stream. */
  lemma PeekSentStep(sent: seq<Emission>, mark: nat, seen: seq<Packet>, p: Packet, n: int)
    requires seen != []
    requires mark <= |sent| && sent[mark..] == SendAll(Peeked(seen, n), Main)
    ensures (sent + [Emission(Main, DataUnit(SetAttr(seen[|seen| - 1], "peek", PeekOf(p.data, n))))])[mark..]
         == SendAll(Peeked(seen + [p], n), Main)
  {
    var out := SetAttr(seen[|seen| - 1], "peek", PeekOf(p.data, n));
    PeekedStep(seen, p, n);
    SendAllAppend(Peeked(seen, n), [out], Main);
    assert SendAll([out], Main) == [Emission(Main, DataUnit(out))];
    assert (sent + [Emission(Main, DataUnit(out))])[mark..] == sent[mark..] + [Emission(Main, DataUnit(out))];
  }

  /** Closing adds the last packet, with an empty peek, to the trace. */
  lemma PeekClosed(sent: seq<Emission>, mark: nat, seen: seq<Packet>, n: int)
    requires seen != []
    requires mark <= |sent| && sent[mark..] == SendAll(Peeked(seen, n), Main)
    ensures (sent + [Emission(Main, DataUnit(SetAttr(seen[|seen| - 1], "peek", Str(""))))])[mark..]
         == SendAll(PeekAll(seen, n), Main)
  {
    var out := SetAttr(seen[|seen| - 1], "peek", Str(""));
    SendAllAppend(Peeked(seen, n), [out], Main);
    assert SendAll([out], Main) == [Emission(Main, DataUnit(out))];
    assert (sent + [Emission(Main, DataUnit(out))])[mark..] == sent[mark..] + [Emission(Main, DataUnit(out))];
  }

  class Peek {
    const peekAhead: int
    var prevPacket: Option<Packet>
    var packetIn: Option<Packet>
    var sent: seq<Emission>
    /** The packets accepted since the last reset, and where the emissions
        since then start. */
    ghost var seen: seq<Packet>
    ghost var mark: nat

    ghost predicate Valid()
      reads this
    {
      (seen == [] <==> prevPacket.None?) &&
      (seen != [] ==> prevPacket == Some(seen[|seen| - 1])) &&
      mark <= |sent| && sent[mark..] == SendAll(Peeked(seen, peekAhead), Main)
    }

    constructor (peekAhead: int)
      ensures Valid() && this.peekAhead == peekAhead && seen == [] && sent == [] && packetIn == None
    {
      this.peekAhead := peekAhead;
      prevPacket := None;
      packetIn := None;
      sent := [];
      seen := [];
      mark := 0;
    }

    /** `filter_data`: the held packet goes on carrying a peek at this
        one's data, and this one is held in its place. */
    method FilterData(p: Packet) returns (err: Option<FilterError>)
      requires Valid()
      modifies this
      ensures Valid() && packetIn == Some(p)
      ensures !Sliceable(p.data) ==> err == Some(TypeError) && sent == old(sent) && seen == old(seen)
      ensures Sliceable(p.data) ==> (err == None && seen == old(seen) + [p] && prevPacket == Some(p) &&
        sent == old(sent) + (if old(prevPacket).Some?
          then [Emission(Main, DataUnit(SetAttr(old(prevPacket).value, "peek", PeekValue(p.data, peekAhead).value)))]
          else []))
    {
      packetIn := Some(p);
      var peeked := PeekValue(p.data, peekAhead);
      if peeked.Err? {
        return Some(TypeError);
      }
      if prevPacket.Some? {
        var out := SetAttr(prevPacket.value, "peek", peeked.value);
        PeekSentStep(sent, mark, seen, p, peekAhead);
        sent := sent + [Emission(Main, DataUnit(out))];
      } else {
        assert Peeked(seen + [p], peekAhead) == [];
      }
      prevPacket := Some(p);
      seen := seen + [p];
      return None;
    }

    /** `close_filter`: the last packet goes on with an empty peek; with no
        packet received, setting the attribute fails. */
    method CloseFilter() returns (err: Option<FilterError>)
      requires Valid()
      modifies this
      ensures seen == old(seen) && mark == old(mark)
      ensures packetIn == old(packetIn) && prevPacket == old(prevPacket)
      ensures old(packetIn).None? ==> err == Some(AttributeError("peek")) && sent == old(sent)
      ensures old(packetIn).Some? ==> (err == None &&
        sent == old(sent) + [Emission(Main, DataUnit(SetAttr(old(packetIn).value, "peek", Str(""))))])
      ensures packetIn == prevPacket ==> sent[mark..] == SendAll(PeekAll(seen, peekAhead), Main)
    {
      if packetIn.None? {
        if prevPacket.None? {
          assert PeekAll(seen, peekAhead) == [] == Peeked(seen, peekAhead);
        }
        return Some(AttributeError("peek"));
      }
      var out := SetAttr(packetIn.value, "peek", Str(""));
      if packetIn == prevPacket {
        PeekClosed(sent, mark, seen, peekAhead);
      }
      sent := sent + [Emission(Main, DataUnit(out))];
      return None;
    }

    /** `zero_inputs`: nothing held. */
    method ZeroInputs()
      modifies this
      ensures Valid() && prevPacket == None && packetIn == None && seen == [] && sent == old(sent)
    {
      prevPacket := None;
      packetIn := None;
      seen := [];
      mark := |sent|;
      assert sent[mark..] == [];
    }
  }
}
