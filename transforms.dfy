/** The stock filters whose `filter_data` is one expression over the packet:
    SwapTwoBytes, ReverseString, Wrap, GetBytes, PassNonZero and CountLoops.
    Each returns the emissions of one call (what it sends, on which route),
    or the error the call raises. */
module Transforms {

  import opened Packets
  import opened PySeq

  /** The pairs of an even-length string, each pair swapped, as the
      generator over `data[count:count + 2]` produces them. */
  function SwapPairs(s: string): string
    requires |s| % 2 == 0
  {
    if s == [] then [] else [s[1], s[0]] + SwapPairs(s[2..])
  }

  /** SwapTwoBytes on a string: an odd trailing character is cropped before
      the swap and put back after it. */
  function SwapTwoBytesData(s: string): string
  {
    if |s| % 2 != 0 then SwapPairs(s[..|s| - 1]) + [s[|s| - 1]] else SwapPairs(s)
  }

  /** Every even position takes its right neighbour and every odd position
      its left neighbour. */
  lemma {:induction false} SwapPairsAt(s: string)
    requires |s| % 2 == 0
    ensures |SwapPairs(s)| == |s|
    ensures forall i :: 0 <= i < |s| ==> SwapPairs(s)[i] == if i % 2 == 0 then s[i + 1] else s[i - 1]
  {
    if s != [] {
      SwapPairsAt(s[2..]);
      var r := SwapPairs(s);
      forall i | 2 <= i < |s| ensures r[i] == if i % 2 == 0 then s[i + 1] else s[i - 1] {
        assert r[i] == SwapPairs(s[2..])[i - 2];
      }
    }
  }

  /** SwapTwoBytes keeps the length, swaps each full pair, and leaves an odd
      last character where it was. */
  lemma SwapTwoBytesAt(s: string)
    ensures |SwapTwoBytesData(s)| == |s|
    ensures forall i :: 0 <= i < |s| - |s| % 2 ==>
      SwapTwoBytesData(s)[i] == if i % 2 == 0 then s[i + 1] else s[i - 1]
    ensures |s| % 2 == 1 ==> SwapTwoBytesData(s)[|s| - 1] == s[|s| - 1]
  {
    if |s| % 2 != 0 {
      SwapPairsAt(s[..|s| - 1]);
    } else {
      SwapPairsAt(s);
    }
  }

  /** Swapping twice gives the original data back. */
  lemma SwapTwoBytesTwice(s: string)
    ensures SwapTwoBytesData(SwapTwoBytesData(s)) == s
  {
    var r := SwapTwoBytesData(s);
    SwapTwoBytesAt(s);
    SwapTwoBytesAt(r);
  }

  /** SwapTwoBytes.filter_data: a string payload is swapped and sent on
      main; any other payload raises TypeError. */
  function SwapTwoBytes(p: Packet): (r: Result<seq<Emission>>)
    ensures r.Ok? <==> p.data.Str?
    ensures r.Ok? ==> r.value == [Emission(Main, DataUnit(Clone(p, Str(SwapTwoBytesData(p.data.s)))))]
  {
    match p.data
    case Str(s) => Ok([Emission(Main, DataUnit(Clone(p, Str(SwapTwoBytesData(s)))))])
    case _ => Err(TypeError)
  }

  /** ReverseString.filter_data: `data[::-1]` on a string payload, sent on
      main; TypeError otherwise. */
  function ReverseString(p: Packet): (r: Result<seq<Emission>>)
    ensures r.Ok? <==> p.data.Str?
    ensures r.Ok? ==> |r.value| == 1 && r.value[0].route == Main && r.value[0].unit.DataUnit?
  {
    match p.data
    case Str(s) => Ok([Emission(Main, DataUnit(Clone(p, Str(Down(s, |s| - 1, -1, -1)))))])
    case _ => Err(TypeError)
  }

  /** What ReverseString sends is the packet with its payload reversed, and
      reversing the result again restores the original payload. */
  lemma ReverseStringReverses(p: Packet)
    requires p.data.Str?
    ensures ReverseString(p).Ok?
    ensures ReverseString(p).value[0].unit.packet == Clone(p, Str(Reverse(p.data.s)))
    ensures ReverseString(ReverseString(p).value[0].unit.packet).value[0].unit.packet == p
  {
    var s := p.data.s;
    ReverseSlice(s);
    ReverseSlice(Reverse(s));
    ReverseReverse(s);
  }

  /** Wrap.filter_data: `''.join([prefix, data, suffix])`, sent on main;
      TypeError when the payload is not a string. */
  function Wrap(p: Packet, prefix: string, suffix: string): (r: Result<seq<Emission>>)
    ensures r.Ok? <==> p.data.Str?
    ensures r.Ok? ==> |r.value| == 1 && r.value[0].route == Main && r.value[0].unit.DataUnit?
  {
    match p.data
    case Str(s) => Ok([Emission(Main, DataUnit(Clone(p, Str(Concat([prefix, s, suffix])))))])
    case _ => Err(TypeError)
  }

  /** The wrapped payload starts with the prefix, ends with the suffix, and
      the original payload is what lies between them. */
  lemma WrapUnwrap(p: Packet, prefix: string, suffix: string)
    requires p.data.Str?
    ensures Wrap(p, prefix, suffix).Ok?
    ensures var q := Wrap(p, prefix, suffix).value[0].unit.packet;
      q.attrs == p.attrs && q.data.Str? &&
      |q.data.s| == |prefix| + |p.data.s| + |suffix| &&
      StartsWith(q.data.s, prefix) &&
      q.data.s[|q.data.s| - |suffix|..] == suffix &&
      Slice(q.data.s, |prefix|, |q.data.s| - |suffix|) == p.data.s
  {
    var s := p.data.s;
    assert [prefix, s, suffix][1..] == [s, suffix];
    assert [s, suffix][1..] == [suffix];
    ConcatOne(suffix);
    var w := prefix + s + suffix;
    assert Concat([prefix, s, suffix]) == w;
    assert w[|w| - |suffix|..] == suffix;
    assert w[|prefix|..|w| - |suffix|] == s;
  }

  /** `data[start:start + n]` of a string or list payload; TypeError for
      any other payload. */
  function SliceData(v: Value, start: int, stop: int): (r: Result<Value>)
    ensures r.Ok? <==> (v.Str? || v.List?)
    ensures v.Str? ==> r == Ok(Str(Slice(v.s, start, stop)))
    ensures v.List? ==> r == Ok(List(Slice(v.items, start, stop)))
  {
    match v
    case Str(s) => Ok(Str(Slice(s, start, stop)))
    case List(items) => Ok(List(Slice(items, start, stop)))
    case _ => Err(TypeError)
  }

  /** GetBytes.filter_data: refuses a packet that already has `paramName`,
      otherwise records `data[startByte:startByte + bytesToGet]` under
      `paramName` and sends the packet on main. */
  function GetBytes(p: Packet, startByte: int, bytesToGet: int, paramName: string): (r: Result<seq<Emission>>)
    ensures paramName in p.attrs ==> r == Err(FilterAttributeError)
    ensures r.Ok? <==> paramName !in p.attrs && (p.data.Str? || p.data.List?)
    ensures r.Ok? ==> (
      |r.value| == 1 && r.value[0].route == Main && r.value[0].unit.DataUnit? &&
      var q := r.value[0].unit.packet;
      q.data == p.data && q.attrs.Keys == p.attrs.Keys + {paramName} &&
      (forall k :: k in p.attrs ==> q.attrs[k] == p.attrs[k]) &&
      q.attrs[paramName] == SliceData(p.data, startByte, startByte + bytesToGet).value)
  {
    if paramName in p.attrs then Err(FilterAttributeError)
    else
      match SliceData(p.data, startByte, startByte + bytesToGet)
      case Ok(v) => Ok([Emission(Main, DataUnit(SetAttr(p, paramName, v)))])
      case Err(e) => Err(e)
  }

  /** Inside the payload, GetBytes records exactly `bytesToGet` bytes
      starting at `startByte`. */
  lemma GetBytesInRange(p: Packet, startByte: int, bytesToGet: int, paramName: string)
    requires p.data.Str? && paramName !in p.attrs
    requires 0 <= startByte && 0 <= bytesToGet && startByte + bytesToGet <= |p.data.s|
    ensures GetBytes(p, startByte, bytesToGet, paramName).Ok?
    ensures var v := GetBytes(p, startByte, bytesToGet, paramName).value[0].unit.packet.attrs[paramName];
      v.Str? && |v.s| == bytesToGet &&
      forall i :: 0 <= i < bytesToGet ==> v.s[i] == p.data.s[startByte + i]
  {
  }

  const Zero: char := 0 as char
  const AllOnes: char := 0xFF as char

  /** PassNonZero's test: the payload does not start with `n` 0x00 bytes
      and does not start with `n` 0xFF bytes. */
  predicate PassesNonZero(s: string, n: int)
  {
    !StartsWith(s, Repeat(Zero, n)) && !StartsWith(s, Repeat(AllOnes, n))
  }

  /** PassNonZero.filter_data: the packet is sent on main exactly when it
      passes the test, and dropped otherwise; a payload that is not a string
      has no `startswith` and raises. */
  function PassNonZero(p: Packet, n: int): (r: Result<seq<Emission>>)
    ensures r.Ok? <==> p.data.Str?
    ensures r.Ok? ==> (r.value == [Emission(Main, DataUnit(p))] <==> PassesNonZero(p.data.s, n))
    ensures r.Ok? ==> (r.value == [] <==> !PassesNonZero(p.data.s, n))
  {
    match p.data
    case Str(s) => Ok(if PassesNonZero(s, n) then [Emission(Main, DataUnit(p))] else [])
    case _ => Err(AttributeError("startswith"))
  }

  /** A payload shorter than `n` always passes; a payload is dropped exactly
      when its first n bytes are all 0x00 or all 0xFF; and a count of 0 or
      less drops every packet, since every string starts with ''. */
  lemma PassNonZeroMeaning(s: string, n: int)
    ensures 0 < n && |s| < n ==> PassesNonZero(s, n)
    ensures 0 < n <= |s| ==>
      (!PassesNonZero(s, n) <==> (forall i :: 0 <= i < n ==> s[i] == Zero) || (forall i :: 0 <= i < n ==> s[i] == AllOnes))
    ensures n <= 0 ==> !PassesNonZero(s, n)
  {
    if 0 < n <= |s| {
      if forall i :: 0 <= i < n ==> s[i] == Zero {
        assert s[..n] == Repeat(Zero, n);
      }
      if forall i :: 0 <= i < n ==> s[i] == AllOnes {
        assert s[..n] == Repeat(AllOnes, n);
      }
    }
  }

  /** CountLoops.filter_data: the loop counter field becomes 1 on a packet
      without it and goes up by one otherwise (a boolean counts as 0 or 1);
      a counter that is not a number raises TypeError. */
  function CountLoops(p: Packet, field: string): (r: Result<seq<Emission>>)
    ensures r.Ok? <==> field !in p.attrs || IsNum(p.attrs[field])
    ensures r.Ok? ==> (
      |r.value| == 1 && r.value[0].route == Main && r.value[0].unit.DataUnit? &&
      var q := r.value[0].unit.packet;
      q.data == p.data && q.attrs.Keys == p.attrs.Keys + {field} &&
      q.attrs[field] == Int(if field in p.attrs then Num(p.attrs[field]) + 1 else 1) &&
      forall k :: k in p.attrs && k != field ==> k in q.attrs && q.attrs[k] == p.attrs[k])
  {
    if field !in p.attrs then Ok([Emission(Main, DataUnit(SetAttr(p, field, Int(1))))])
    else if IsNum(p.attrs[field]) then Ok([Emission(Main, DataUnit(SetAttr(p, field, Int(Num(p.attrs[field]) + 1))))])
    else Err(TypeError)
  }

  /** A packet without a counter that passes a CountLoops filter k times
      carries the loop number k. */
  function Loops(p: Packet, field: string, k: nat): (r: Result<Packet>)
    ensures k == 0 ==> r == Ok(p)
  {
    if k == 0 then Ok(p)
    else match Loops(p, field, k - 1)
      case Err(e) => Err(e)
      case Ok(q) =>
        match CountLoops(q, field)
        case Ok(out) => Ok(out[0].unit.packet)
        case Err(e) => Err(e)
  }

  lemma {:induction false} LoopsCount(p: Packet, field: string, k: nat)
    requires field !in p.attrs
    ensures Loops(p, field, k).Ok?
    ensures 0 < k ==> Loops(p, field, k).value.attrs[field] == Int(k)
    ensures Loops(p, field, k).value.data == p.data
  {
    if k > 0 {
      LoopsCount(p, field, k - 1);
    }
  }
}
