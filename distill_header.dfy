/** DistillHeader: strips `header_size` characters off the front of the
    data and sends them to the branch, the rest to main. In mode "once" only
    the first header of the stream is taken (input is buffered until there
    is enough of it) and later packets pass straight through; in any other
    mode every packet is split. */
module DistillHeader {

  import opened Packets
  import opened PySeq

  /** The string data of the packets sent on `route`, in order. */
  function StrsOn(out: seq<Emission>, route: Route): (r: seq<string>)
    ensures |r| <= |out|
  {
    if out == [] then []
    else
      var e := out[0];
      (if e.route == route && e.unit.DataUnit? && e.unit.packet.data.Str? then [e.unit.packet.data.s] else [])
      + StrsOn(out[1..], route)
  }

  lemma {:induction false} StrsOnAppend(a: seq<Emission>, b: seq<Emission>, route: Route)
    ensures StrsOn(a + b, route) == StrsOn(a, route) + StrsOn(b, route)
    decreases |a|
  {
    if a != [] {
      StrsOnAppend(a[1..], b, route);
      assert (a + b)[1..] == a[1..] + b;
    } else {
      assert a + b == b;
    }
  }

  /** Adding data after the first `h` characters does not change them. */
  lemma TakeExtend(a: string, b: string, h: int)
    requires 0 <= h <= |a|
    ensures Take(a + b, h) == Take(a, h)
  {
    assert (a + b)[..h] == a[..h];
  }

  /** What a once-mode header split adds to an empty output: one header
      on the branch, the remainder on main, together the whole input. */
  lemma HeaderOutputs(before: seq<Emission>, p: Packet, all: string, h: int, keepHeaderKey: Option<string>)
    requires StrsOn(before, Branch) == [] && StrsOn(before, Main) == []
    ensures var out := Distilled(p, all, h, keepHeaderKey);
      var hs := StrsOn(before + out, Branch);
      |hs| == 1 && hs[0] + Concat(StrsOn(before + out, Main)) == all && (0 <= h ==> hs[0] == Take(all, h))
  {
    var out := Distilled(p, all, h, keepHeaderKey);
    var header, remainder := Take(all, h), Drop(all, h);
    StrsOnAppend(before, out, Main);
    StrsOnAppend(before, out, Branch);
    if remainder != "" {
      assert out == [out[0], out[1]];
      assert StrsOn(out, Branch) == [header];
      assert StrsOn(out, Main) == [remainder];
      ConcatOne(remainder);
    } else {
      assert out == [out[0]];
      assert StrsOn(out, Branch) == [header];
      assert StrsOn(out, Main) == [];
    }
  }

  /** The packet sent on main with the remainder: a clone of the input,
      carrying the header under `keep_header_key` when one is given. */
  function RemainderPacket(p: Packet, remainder: string, header: string, keepHeaderKey: Option<string>): (q: Packet)
    ensures q.data == Str(remainder)
    ensures keepHeaderKey.None? ==> q.attrs == p.attrs
    ensures keepHeaderKey.Some? ==> q.attrs == p.attrs[keepHeaderKey.value := Str(header)]
  {
    var c := Clone(p, Str(remainder));
    if keepHeaderKey.Some? then SetAttr(c, keepHeaderKey.value, Str(header)) else c
  }

  /** What one header split of `all` sends: the header to the branch, then
      the remainder, when there is one, to main. */
  function Distilled(p: Packet, all: string, h: int, keepHeaderKey: Option<string>): (out: seq<Emission>)
    ensures Take(all, h) + Drop(all, h) == all
    ensures |out| >= 1 && out[0] == Emission(Branch, DataUnit(Clone(p, Str(Take(all, h)))))
    ensures Drop(all, h) == "" ==> |out| == 1
    ensures Drop(all, h) != "" ==> (|out| == 2 &&
      out[1] == Emission(Main, DataUnit(RemainderPacket(p, Drop(all, h), Take(all, h), keepHeaderKey))))
  {
    TakeDrop(all, h);
    var header, remainder := Take(all, h), Drop(all, h);
    [Emission(Branch, DataUnit(Clone(p, Str(header))))] +
    (if remainder != "" then [Emission(Main, DataUnit(RemainderPacket(p, remainder, header, keepHeaderKey)))] else [])
  }

  class DistillHeader {
    const headerSize: int
    /** `distill_mode == 'once'`. */
    const once: bool
    /** `keep_header_key`, when it is among the filter's attributes. */
    const keepHeaderKey: Option<string>
    var inputs: seq<string>
    var inputCharCount: int
    var headersDone: bool
    var sent: seq<Emission>
    /** The string data received since the last reset, and where the
        emissions since then start. */
    ghost var stream: string
    ghost var mark: nat

    ghost predicate Valid()
      reads this
    {
      inputCharCount == |Concat(inputs)| && mark <= |sent| &&
      (!once ==> !headersDone && inputs == []) &&
      (once && !headersDone ==>
         Concat(inputs) == stream && (stream == [] || |stream| < headerSize) &&
         StrsOn(sent[mark..], Branch) == [] && StrsOn(sent[mark..], Main) == []) &&
      (once && headersDone ==>
         inputs == [] && headerSize <= |stream| &&
         var hs := StrsOn(sent[mark..], Branch);
         |hs| == 1 && hs[0] + Concat(StrsOn(sent[mark..], Main)) == stream &&
         (0 <= headerSize ==> hs[0] == Take(stream, headerSize)))
    }

    constructor (headerSize: int, once: bool, keepHeaderKey: Option<string>)
      ensures Valid() && sent == [] && stream == [] && !headersDone
      ensures this.headerSize == headerSize && this.once == once && this.keepHeaderKey == keepHeaderKey
    {
      this.headerSize := headerSize;
      this.once := once;
      this.keepHeaderKey := keepHeaderKey;
      inputs := [];
      inputCharCount := 0;
      headersDone := false;
      sent := [];
      stream := [];
      mark := 0;
    }

    /** `filter_data`. */
    method FilterData(p: Packet) returns (err: Option<FilterError>)
      requires Valid()
      modifies this
      ensures Valid()
      ensures old(headersDone) ==> (err == None && inputs == old(inputs) && headersDone &&
        sent == old(sent) + [Emission(Main, DataUnit(p))])
      ensures !old(headersDone) && !p.data.Str? ==> err == Some(TypeError) && sent == old(sent) && inputs == old(inputs)
      ensures !old(headersDone) && p.data.Str? ==> (err == None &&
        var all := Concat(old(inputs)) + p.data.s;
        if once && |all| < headerSize then
          inputs == old(inputs) + [p.data.s] && sent == old(sent) && !headersDone
        else
          inputs == [] && headersDone == once &&
          sent == old(sent) + Distilled(p, all, headerSize, keepHeaderKey))
    {
      if headersDone {
        PassThrough(p);
        return None;
      }
      if !p.data.Str? {
        return Some(TypeError);
      }
      var d := p.data.s;
      ConcatAppend(inputs, [d]);
      ConcatOne(d);
      inputs := inputs + [d];
      inputCharCount := inputCharCount + |d|;
      if once {
        stream := stream + d;
        if inputCharCount < headerSize {
          return None;
        }
      }
      EmitHeader(p);
      return None;
    }

    /** After the header: the packet goes straight on to main. */
    method PassThrough(p: Packet)
      requires Valid() && headersDone
      modifies this
      ensures Valid() && inputs == old(inputs) && headersDone
      ensures sent == old(sent) + [Emission(Main, DataUnit(p))]
    {
      var e := Emission(Main, DataUnit(p));
      ghost var hs, ms := StrsOn(sent[mark..], Branch), StrsOn(sent[mark..], Main);
      StrsOnAppend(sent[mark..], [e], Main);
      StrsOnAppend(sent[mark..], [e], Branch);
      assert (sent + [e])[mark..] == sent[mark..] + [e];
      assert StrsOn([e], Branch) == [];
      sent := sent + [e];
      assert StrsOn(sent[mark..], Branch) == hs;
      if p.data.Str? {
        var d := p.data.s;
        assert StrsOn([e], Main) == [d];
        assert StrsOn(sent[mark..], Main) == ms + [d];
        ConcatAppend(ms, [d]);
        ConcatOne(d);
        assert hs[0] + Concat(ms + [d]) == (hs[0] + Concat(ms)) + d;
        if 0 <= headerSize {
          TakeExtend(stream, d, headerSize);
        }
        stream := stream + d;
      } else {
        assert StrsOn([e], Main) == [];
        assert StrsOn(sent[mark..], Main) == ms;
      }
    }

    /** The buffered input is split into the header, sent to the branch,
        and the remainder, sent to main unless it is empty. */
    method EmitHeader(p: Packet)
      requires inputCharCount == |Concat(inputs)| && mark <= |sent| && !headersDone
      requires !once ==> |inputs| == 1
      requires once ==> (Concat(inputs) == stream && headerSize <= |stream| &&
        StrsOn(sent[mark..], Branch) == [] && StrsOn(sent[mark..], Main) == [])
      modifies this
      ensures Valid() && inputs == [] && headersDone == once && stream == old(stream)
      ensures sent == old(sent) + Distilled(p, Concat(old(inputs)), headerSize, keepHeaderKey)
    {
      var all := Concat(inputs);
      inputs := [];
      inputCharCount := 0;
      var out := Distilled(p, all, headerSize, keepHeaderKey);
      if once {
        headersDone := true;
        HeaderOutputs(sent[mark..], p, all, headerSize, keepHeaderKey);
        assert (sent + out)[mark..] == sent[mark..] + out;
      }
      sent := sent + out;
    }

    /** `zero_inputs`: back to waiting for a header. */
    method ZeroInputs()
      requires Valid()
      modifies this
      ensures Valid() && inputs == [] && !headersDone && sent == old(sent) && stream == []
    {
      inputs := [];
      inputCharCount := 0;
      headersDone := false;
      stream := [];
      mark := |sent|;
      assert sent[mark..] == [];
    }
  }
}
