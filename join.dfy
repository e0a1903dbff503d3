/** Join: buffers string data until a packet with non-string data arrives,
    then sends one new packet holding the buffered strings joined by
    `join_str`. */
module Join {

  import opened Packets
  import opened PySeq

  /** The data of the packet a join sends for `parts`: every part once, in
      order, with the separator between neighbours and nowhere else. */
  lemma JoinedParts(sep: string, parts: seq<string>, x: string)
    ensures JoinWith(sep, []) == ""
    ensures JoinWith(sep, [x]) == x
    ensures parts != [] ==> JoinWith(sep, parts + [x]) == JoinWith(sep, parts) + sep + x
    ensures |JoinWith(sep, parts)| == |Concat(parts)| + (if parts == [] then 0 else (|parts| - 1) * |sep|)
    ensures sep == "" ==> JoinWith(sep, parts) == Concat(parts)
  {
    if parts != [] {
      JoinWithAppend(sep, parts, x);
    }
    JoinWithLength(sep, parts);
    if sep == "" {
      JoinWithEmpty(parts);
    }
  }

  class Join {
    const joinStr: string
    var parts: seq<string>
    var sent: seq<Emission>

    constructor (joinStr: string)
      ensures this.joinStr == joinStr && parts == [] && sent == []
    {
      this.joinStr := joinStr;
      parts := [];
      sent := [];
    }

    /** `filter_data`: a string is buffered; anything else sends the joined
        buffer as a new packet (possibly empty) and clears the buffer. */
    method FilterData(p: Packet)
      modifies this
      ensures p.data.Str? ==> parts == old(parts) + [p.data.s] && sent == old(sent)
      ensures !p.data.Str? ==> (parts == [] &&
        sent == old(sent) + [Emission(Main, DataUnit(NewPacket(Str(JoinWith(joinStr, old(parts))))))])
    {
      if p.data.Str? {
        parts := parts + [p.data.s];
      } else {
        var out := NewPacket(Str(JoinWith(joinStr, parts)));
        parts := [];
        sent := sent + [Emission(Main, DataUnit(out))];
      }
    }

    /** `flush_buffer`: the buffered strings, if any, go on joined. The
        buffer is left as it is. */
    method FlushBuffer()
      modifies this
      ensures parts == old(parts)
      ensures parts == [] ==> sent == old(sent)
      ensures parts != [] ==> sent == old(sent) + [Emission(Main, DataUnit(NewPacket(Str(JoinWith(joinStr, parts)))))]
    {
      if parts != [] {
        sent := sent + [Emission(Main, DataUnit(NewPacket(Str(JoinWith(joinStr, parts)))))];
      }
    }

    /** `zero_inputs`. */
    method ZeroInputs()
      modifies this
      ensures parts == [] && sent == old(sent)
    {
      parts := [];
    }
  }
}
