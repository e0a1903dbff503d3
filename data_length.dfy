/** DataLength: measures the stream passing through, both in full and up
    to the last character that is not the padding character `not_data`,
    and reports both in a message bottle when it closes. */
module DataLength {

  import opened Packets
  import opened PySeq

  /** The data length of a stream: its length once trailing padding is
      stripped. Feeding the stream in pieces gives the same answer as
      measuring it whole. */
  lemma {:induction false} PaddedLengthStep(stream: string, d: string, pad: char)
    ensures |RStrip(stream + d, pad)| == if RStrip(d, pad) != [] then |stream| + |RStrip(d, pad)| else |RStrip(stream, pad)|
  {
    RStripAppend(stream, d, pad);
  }

  class DataLength {
    const notData: char
    const msgDestin: string
    var bytesSeen: int
    var dataLastSeen: int
    var sent: seq<Emission>
    /** The string data received. */
    ghost var stream: string

    ghost predicate Valid()
      reads this
    {
      bytesSeen == |stream| && dataLastSeen == |RStrip(stream, notData)|
    }

    /** `init_filter`: `not_data` is given as a character code. */
    constructor (notData: int, msgDestin: string)
      requires 0 <= notData < 256
      ensures Valid() && stream == [] && sent == []
      ensures this.notData == notData as char && this.msgDestin == msgDestin
    {
      this.notData := notData as char;
      this.msgDestin := msgDestin;
      bytesSeen := 0;
      dataLastSeen := 0;
      sent := [];
      stream := [];
    }

    /** `filter_data`: the position just past the last real data, and the
        number of characters seen. Data that is not a string has no
        `rstrip`. */
    method FilterData(p: Packet) returns (err: Option<FilterError>)
      requires Valid()
      modifies this
      ensures Valid()
      ensures !p.data.Str? ==> err == Some(AttributeError("rstrip")) && stream == old(stream) && sent == old(sent)
      ensures p.data.Str? ==> (err == None && stream == old(stream) + p.data.s &&
        sent == old(sent) + [Emission(Main, DataUnit(p))])
    {
      if !p.data.Str? {
        return Some(AttributeError("rstrip"));
      }
      var d := p.data.s;
      var dataOnly := RStrip(d, notData);
      PaddedLengthStep(stream, d, notData);
      if dataOnly != [] {
        dataLastSeen := bytesSeen + |dataOnly|;
      }
      bytesSeen := bytesSeen + |d|;
      stream := stream + d;
      sent := sent + [Emission(Main, DataUnit(p))];
      return None;
    }

    /** `close_filter`: a bottle for `msg_destin` with both lengths. */
    method CloseFilter()
      requires Valid()
      modifies this
      ensures Valid() && stream == old(stream) && bytesSeen == old(bytesSeen) && dataLastSeen == old(dataLastSeen)
      ensures sent == old(sent) + [Emission(Main, BottleUnit(Bottle(msgDestin, Some("total_data_length"),
        map["total_data_length" := Int(|RStrip(old(stream), notData)|), "bytes_seen" := Int(|old(stream)|)])))]
    {
      var b := Bottle(msgDestin, Some("total_data_length"),
        map["total_data_length" := Int(dataLastSeen), "bytes_seen" := Int(bytesSeen)]);
      sent := sent + [Emission(Main, BottleUnit(b))];
    }
  }
}
