/** CollectData: records the data of every passing packet; once the
    collection reaches `collection_size` items it is sent to the branch as
    one list and started afresh. Every packet also goes on to main. */
module CollectData {

  import opened Packets
  import opened PySeq

  /** The number of items in every list sent to the branch: the size, but
      at least one, since the check follows each append. */
  function BatchLength(size: int): (n: nat)
    ensures n >= 1 && n >= size && (size >= 1 ==> n == size)
  {
    if size >= 1 then size else 1
  }

  /** The lists sent followed by the collection are the data received, the
      collection is short of a full list, and every list sent is full. */
  ghost predicate Collected(batches: seq<seq<Value>>, collection: seq<Value>, history: seq<Value>, size: int)
  {
    Concat(batches) + collection == history &&
    |collection| < BatchLength(size) &&
    forall i :: 0 <= i < |batches| ==> |batches[i]| == BatchLength(size)
  }

  /** Appending one item either completes a list, which moves to the
      batches, or grows the collection; either way nothing is lost. */
  lemma CollectStep(batches: seq<seq<Value>>, collection: seq<Value>, history: seq<Value>, x: Value, size: int)
    requires Collected(batches, collection, history, size)
    ensures var c := collection + [x];
      if |c| >= size then Collected(batches + [c], [], history + [x], size)
      else Collected(batches, c, history + [x], size)
  {
    var c := collection + [x];
    if |c| >= size {
      ConcatAppend(batches, [c]);
      ConcatOne(c);
      assert |c| == BatchLength(size);
    }
  }

  class CollectData {
    const collectionSize: int
    var dataCollection: seq<Value>
    var sent: seq<Emission>
    /** Every data value received, and each list sent to the branch. */
    ghost var history: seq<Value>
    ghost var batches: seq<seq<Value>>

    ghost predicate Valid()
      reads this
    {
      Collected(batches, dataCollection, history, collectionSize)
    }

    constructor (collectionSize: int)
      ensures Valid() && this.collectionSize == collectionSize
      ensures dataCollection == [] && history == [] && batches == [] && sent == []
    {
      this.collectionSize := collectionSize;
      dataCollection := [];
      sent := [];
      history := [];
      batches := [];
    }

    /** `filter_data`: nothing received is lost or duplicated: the lists
        sent so far followed by the current collection are exactly the data
        received, and every list sent has the same length. */
    method FilterData(p: Packet)
      requires Valid()
      modifies this
      ensures Valid() && history == old(history) + [p.data]
      ensures var c := old(dataCollection) + [p.data];
        if |c| >= collectionSize then
          dataCollection == [] && batches == old(batches) + [c] &&
          sent == old(sent) + [Emission(Branch, DataUnit(Clone(p, List(c)))), Emission(Main, DataUnit(p))]
        else
          dataCollection == c && batches == old(batches) &&
          sent == old(sent) + [Emission(Main, DataUnit(p))]
    {
      var c := dataCollection + [p.data];
      CollectStep(batches, dataCollection, history, p.data, collectionSize);
      history := history + [p.data];
      if |c| >= collectionSize {
        sent := sent + [Emission(Branch, DataUnit(Clone(p, List(c)))), Emission(Main, DataUnit(p))];
        batches := batches + [c];
        dataCollection := [];
      } else {
        dataCollection := c;
        sent := sent + [Emission(Main, DataUnit(p))];
      }
    }

    /** `zero_inputs`: the collection starts afresh. */
    method ZeroInputs()
      modifies this
      ensures dataCollection == [] && sent == old(sent)
      ensures history == [] && batches == [] && Valid()
    {
      dataCollection := [];
      history := [];
      batches := [];
    }
  }
}
