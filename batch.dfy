/** Batch: cuts a stream of strings of any lengths into blocks of exactly
    `size` characters. Input is buffered until at least one block is
    available; whole blocks go on to `fork_dest`, and the remainder stays
    buffered. At the end the remainder, if any, goes on as a final short
    packet. */
module Batch {

  import opened Packets
  import opened PySeq

  /** The whole blocks of `size` characters at the front of `s`. */
  function Blocks(s: string, size: int): (r: seq<string>)
    requires size > 0
    ensures forall i :: 0 <= i < |r| ==> |r[i]| == size
    decreases |s|
  {
    if |s| < size then [] else [s[..size]] + Blocks(s[size..], size)
  }

  /** What is left of `s` after its whole blocks. */
  function Rem(s: string, size: int): (r: string)
    requires size > 0
    ensures |r| < size && |r| <= |s|
    decreases |s|
  {
    if |s| < size then s else Rem(s[size..], size)
  }

  /** The blocks and the remainder are the input, cut up. */
  lemma {:induction false} BlocksRem(s: string, size: int)
    requires size > 0
    ensures Concat(Blocks(s, size)) + Rem(s, size) == s
    decreases |s|
  {
    if |s| >= size {
      var head, tail := s[..size], s[size..];
      BlocksRem(tail, size);
      assert Blocks(s, size) == [head] + Blocks(tail, size);
      ConcatAppend([head], Blocks(tail, size));
      ConcatOne(head);
      assert Concat(Blocks(s, size)) == head + Concat(Blocks(tail, size));
      assert Rem(s, size) == Rem(tail, size);
      assert s == head + tail;
    }
  }

  /** Batching `s + t` in one go gives the blocks of `s`, then the blocks
      of what `s` left over followed by `t`: the cut does not depend on how
      the stream was split into packets. */
  lemma {:induction false} BlocksAppend(s: string, t: string, size: int)
    requires size > 0
    ensures Blocks(s + t, size) == Blocks(s, size) + Blocks(Rem(s, size) + t, size)
    ensures Rem(s + t, size) == Rem(Rem(s, size) + t, size)
    decreases |s|
  {
    if |s| >= size {
      var head, tail := s[..size], s[size..];
      BlocksAppend(tail, t, size);
      var a, b := Blocks(tail, size), Blocks(Rem(tail, size) + t, size);
      assert (s + t)[..size] == head;
      assert (s + t)[size..] == tail + t;
      calc {
        Blocks(s + t, size);
        [head] + Blocks(tail + t, size);
        [head] + (a + b);
        { assert [head] + (a + b) == ([head] + a) + b; }
        ([head] + a) + b;
        Blocks(s, size) + b;
      }
      assert Rem(s, size) == Rem(tail, size);
    } else {
      assert Rem(s, size) == s && Blocks(s, size) == [];
      assert [] + Blocks(s + t, size) == Blocks(s + t, size);
    }
  }

  /** The packets sent for `blocks`, each a clone of `p` carrying one
      block. */
  function Clones(p: Packet, blocks: seq<string>): (r: seq<Packet>)
    ensures |r| == |blocks|
  {
    seq(|blocks|, i requires 0 <= i < |blocks| => Clone(p, Str(blocks[i])))
  }

  lemma ClonesAppend(p: Packet, blocks: seq<string>, b: string)
    ensures Clones(p, blocks + [b]) == Clones(p, blocks) + [Clone(p, Str(b))]
  {
  }

  /** One block cut from position `i` of `s`. */
  lemma BlocksStep(s: string, i: nat, size: int)
    requires size > 0 && i + size <= |s|
    ensures Blocks(s[i..], size) == [s[i..i + size]] + Blocks(s[i + size..], size)
    ensures Rem(s[i..], size) == Rem(s[i + size..], size)
  {
    assert s[i..][..size] == s[i..i + size];
    assert s[i..][size..] == s[i + size..];
  }

  /** Feeding `chunks` one packet at a time, starting with `pending`
      buffered: every block sent, and what is left buffered. */
  function FeedAll(pending: string, chunks: seq<string>, size: int): (seq<string>, string)
    requires size > 0
    decreases |chunks|
  {
    if chunks == [] then ([], pending)
    else
      var all := pending + chunks[0];
      var rest := FeedAll(Rem(all, size), chunks[1..], size);
      (Blocks(all, size) + rest.0, rest.1)
  }

  /** Packet by packet, Batch sends exactly the blocks of the whole stream
      and keeps exactly its remainder. */
  lemma {:induction false} FeedAllIsBatching(pending: string, chunks: seq<string>, size: int)
    requires size > 0 && |pending| < size
    ensures FeedAll(pending, chunks, size) == (Blocks(pending + Concat(chunks), size), Rem(pending + Concat(chunks), size))
    decreases |chunks|
  {
    if chunks == [] {
      assert pending + Concat(chunks) == pending;
    } else {
      var all := pending + chunks[0];
      var rest := Concat(chunks[1..]);
      FeedAllIsBatching(Rem(all, size), chunks[1..], size);
      BlocksAppend(all, rest, size);
      assert chunks == [chunks[0]] + chunks[1..];
      ConcatAppend([chunks[0]], chunks[1..]);
      ConcatOne(chunks[0]);
      assert Concat(chunks) == chunks[0] + rest;
      assert pending + Concat(chunks) == all + rest;
    }
  }

  /** What is sent and kept over a whole stream, flushed at the end, is the
      stream itself, in order. */
  lemma BatchConserves(chunks: seq<string>, size: int)
    requires size > 0
    ensures var (blocks, left) := FeedAll("", chunks, size);
      Concat(blocks) + left == Concat(chunks) &&
      (forall i :: 0 <= i < |blocks| ==> |blocks[i]| == size) && |left| < size
  {
    FeedAllIsBatching("", chunks, size);
    assert "" + Concat(chunks) == Concat(chunks);
    BlocksRem(Concat(chunks), size);
  }

  /** The split loop's invariant: the blocks `done` sent so far, followed
      by the blocks from position `i` on, are all the blocks of `all`, and
      the remainder is what is left from `i`. */
  ghost predicate CutSoFar(all: string, i: nat, size: int, done: seq<string>)
    requires size > 0 && i <= |all|
  {
    Blocks(all, size) == done + Blocks(all[i..], size) && Rem(all, size) == Rem(all[i..], size)
  }

  /** A whole block at `i` is the next block of `all`. */
  lemma CutNext(all: string, i: nat, size: int, done: seq<string>)
    requires size > 0 && i + size <= |all| && CutSoFar(all, i, size, done)
    ensures CutSoFar(all, i + size, size, done + [all[i..i + size]])
  {
    BlocksStep(all, i, size);
    assert done + ([all[i..i + size]] + Blocks(all[i + size..], size))
        == (done + [all[i..i + size]]) + Blocks(all[i + size..], size);
  }

  /** Less than a block left at `i`: every block has been cut, and the rest
      is the remainder. */
  lemma CutLast(all: string, i: nat, size: int, done: seq<string>)
    requires size > 0 && i <= |all| < i + size && CutSoFar(all, i, size, done)
    ensures done == Blocks(all, size) && Rem(all, size) == all[i..]
  {
    assert Blocks(all[i..], size) == [];
    assert done + [] == done;
  }

  /** Sending one more block extends the trace by that block's packet. */
  lemma SentNext(s0: seq<Emission>, p: Packet, done: seq<string>, block: string, dest: Route)
    ensures s0 + SendAll(Clones(p, done + [block]), dest)
         == (s0 + SendAll(Clones(p, done), dest)) + [Emission(dest, DataUnit(Clone(p, Str(block))))]
  {
    ClonesAppend(p, done, block);
    SendAllAppend(Clones(p, done), [Clone(p, Str(block))], dest);
  }

  class Batch {
    /** `inputs`, `input_char_count` and `block_index`. */
    var inputs: seq<string>
    var inputCharCount: int
    var blockIndex: int
    var size: int
    var forkDest: Route
    var sent: seq<Emission>

    ghost predicate Valid()
      reads this
    {
      inputCharCount == |Concat(inputs)| && blockIndex == 0
    }

    /** `init_filter`: the buffer holds one empty string. */
    constructor (size: int, forkDest: Route)
      ensures Valid() && inputs == [""] && sent == []
      ensures this.size == size && this.forkDest == forkDest
    {
      inputs := [""];
      inputCharCount := 0;
      blockIndex := 0;
      this.size := size;
      this.forkDest := forkDest;
      sent := [];
      new;
      ConcatOne("");
    }

    /** `filter_data`. Below one block of input, the data is only buffered;
        otherwise every whole block of the buffered input goes on to
        `fork_dest` as a clone of `p`, and the remainder is all that stays
        buffered. A size below 1 is an attribute error once the data has
        been buffered: exactly the sizes `validate_params` rejects. */
    method FilterData(p: Packet) returns (err: Option<FilterError>)
      requires Valid()
      modifies this
      ensures Valid() && size == old(size) && forkDest == old(forkDest)
      ensures !p.data.Str? ==> err == Some(TypeError) && inputs == old(inputs) && sent == old(sent)
      ensures p.data.Str? ==> err == ValidateSize(size)
      ensures p.data.Str? && size <= 0 ==>
        err == Some(FilterAttributeError) && inputs == old(inputs) + [p.data.s] && sent == old(sent)
      ensures p.data.Str? && size > 0 ==> (err == None &&
        var all := Concat(old(inputs)) + p.data.s;
        Concat(inputs) == Rem(all, size) &&
        sent == old(sent) + SendAll(Clones(p, Blocks(all, size)), forkDest) &&
        (|all| < size ==> inputs == old(inputs) + [p.data.s]) &&
        (|all| >= size ==> inputs == [Rem(all, size)]))
    {
      if !p.data.Str? {
        return Some(TypeError);
      }
      var d := p.data.s;
      ConcatAppend(inputs, [d]);
      ConcatOne(d);
      inputs := inputs + [d];
      inputCharCount := inputCharCount + |d|;
      if inputCharCount < size {
        assert |Concat(inputs)| < size;
        return None;
      }
      var all := Concat(inputs);
      // The source repeats this check on every pass, because sending may
      // change the size; here the size is fixed for the call.
      if size <= 0 {
        return Some(FilterAttributeError);
      }
      CutBlocks(p, all);
      return None;
    }

    /** The `while True` loop of `filter_data`: sends each whole block of
        `all` in turn, then keeps the remainder as the only input. */
    method CutBlocks(p: Packet, all: string)
      requires size > 0 && blockIndex == 0
      modifies this
      ensures Valid() && size == old(size) && forkDest == old(forkDest)
      ensures inputs == [Rem(all, size)]
      ensures sent == old(sent) + SendAll(Clones(p, Blocks(all, size)), forkDest)
    {
      ghost var done: seq<string> := [];
      while true
        invariant size == old(size) > 0 && forkDest == old(forkDest)
        invariant 0 <= blockIndex <= |all|
        invariant CutSoFar(all, blockIndex, size, done)
        invariant sent == old(sent) + SendAll(Clones(p, done), forkDest)
        decreases |all| - blockIndex
      {
        // `len(block) == size` exactly when a whole block is left.
        if blockIndex + size <= |all| {
          var block := all[blockIndex..blockIndex + size];
          CutNext(all, blockIndex, size, done);
          SentNext(old(sent), p, done, block, forkDest);
          done := done + [block];
          blockIndex := blockIndex + size;
          sent := sent + [Emission(forkDest, DataUnit(Clone(p, Str(block))))];
        } else {
          var block := all[blockIndex..];
          CutLast(all, blockIndex, size, done);
          inputs := [block];
          inputCharCount := |block|;
          blockIndex := 0;
          ConcatOne(block);
          break;
        }
      }
    }

    /** `flush_buffer`: what is buffered goes on as one new packet, unless
        it is empty. The buffer itself is left as it is. */
    method FlushBuffer()
      modifies this
      ensures inputs == old(inputs) && size == old(size) && forkDest == old(forkDest)
      ensures inputCharCount == old(inputCharCount) && blockIndex == old(blockIndex)
      ensures old(Valid()) ==> Valid()
      ensures Concat(inputs) == [] ==> sent == old(sent)
      ensures Concat(inputs) != [] ==> sent == old(sent) + [Emission(forkDest, DataUnit(NewPacket(Str(Concat(inputs)))))]
    {
      var remainder := Concat(inputs);
      if remainder != [] {
        sent := sent + [Emission(forkDest, DataUnit(NewPacket(Str(remainder))))];
      }
    }
  }

  /** `validate_params`: an integer size must be at least 1. */
  function ValidateSize(size: int): (r: Option<FilterError>)
    ensures r.None? <==> size >= 1
    ensures r.Some? ==> r.value == FilterAttributeError
  {
    if size <= 0 then Some(FilterAttributeError) else None
  }
}
