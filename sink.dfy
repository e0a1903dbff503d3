/** Sink: keeps the latest results that reach it, at most `max_results` of
    them (0 keeps everything), and passes everything on. With
    `capture_msgs`, message bottles sent on main are kept as well. */
module Sink {

  import opened Packets

  /** The results kept after receiving `history`, oldest first: all of
      them when the limit is 0, none when it is negative, else the latest
      `max` of them. */
  function Kept(history: seq<Unit>, max: int): (r: seq<Unit>)
  {
    if max == 0 then history
    else if max < 0 then []
    else if |history| <= max then history
    else history[|history| - max..]
  }

  /** The kept results are the latest ones received, in order, and no more
      than the limit. */
  lemma KeptIsLatest(history: seq<Unit>, max: int)
    ensures |Kept(history, max)| <= |history|
    ensures max > 0 ==> |Kept(history, max)| <= max
    ensures max > 0 && |history| > max ==> |Kept(history, max)| == max
    ensures Kept(history, max) == history[|history| - |Kept(history, max)|..]
    ensures max == 0 || |history| <= max ==> (max >= 0 ==> Kept(history, max) == history)
  {
  }

  /** Receiving one more result: drop the oldest if over the limit. */
  lemma {:induction false} KeptStep(history: seq<Unit>, u: Unit, max: int)
    ensures var r := Kept(history, max) + [u];
      Kept(history + [u], max) == if max != 0 && |r| > max then r[1..] else r
  {
    var h := history + [u];
    if max > 0 && |history| > max {
      assert h[|h| - max..] == history[|history| - max..][1..] + [u];
    }
  }

  class Sink {
    var results: seq<Unit>
    const maxResults: int
    const captureMsgs: bool
    var sent: seq<Emission>
    /** Every result `_save_data` has been given since the last reset. */
    ghost var history: seq<Unit>

    ghost predicate Valid()
      reads this
    {
      results == Kept(history, maxResults)
    }

    /** `init_filter`: no results. */
    constructor (maxResults: int, captureMsgs: bool)
      ensures Valid() && results == [] && history == [] && sent == []
      ensures this.maxResults == maxResults && this.captureMsgs == captureMsgs
    {
      results := [];
      history := [];
      sent := [];
      this.maxResults := maxResults;
      this.captureMsgs := captureMsgs;
    }

    /** `_save_data`: append, then drop the oldest if over the limit. */
    method SaveData(u: Unit)
      requires Valid()
      modifies this
      ensures Valid() && history == old(history) + [u] && sent == old(sent)
      ensures var r := old(results) + [u];
        results == if maxResults != 0 && |r| > maxResults then r[1..] else r
    {
      KeptStep(history, u, maxResults);
      results := results + [u];
      if maxResults != 0 && |results| > maxResults {
        results := results[1..];
      }
      history := history + [u];
    }

    /** `send_on`: a message bottle sent on main is kept first when
        `capture_msgs` is set; everything is sent. */
    method SendOn(u: Unit, route: Route)
      requires Valid()
      modifies this
      ensures Valid() && sent == old(sent) + [Emission(route, u)]
      ensures IsMessage(u) && captureMsgs && route == Main ==> history == old(history) + [u]
      ensures !(IsMessage(u) && captureMsgs && route == Main) ==> history == old(history) && results == old(results)
    {
      if IsMessage(u) && captureMsgs && route == Main {
        SaveData(u);
      }
      sent := sent + [Emission(route, u)];
    }

    /** `filter_data`: keep the packet and pass it on. */
    method FilterData(p: Packet)
      requires Valid()
      modifies this
      ensures Valid() && history == old(history) + [DataUnit(p)]
      ensures sent == old(sent) + [Emission(Main, DataUnit(p))]
    {
      SaveData(DataUnit(p));
      SendOn(DataUnit(p), Main);
    }

    /** `zero_inputs`: forget every result. */
    method ZeroInputs()
      modifies this
      ensures Valid() && results == [] && history == [] && sent == old(sent)
    {
      results := [];
      history := [];
    }
  }
}
