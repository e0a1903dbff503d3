/** CallbackOnAttribute: watches the packets (and message bottles) passing
    through for an attribute, and calls back `found:<attr>` once the same
    value has been seen `count_to_confirm` times, or, with
    `watch_for_change`, every time the value changes. Too many different
    values call back `inconsistency_value_exceeded:<attr>`; when
    `num_watch_pkts` packets pass without it being found, or the filter
    closes without a packet limit and without finding it, the call back is
    `not_found:<attr>`. The callback itself is outside the model: each call
    is recorded as an event carrying the environment passed to it. */
module CallbackOnAttribute {

  import opened Packets

  /** The filter's parameters, `include_in_environ` already holding the
      watched attribute, and whether the filter is in a pipeline. */
  datatype Config = Config(
    watchAttr: string, countToConfirm: int, numWatchPkts: Option<int>,
    allowedInconsistencies: int, watchForChange: bool,
    includeInEnviron: seq<string>, closeWhenFound: bool, hasPipeline: bool)

  /** A call of the callback, or the pipeline being asked to shut down. */
  datatype Event = Callback(name: string, environ: map<string, Value>) | ShutDown

  /** The filter's watch state. */
  datatype WatchState = WatchState(
    found: bool, pktCount: int, valueDict: map<Value, int>, prevValue: Value,
    environ: map<string, Value>)

  datatype Outcome = Outcome(state: WatchState, events: seq<Event>, forward: bool)

  /** `_populate_environ`: each listed attribute the packet has is copied
      into the environment, in list order. */
  function Populated(env: map<string, Value>, names: seq<string>, attrs: map<string, Value>): map<string, Value>
    decreases |names|
  {
    if names == [] then env
    else
      var n := names[0];
      Populated(if n in attrs then env[n := attrs[n]] else env, names[1..], attrs)
  }

  /** The environment gains exactly the listed attributes the packet has,
      with the packet's values, and keeps everything else. */
  lemma {:induction false} PopulatedMeaning(env: map<string, Value>, names: seq<string>, attrs: map<string, Value>)
    ensures var r := Populated(env, names, attrs);
      (forall k :: k in r <==> k in env || (k in names && k in attrs)) &&
      (forall k :: k in names && k in attrs ==> r[k] == attrs[k]) &&
      (forall k :: k in env && !(k in names && k in attrs) ==> r[k] == env[k])
    decreases |names|
  {
    if names != [] {
      var n := names[0];
      PopulatedMeaning(if n in attrs then env[n := attrs[n]] else env, names[1..], attrs);
      assert forall k :: k in names <==> k == n || k in names[1..];
    }
  }

  function ShutDownIf(c: Config): seq<Event>
  {
    if c.closeWhenFound && c.hasPipeline then [ShutDown] else []
  }

  function NotFoundName(c: Config): string
  {
    "not_found:" + c.watchAttr
  }

  /** The last check of `filter_data`: at exactly the packet limit, with
      the attribute still not found, call back `not_found`. */
  predicate AtLimitUnfound(c: Config, st: WatchState)
  {
    c.numWatchPkts == Some(st.pktCount) && !st.found
  }

  function NotFoundEnviron(c: Config, st: WatchState, attrs: map<string, Value>): map<string, Value>
  {
    if AtLimitUnfound(c, st) then Populated(st.environ, c.includeInEnviron, attrs) else st.environ
  }

  function NotFoundEvents(c: Config, st: WatchState, attrs: map<string, Value>): seq<Event>
  {
    if AtLimitUnfound(c, st) then [Callback(NotFoundName(c), NotFoundEnviron(c, st, attrs))] else []
  }

  function NotFoundCheck(c: Config, st: WatchState, attrs: map<string, Value>, evs: seq<Event>, fwd: bool): Outcome
  {
    Outcome(st.(environ := NotFoundEnviron(c, st, attrs)), evs + NotFoundEvents(c, st, attrs), fwd)
  }

  /** The inconsistency check: with too many distinct values,
      `inconsistency_value_exceeded` is called back and the count starts
      again from the key `k` alone. */
  function Restarted(c: Config, st: WatchState, attrs: map<string, Value>, k: Value): (WatchState, seq<Event>)
  {
    if |st.valueDict| - 1 > c.allowedInconsistencies then
      var env := Populated(st.environ, c.includeInEnviron, attrs);
      (st.(valueDict := map[k := 1], environ := env),
       [Callback("inconsistency_value_exceeded:" + c.watchAttr, env)])
    else (st, [])
  }

  /** The confirmation: a value seen `count_to_confirm` times is found and
      called back. */
  function Confirmed(c: Config, st: WatchState, attrs: map<string, Value>, k: Value): (WatchState, seq<Event>)
    requires k in st.valueDict
  {
    if st.valueDict[k] >= c.countToConfirm then
      var env := Populated(st.environ, c.includeInEnviron, attrs);
      (st.(environ := env, found := true), [Callback("found:" + c.watchAttr, env)] + ShutDownIf(c))
    else (st, [])
  }

  /** Counting a value seen without `watch_for_change`: the inconsistency
      check, then the confirmation. Gives the new state and the events. */
  function Counted(c: Config, st: WatchState, attrs: map<string, Value>, v: Value): (WatchState, seq<Event>)
    requires HashKey(v) in st.valueDict
  {
    var k := HashKey(v);
    var a := Restarted(c, st, attrs, k);
    var b := Confirmed(c, a.0, attrs, k);
    (b.0, a.1 + b.1)
  }

  /** A watched value with `watch_for_change`: a new value is reported
      and remembered; one equal to the previous value (in Python 2 terms,
      so 1 equals True) is dropped. */
  function Change(c: Config, st: WatchState, attrs: map<string, Value>, v: Value, fwd: bool): Outcome
  {
    if HashKey(v) != HashKey(st.prevValue) then
      var env := Populated(st.environ, c.includeInEnviron, attrs);
      Outcome(st.(environ := env, found := true, prevValue := v),
              [Callback("found:" + c.watchAttr, env)] + ShutDownIf(c), fwd)
    else Outcome(st, [], false)
  }

  /** The watch proper, once the packet is within the packet limit. */
  function Observe(c: Config, st: WatchState, attrs: map<string, Value>, fwd: bool): Outcome
  {
    if c.watchAttr !in attrs then NotFoundCheck(c, st, attrs, [], fwd)
    else
      var v := attrs[c.watchAttr];
      var st2 := Tally(st, HashKey(v));
      if c.watchForChange then Change(c, st2, attrs, v, fwd)
      else
        var counted := Counted(c, st2, attrs, v);
        NotFoundCheck(c, counted.0, attrs, counted.1, fwd)
  }

  /** One more sighting of the key `k` in `value_dict`. */
  function Tally(st: WatchState, k: Value): WatchState
  {
    st.(valueDict := st.valueDict[k := (if k in st.valueDict then st.valueDict[k] else 0) + 1])
  }

  /** The packet counted, when there is a packet limit. */
  function Ticked(c: Config, st: WatchState): WatchState
  {
    if c.numWatchPkts.Some? then st.(pktCount := st.pktCount + 1) else st
  }

  /** `filter_data` for one packet or message bottle. */
  function Step(c: Config, st: WatchState, u: Unit): Outcome
  {
    var attrs := UnitAttrs(u);
    var fwd := !IsMessage(u);
    if st.found && !c.watchForChange then Outcome(st, [], fwd)
    else
      var st1 := Ticked(c, st);
      if c.numWatchPkts.Some? && st1.pktCount > c.numWatchPkts.value then Outcome(st1, [], fwd)
      else Observe(c, st1, attrs, fwd)
  }

  /** What the filter passes on for `u`. */
  function Forwarded(o: Outcome, u: Unit): seq<Emission>
  {
    if o.forward then [Emission(Main, u)] else []
  }

  /** `close_filter`: without a packet limit, an attribute never found is
      reported then. */
  function CloseEvents(c: Config, st: WatchState): seq<Event>
  {
    if !st.found && c.numWatchPkts.None? then [Callback(NotFoundName(c), st.environ)] else []
  }

  /** The state after `init_filter`. */
  function Initial(environ: map<string, Value>): WatchState
  {
    WatchState(false, 0, map[], Null, environ)
  }

  /** A stream of units through the filter: the final state and every
      event, in order. */
  function Run(c: Config, st: WatchState, us: seq<Unit>): (WatchState, seq<Event>)
    decreases |us|
  {
    if us == [] then (st, [])
    else
      var o := Step(c, st, us[0]);
      var rest := Run(c, o.state, us[1..]);
      (rest.0, o.events + rest.1)
  }

  function CountNamed(evs: seq<Event>, name: string): nat
  {
    if evs == [] then 0
    else (if evs[0].Callback? && evs[0].name == name then 1 else 0) + CountNamed(evs[1..], name)
  }

  lemma {:induction false} CountNamedAppend(a: seq<Event>, b: seq<Event>, name: string)
    ensures CountNamed(a + b, name) == CountNamed(a, name) + CountNamed(b, name)
    decreases |a|
  {
    if a != [] {
      CountNamedAppend(a[1..], b, name);
      assert (a + b)[1..] == a[1..] + b;
    } else {
      assert a + b == b;
    }
  }

  /** Once found, an attribute stays found. */
  lemma FoundStays(c: Config, st: WatchState, u: Unit)
    requires st.found
    ensures Step(c, st, u).state.found
  {
  }

  /** The names of the three callbacks differ. */
  lemma NamesDiffer(c: Config)
    ensures "found:" + c.watchAttr != NotFoundName(c)
    ensures "inconsistency_value_exceeded:" + c.watchAttr != NotFoundName(c)
    ensures "found:" + c.watchAttr != "inconsistency_value_exceeded:" + c.watchAttr
  {
    assert |"found:" + c.watchAttr| != |"inconsistency_value_exceeded:" + c.watchAttr|;
    assert |"found:" + c.watchAttr| != |NotFoundName(c)|;
    assert |"inconsistency_value_exceeded:" + c.watchAttr| != |NotFoundName(c)|;
  }

  /** Counting never calls back `not_found` and leaves the packet count. */
  lemma CountedNoNotFound(c: Config, st: WatchState, attrs: map<string, Value>, v: Value)
    requires HashKey(v) in st.valueDict
    ensures CountNamed(Counted(c, st, attrs, v).1, NotFoundName(c)) == 0
    ensures Counted(c, st, attrs, v).0.pktCount == st.pktCount
  {
    NamesDiffer(c);
    var k := HashKey(v);
    var a := Restarted(c, st, attrs, k);
    var b := Confirmed(c, a.0, attrs, k);
    CountNamedAppend(a.1, b.1, NotFoundName(c));
    if b.1 != [] {
      CountNamedAppend([Callback("found:" + c.watchAttr, b.0.environ)], ShutDownIf(c), NotFoundName(c));
    }
  }

  /** The final check calls back `not_found` once at most, and only at
      the limit. */
  lemma NotFoundCheckCount(c: Config, st: WatchState, attrs: map<string, Value>, evs: seq<Event>, fwd: bool)
    ensures var n := NotFoundCheck(c, st, attrs, evs, fwd);
      n.state.pktCount == st.pktCount &&
      CountNamed(n.events, NotFoundName(c)) == CountNamed(evs, NotFoundName(c)) +
        (if c.numWatchPkts == Some(st.pktCount) && !st.found then 1 else 0)
  {
    CountNamedAppend(evs, NotFoundEvents(c, st, attrs), NotFoundName(c));
  }

  lemma ObserveNotFound(c: Config, st: WatchState, attrs: map<string, Value>, fwd: bool)
    ensures var o := Observe(c, st, attrs, fwd);
      o.state.pktCount == st.pktCount &&
      CountNamed(o.events, NotFoundName(c)) == (if c.numWatchPkts == Some(st.pktCount) && !st.found && (c.watchAttr !in attrs || !c.watchForChange) && !o.state.found then 1 else 0)
  {
    NamesDiffer(c);
    if c.watchAttr !in attrs {
      NotFoundCheckCount(c, st, attrs, [], fwd);
    } else {
      var v := attrs[c.watchAttr];
      var k := HashKey(v);
      var st2 := Tally(st, k);
      if c.watchForChange {
        if k != HashKey(st2.prevValue) {
          var env := Populated(st2.environ, c.includeInEnviron, attrs);
          CountNamedAppend([Callback("found:" + c.watchAttr, env)], ShutDownIf(c), NotFoundName(c));
        }
      } else {
        var counted := Counted(c, st2, attrs, v);
        CountedNoNotFound(c, st2, attrs, v);
        NotFoundCheckCount(c, counted.0, attrs, counted.1, fwd);
        assert st.found ==> counted.0.found;
      }
    }
  }

  /** What one step can do to the `not_found` count: the packet count
      never falls, and a `not_found` call is made only on the packet that
      reaches the limit. */
  lemma NotFoundStep(c: Config, st: WatchState, u: Unit)
    ensures Step(c, st, u).state.pktCount >= st.pktCount
    ensures CountNamed(Step(c, st, u).events, NotFoundName(c)) <= 1
    ensures CountNamed(Step(c, st, u).events, NotFoundName(c)) == 1 ==>
      c.numWatchPkts == Some(st.pktCount + 1) && Step(c, st, u).state.pktCount == st.pktCount + 1
  {
    var attrs := UnitAttrs(u);
    var fwd := !IsMessage(u);
    if st.found && !c.watchForChange {
      assert Step(c, st, u) == Outcome(st, [], fwd);
    } else {
      var st1 := Ticked(c, st);
      if c.numWatchPkts.Some? && st1.pktCount > c.numWatchPkts.value {
        assert Step(c, st, u) == Outcome(st1, [], fwd);
      } else {
        assert Step(c, st, u) == Observe(c, st1, attrs, fwd);
        ObserveNotFound(c, st1, attrs, fwd);
      }
    }
  }

  /** Over any stream, `not_found` is called back at most once: during the
      stream only when a packet limit is set, and then only before the
      limit is passed; at close only when there is no limit. */
  lemma {:induction false} NotFoundAtMostOnce(c: Config, st: WatchState, us: seq<Unit>)
    ensures c.numWatchPkts.Some? ==>
      CountNamed(Run(c, st, us).1, NotFoundName(c)) <= (if st.pktCount < c.numWatchPkts.value then 1 else 0)
    ensures c.numWatchPkts.None? ==> CountNamed(Run(c, st, us).1, NotFoundName(c)) == 0
    decreases |us|
  {
    if us != [] {
      var o := Step(c, st, us[0]);
      NotFoundStep(c, st, us[0]);
      NotFoundAtMostOnce(c, o.state, us[1..]);
      CountNamedAppend(o.events, Run(c, o.state, us[1..]).1, NotFoundName(c));
    }
  }

  /** From the start, a whole stream followed by the close calls back
      `not_found` at most once. */
  lemma NotFoundOnceOverall(c: Config, environ: map<string, Value>, us: seq<Unit>)
    ensures var (st, evs) := Run(c, Initial(environ), us);
      CountNamed(evs + CloseEvents(c, st), NotFoundName(c)) <= 1
  {
    var (st, evs) := Run(c, Initial(environ), us);
    NotFoundAtMostOnce(c, Initial(environ), us);
    CountNamedAppend(evs, CloseEvents(c, st), NotFoundName(c));
  }

  /** Still watching: no packet limit, or the limit not yet passed. */
  predicate Watching(c: Config, st: WatchState)
  {
    c.numWatchPkts.None? || st.pktCount < c.numWatchPkts.value
  }

  /** While watching, and unless the attribute is found for good, a step
      counts the packet and observes it. */
  lemma StepObserves(c: Config, st: WatchState, u: Unit)
    requires Watching(c, st) && !(st.found && !c.watchForChange)
    ensures Step(c, st, u) == Observe(c, Ticked(c, st), UnitAttrs(u), !IsMessage(u))
  {
  }

  /** Observing a value without `watch_for_change`: tally, count, then the
      `not_found` check. */
  lemma ObserveCounts(c: Config, st: WatchState, attrs: map<string, Value>, fwd: bool)
    requires c.watchAttr in attrs && !c.watchForChange
    ensures var v := attrs[c.watchAttr]; var n := Counted(c, Tally(st, HashKey(v)), attrs, v);
      Observe(c, st, attrs, fwd) == NotFoundCheck(c, n.0, attrs, n.1, fwd)
  {
  }

  /** With `watch_for_change`, while watching, a packet carrying the
      attribute calls back `found` exactly when its value differs from the
      previous one in Python 2 terms (the first value counts as a change
      from None); a repeated value is neither reported nor passed on, and
      no `not_found` check follows either way. */
  lemma WatchForChange(c: Config, st: WatchState, u: Unit)
    requires c.watchForChange && Watching(c, st) && c.watchAttr in UnitAttrs(u)
    ensures var o := Step(c, st, u); var v := UnitAttrs(u)[c.watchAttr];
      o.state.pktCount == Ticked(c, st).pktCount &&
      if HashKey(v) != HashKey(st.prevValue) then
        o.state.found && o.state.prevValue == v && o.forward == !IsMessage(u) &&
        o.events == [Callback("found:" + c.watchAttr, o.state.environ)] + ShutDownIf(c)
      else
        o.events == [] && !o.forward && o.state.prevValue == st.prevValue && o.state.found == st.found
  {
    StepObserves(c, st, u);
  }

  /** The `not_found` callback that ends a step at the packet limit with
      the attribute still not found. */
  function LimitEvents(c: Config, st: WatchState, o: Outcome): seq<Event>
  {
    if c.numWatchPkts == Some(st.pktCount + 1) && !o.state.found
    then [Callback(NotFoundName(c), o.state.environ)] else []
  }

  /** Without `watch_for_change`, while watching and before the attribute
      is found, a value within the allowed inconsistencies is found exactly
      when it has now been seen `count_to_confirm` times, and only then is
      `found` called back; at the packet limit an unfound attribute is
      then called back `not_found`. */
  lemma ConfirmAfterCount(c: Config, st: WatchState, u: Unit)
    requires !c.watchForChange && Watching(c, st) && !st.found && c.watchAttr in UnitAttrs(u)
    requires var k := HashKey(UnitAttrs(u)[c.watchAttr]);
      |st.valueDict[k := 0]| - 1 <= c.allowedInconsistencies
    ensures var o := Step(c, st, u); var k := HashKey(UnitAttrs(u)[c.watchAttr]);
      var seen := (if k in st.valueDict then st.valueDict[k] else 0) + 1;
      o.state.pktCount == Ticked(c, st).pktCount &&
      o.state.valueDict[k] == seen &&
      (o.state.found <==> seen >= c.countToConfirm) &&
      o.events == (if seen >= c.countToConfirm then [Callback("found:" + c.watchAttr, o.state.environ)] + ShutDownIf(c) else [])
                  + LimitEvents(c, st, o) &&
      o.forward == !IsMessage(u)
  {
    var attrs := UnitAttrs(u);
    var v := attrs[c.watchAttr];
    var k := HashKey(v);
    var st1 := Ticked(c, st);
    var st2 := Tally(st1, k);
    StepObserves(c, st, u);
    ObserveCounts(c, st1, attrs, !IsMessage(u));
    assert st.valueDict[k := 0].Keys == st2.valueDict.Keys;
    assert Restarted(c, st2, attrs, k) == (st2, []);
  }

  /** Too many distinct values: `inconsistency_value_exceeded` is called
      back first, and the count starts again from this value alone. */
  lemma TooManyValues(c: Config, st: WatchState, u: Unit)
    requires !c.watchForChange && Watching(c, st) && !st.found && c.watchAttr in UnitAttrs(u)
    requires var k := HashKey(UnitAttrs(u)[c.watchAttr]);
      |st.valueDict[k := 0]| - 1 > c.allowedInconsistencies
    ensures var o := Step(c, st, u); var k := HashKey(UnitAttrs(u)[c.watchAttr]);
      o.state.pktCount == Ticked(c, st).pktCount &&
      o.state.valueDict == map[k := 1] && |o.events| >= 1 &&
      o.events[0].Callback? && o.events[0].name == "inconsistency_value_exceeded:" + c.watchAttr
  {
    var attrs := UnitAttrs(u);
    var v := attrs[c.watchAttr];
    var k := HashKey(v);
    var st1 := Ticked(c, st);
    var st2 := Tally(st1, k);
    StepObserves(c, st, u);
    ObserveCounts(c, st1, attrs, !IsMessage(u));
    assert st.valueDict[k := 0].Keys == st2.valueDict.Keys;
    assert Restarted(c, st2, attrs, k).0.valueDict == map[k := 1];
  }

  class CallbackOnAttribute {
    const watchAttr: string
    const countToConfirm: int
    const numWatchPkts: Option<int>
    const allowedInconsistencies: int
    const watchForChange: bool
    const includeInEnviron: seq<string>
    const closeWhenFound: bool
    const hasPipeline: bool
    var attributeFound: bool
    var pktCount: int
    var valueDict: map<Value, int>
    var prevValue: Value
    var environ: map<string, Value>
    /** The callbacks made, in order. */
    var events: seq<Event>
    var sent: seq<Emission>

    function Cfg(): Config
    {
      Config(watchAttr, countToConfirm, numWatchPkts, allowedInconsistencies, watchForChange,
             includeInEnviron, closeWhenFound, hasPipeline)
    }

    function State(): WatchState
      reads this
    {
      WatchState(attributeFound, pktCount, valueDict, prevValue, environ)
    }

    /** `init_filter`: the watched attribute joins the environment list,
        and a missing environment becomes an empty one. */
    constructor (watchAttr: string, countToConfirm: int, numWatchPkts: Option<int>,
                 allowedInconsistencies: int, watchForChange: bool, includeInEnviron: seq<string>,
                 closeWhenFound: bool, hasPipeline: bool, environ: Option<map<string, Value>>)
      ensures Cfg() == Config(watchAttr, countToConfirm, numWatchPkts, allowedInconsistencies,
                              watchForChange, includeInEnviron + [watchAttr], closeWhenFound, hasPipeline)
      ensures State() == Initial(if environ.Some? then environ.value else map[])
      ensures events == [] && sent == []
    {
      this.watchAttr := watchAttr;
      this.countToConfirm := countToConfirm;
      this.numWatchPkts := numWatchPkts;
      this.allowedInconsistencies := allowedInconsistencies;
      this.watchForChange := watchForChange;
      this.includeInEnviron := includeInEnviron + [watchAttr];
      this.closeWhenFound := closeWhenFound;
      this.hasPipeline := hasPipeline;
      attributeFound := false;
      pktCount := 0;
      valueDict := map[];
      prevValue := Null;
      this.environ := if environ.Some? then environ.value else map[];
      events := [];
      sent := [];
    }

    /** `_populate_environ`. */
    method PopulateEnviron(attrs: map<string, Value>)
      modifies this
      ensures environ == Populated(old(environ), includeInEnviron, attrs)
      ensures attributeFound == old(attributeFound) && pktCount == old(pktCount) && valueDict == old(valueDict)
      ensures prevValue == old(prevValue) && events == old(events) && sent == old(sent)
    {
      var i := 0;
      while i < |includeInEnviron|
        invariant 0 <= i <= |includeInEnviron|
        invariant Populated(old(environ), includeInEnviron, attrs) == Populated(environ, includeInEnviron[i..], attrs)
        invariant attributeFound == old(attributeFound) && pktCount == old(pktCount) && valueDict == old(valueDict)
        invariant prevValue == old(prevValue) && events == old(events) && sent == old(sent)
      {
        var name := includeInEnviron[i];
        assert includeInEnviron[i..][1..] == includeInEnviron[i + 1..];
        if name in attrs {
          environ := environ[name := attrs[name]];
        }
        i := i + 1;
      }
    }

    /** `filter_data`, also called for every message bottle opened: the
        watch state moves as Step says, its callbacks are made, and the
        unit is passed on unless it carries a message. */
    method FilterData(u: Unit)
      modifies this
      ensures var o := Step(Cfg(), old(State()), u);
        State() == o.state && events == old(events) + o.events && sent == old(sent) + Forwarded(o, u)
    {
      var attrs := UnitAttrs(u);
      var fwd := !IsMessage(u);
      ghost var c, st0 := Cfg(), State();
      if attributeFound && !watchForChange {
        if fwd {
          sent := sent + [Emission(Main, u)];
        }
        return;
      }
      if numWatchPkts.Some? {
        pktCount := pktCount + 1;
        if pktCount > numWatchPkts.value {
          if fwd {
            sent := sent + [Emission(Main, u)];
          }
          return;
        }
      }
      StepObserves(c, st0, u);
      assert State() == Ticked(c, st0);
      Watch(u, attrs, fwd);
    }

    /** The watch proper, once the packet is within the packet limit. */
    method Watch(u: Unit, attrs: map<string, Value>, fwd: bool)
      modifies this
      ensures var o := Observe(Cfg(), old(State()), attrs, fwd);
        State() == o.state && events == old(events) + o.events && sent == old(sent) + Forwarded(o, u)
    {
      if watchAttr !in attrs {
        Finish(u, attrs, fwd);
      } else if watchForChange {
        WatchChange(u, attrs, fwd);
      } else {
        WatchCount(u, attrs, fwd);
      }
    }

    /** A watched value with `watch_for_change`: a new value is reported
        and remembered, a repeated one dropped. */
    method WatchChange(u: Unit, attrs: map<string, Value>, fwd: bool)
      requires watchAttr in attrs && watchForChange
      modifies this
      ensures var o := Observe(Cfg(), old(State()), attrs, fwd);
        State() == o.state && events == old(events) + o.events && sent == old(sent) + Forwarded(o, u)
    {
      var v := attrs[watchAttr];
      var k := HashKey(v);
      valueDict := valueDict[k := (if k in valueDict then valueDict[k] else 0) + 1];
      if k != HashKey(prevValue) {
        PopulateEnviron(attrs);
        events := events + [Callback("found:" + watchAttr, environ)];
        attributeFound := true;
        prevValue := v;
        if fwd {
          sent := sent + [Emission(Main, u)];
        }
        if closeWhenFound && hasPipeline {
          events := events + [ShutDown];
        }
      }
    }

    /** A watched value without `watch_for_change`: it is counted, then
        the `not_found` check is made and the unit passed on. */
    method WatchCount(u: Unit, attrs: map<string, Value>, fwd: bool)
      requires watchAttr in attrs && !watchForChange
      modifies this
      ensures var o := Observe(Cfg(), old(State()), attrs, fwd);
        State() == o.state && events == old(events) + o.events && sent == old(sent) + Forwarded(o, u)
    {
      var v := attrs[watchAttr];
      var k := HashKey(v);
      valueDict := valueDict[k := (if k in valueDict then valueDict[k] else 0) + 1];
      ghost var c := Cfg();
      ghost var counted := Counted(c, State(), attrs, v);
      assert Observe(c, old(State()), attrs, fwd) == NotFoundCheck(c, counted.0, attrs, counted.1, fwd);
      Count(attrs, v);
      ghost var e1 := events;
      assert State() == counted.0 && e1 == old(events) + counted.1;
      Finish(u, attrs, fwd);
      assert events == e1 + NotFoundEvents(c, counted.0, attrs);
      assert events == old(events) + (counted.1 + NotFoundEvents(c, counted.0, attrs));
    }

    /** The end of `filter_data`: the `not_found` check, then the unit is
        passed on. */
    method Finish(u: Unit, attrs: map<string, Value>, fwd: bool)
      modifies this
      ensures var o := NotFoundCheck(Cfg(), old(State()), attrs, [], fwd);
        State() == o.state && events == old(events) + o.events && sent == old(sent) + Forwarded(o, u)
    {
      ReportNotFound(attrs);
      if fwd {
        sent := sent + [Emission(Main, u)];
      }
    }

    /** The counting part of `filter_data`, without `watch_for_change`. */
    method Count(attrs: map<string, Value>, v: Value)
      requires HashKey(v) in valueDict
      modifies this
      ensures var r := Counted(Cfg(), old(State()), attrs, v);
        State() == r.0 && events == old(events) + r.1 && sent == old(sent)
    {
      var k := HashKey(v);
      ghost var a := Restarted(Cfg(), State(), attrs, k);
      Restart(attrs, k);
      ghost var e1 := events;
      Confirm(attrs, k);
      assert events == old(events) + (a.1 + events[|e1|..]);
    }

    /** The inconsistency check of `filter_data`. */
    method Restart(attrs: map<string, Value>, k: Value)
      modifies this
      ensures var r := Restarted(Cfg(), old(State()), attrs, k);
        State() == r.0 && events == old(events) + r.1 && sent == old(sent)
    {
      if |valueDict| - 1 > allowedInconsistencies {
        PopulateEnviron(attrs);
        events := events + [Callback("inconsistency_value_exceeded:" + watchAttr, environ)];
        valueDict := map[k := 1];
      }
    }

    /** The confirmation of `filter_data`. */
    method Confirm(attrs: map<string, Value>, k: Value)
      requires k in valueDict
      modifies this
      ensures var r := Confirmed(Cfg(), old(State()), attrs, k);
        State() == r.0 && events == old(events) + r.1 && sent == old(sent)
    {
      if valueDict[k] >= countToConfirm {
        attributeFound := true;
        PopulateEnviron(attrs);
        events := events + [Callback("found:" + watchAttr, environ)];
        if closeWhenFound && hasPipeline {
          events := events + [ShutDown];
        }
      }
    }

    /** The `not_found` check at the end of `filter_data`. */
    method ReportNotFound(attrs: map<string, Value>)
      modifies this
      ensures State() == old(State()).(environ := NotFoundEnviron(Cfg(), old(State()), attrs))
      ensures events == old(events) + NotFoundEvents(Cfg(), old(State()), attrs) && sent == old(sent)
    {
      if numWatchPkts == Some(pktCount) && !attributeFound {
        PopulateEnviron(attrs);
        events := events + [Callback(NotFoundName(Cfg()), environ)];
      }
    }

    /** `close_filter`. */
    method CloseFilter()
      modifies this
      ensures State() == old(State()) && sent == old(sent)
      ensures events == old(events) + CloseEvents(Cfg(), State())
    {
      if !attributeFound && numWatchPkts == None {
        events := events + [Callback(NotFoundName(Cfg()), environ)];
      }
    }
  }
}
