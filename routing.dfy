/** The routing filters: each sends every input on, unchanged or split, to the
    branch, to main, or to both. Where a filter emits on both routes for one
    input, the branch unit goes first. */
module Routing {

  import opened Packets
  import opened PySeq

  /** BranchClone.filter_data: a clone to the branch, then the packet to main. */
  function BranchClone(p: Packet): (out: seq<Emission>)
    ensures BranchThenMain(out)
    ensures out[0].unit == DataUnit(Clone(p, p.data)) && out[1].unit == DataUnit(p)
  {
    [Emission(Branch, DataUnit(Clone(p, p.data))), Emission(Main, DataUnit(p))]
  }

  /** BranchRef.filter_data: the same packet to the branch, then to main. */
  function BranchRef(p: Packet): (out: seq<Emission>)
    ensures BranchThenMain(out)
    ensures out[0].unit == DataUnit(p) && out[1].unit == DataUnit(p)
  {
    [Emission(Branch, DataUnit(p)), Emission(Main, DataUnit(p))]
  }

  /** `value[start:stop:step]` for a string or list attribute; ValueError
      for step 0 and TypeError for any other kind of value. */
  function StepSliceValue(v: Value, start: int, stop: int, step: int): (r: Result<Value>)
    ensures r.Ok? <==> (v.Str? || v.List?) && step != 0
    ensures (v.Str? || v.List?) && step == 0 ==> r == Err(ValueError)
    ensures !(v.Str? || v.List?) ==> r == Err(TypeError)
    ensures r.Ok? ==> (v.Str? <==> r.value.Str?) && (v.List? <==> r.value.List?)
    ensures step == 1 && v.Str? ==> r == Ok(Str(Slice(v.s, start, stop)))
    ensures step == 1 && v.List? ==> r == Ok(List(Slice(v.items, start, stop)))
  {
    match v
    case Str(s) =>
      (match StepSlice(s, start, stop, step)
       case Some(r) => Ok(Str(r))
       case None => Err(ValueError))
    case List(items) =>
      (match StepSlice(items, start, stop, step)
       case Some(r) => Ok(List(r))
       case None => Err(ValueError))
    case _ => Err(TypeError)
  }

  /** BranchParam.filter_data: a new packet holding
      `getattr(packet, paramName)[start:stopBefore:step]`, tagged with the
      parameter's name, to the branch; then the packet itself to main. */
  function BranchParam(p: Packet, paramName: string, start: int, stopBefore: int, step: int): (r: Result<seq<Emission>>)
    ensures paramName !in p.attrs ==> r == Err(AttributeError(paramName))
    ensures r.Ok? <==> paramName in p.attrs && StepSliceValue(p.attrs[paramName], start, stopBefore, step).Ok?
    ensures r.Ok? ==> (
      BranchThenMain(r.value) && r.value[1].unit == DataUnit(p) &&
      r.value[0].unit == DataUnit(Packet(StepSliceValue(p.attrs[paramName], start, stopBefore, step).value,
                                         map["param_name" := Str(paramName)])))
  {
    match GetAttr(p, paramName)
    case Err(e) => Err(e)
    case Ok(v) =>
      match StepSliceValue(v, start, stopBefore, step)
      case Err(e) => Err(e)
      case Ok(results) =>
        Ok([Emission(Branch, DataUnit(Packet(results, map["param_name" := Str(paramName)]))),
            Emission(Main, DataUnit(p))])
  }

  /** With a positive step, BranchParam succeeds on a string or list
      attribute whatever the bounds (so also for the default stop of 9999).
      With `a` and `b` the bounds as Python clamps them, the result has an
      item for every position `a + k*step` below `b` and no other, and the
      k-th item is the attribute's item at that position. */
  lemma BranchParamPicks(p: Packet, paramName: string, start: int, stopBefore: int, step: nat, k: nat)
    requires paramName in p.attrs && 0 < step
    requires p.attrs[paramName].Str? || p.attrs[paramName].List?
    ensures var r := BranchParam(p, paramName, start, stopBefore, step); var v := p.attrs[paramName];
      r.Ok? && var d := r.value[0].unit.packet.data;
      (v.Str? ==> (var a, b := Bound(start, |v.s|), Bound(stopBefore, |v.s|);
                   d.Str? && (k < |d.s| <==> a + k * step < b) &&
                   (k < |d.s| ==> d.s[k] == v.s[a + k * step]))) &&
      (v.List? ==> (var a, b := Bound(start, |v.items|), Bound(stopBefore, |v.items|);
                    d.List? && (k < |d.items| <==> a + k * step < b) &&
                    (k < |d.items| ==> d.items[k] == v.items[a + k * step])))
  {
    var v := p.attrs[paramName];
    var d := BranchParam(p, paramName, start, stopBefore, step).value[0].unit.packet.data;
    if v.Str? {
      var a, b := Bound(start, |v.s|), Bound(stopBefore, |v.s|);
      UpCount(v.s, a, b, step, k);
      if k < |d.s| {
        UpAt(v.s, a, b, step, k);
      }
    }
    if v.List? {
      var a, b := Bound(start, |v.items|), Bound(stopBefore, |v.items|);
      UpCount(v.items, a, b, step, k);
      if k < |d.items| {
        UpAt(v.items, a, b, step, k);
      }
    }
  }

  /** With a negative step, BranchParam succeeds on a string or list
      attribute whatever the bounds. With `a` and `b` the bounds as Python
      places them for a downward slice (-1 standing before the first item),
      the result has an item for every position `a + k*step` above `b` and
      no other, and the k-th item is the attribute's item at that position. */
  lemma BranchParamPicksDown(p: Packet, paramName: string, start: int, stopBefore: int, step: int, k: nat)
    requires paramName in p.attrs && step < 0
    requires p.attrs[paramName].Str? || p.attrs[paramName].List?
    ensures var r := BranchParam(p, paramName, start, stopBefore, step); var v := p.attrs[paramName];
      r.Ok? && var d := r.value[0].unit.packet.data;
      (v.Str? ==> (var a, b := DownBound(start, |v.s|), DownBound(stopBefore, |v.s|);
                   d.Str? && (k < |d.s| <==> b < a + k * step) &&
                   (k < |d.s| ==> 0 <= a + k * step < |v.s| && d.s[k] == v.s[a + k * step]))) &&
      (v.List? ==> (var a, b := DownBound(start, |v.items|), DownBound(stopBefore, |v.items|);
                    d.List? && (k < |d.items| <==> b < a + k * step) &&
                    (k < |d.items| ==> 0 <= a + k * step < |v.items| && d.items[k] == v.items[a + k * step])))
  {
    var v := p.attrs[paramName];
    var d := BranchParam(p, paramName, start, stopBefore, step).value[0].unit.packet.data;
    if v.Str? {
      var a, b := DownBound(start, |v.s|), DownBound(stopBefore, |v.s|);
      DownCount(v.s, a, b, step, k);
      if k < |d.s| {
        DownAt(v.s, a, b, step, k);
      }
    }
    if v.List? {
      var a, b := DownBound(start, |v.items|), DownBound(stopBefore, |v.items|);
      DownCount(v.items, a, b, step, k);
      if k < |d.items| {
        DownAt(v.items, a, b, step, k);
      }
    }
  }

  /** SendMessage.filter_data: a bottle to the branch, then the packet to
      main. The bottle is built as `MessageBottle(message, value=values)`,
      so the message text stands in the bottle's destination place. */
  function SendMessage(p: Packet, message: string, values: Value): (out: seq<Emission>)
    ensures BranchThenMain(out)
    ensures out[0].unit.BottleUnit? && out[0].unit.bottle.destination == message
    ensures out[0].unit.bottle.args == map["value" := values]
    ensures out[1].unit == DataUnit(p)
  {
    [Emission(Branch, BottleUnit(Bottle(message, None, map["value" := values]))),
     Emission(Main, DataUnit(p))]
  }

  /** Python 2's `v > 0`: numbers by value; None is below 0, and strings
      and lists are above every number. */
  predicate AboveZero(v: Value)
  {
    match v
    case Int(i) => i > 0
    case Bool(b) => b
    case Null => false
    case _ => true
  }

  /** BranchFirstPart.filter_data: when `branch_up_to` is above 0 and the
      payload is not empty, the first `branch_up_to` items go to the branch
      in a clone and the rest stays in the packet sent to main. Only a
      number can be a slice bound. */
  function BranchFirstPart(p: Packet): (r: Result<seq<Emission>>)
    ensures "branch_up_to" !in p.attrs ==> r == Err(AttributeError("branch_up_to"))
    ensures r.Err? && "branch_up_to" in p.attrs ==> r == Err(TypeError)
    ensures r.Ok? && |r.value| == 1 ==> r.value == [Emission(Main, DataUnit(p))]
  {
    match GetAttr(p, "branch_up_to")
    case Err(e) => Err(e)
    case Ok(v) =>
      if AboveZero(v) && Truthy(p.data) then
        if !IsNum(v) then Err(TypeError)
        else
          var n := Num(v);
          match p.data
          case Str(s) =>
            Ok([Emission(Branch, DataUnit(Clone(p, Str(Take(s, n))))),
                Emission(Main, DataUnit(Clone(p, Str(Drop(s, n)))))])
          case List(items) =>
            Ok([Emission(Branch, DataUnit(Clone(p, List(Take(items, n))))),
                Emission(Main, DataUnit(Clone(p, List(Drop(items, n)))))])
          case _ => Err(TypeError)
      else Ok([Emission(Main, DataUnit(p))])
  }

  /** When BranchFirstPart splits a string or a list, it sends the branch
      first, the two parts keep the packet's attributes, the branch part
      holds the first `branch_up_to` items (all of them when the payload is
      shorter), and the branch part followed by the main part is the
      original payload. */
  lemma BranchFirstPartSplits(p: Packet)
    requires "branch_up_to" in p.attrs && IsNum(p.attrs["branch_up_to"]) && AboveZero(p.attrs["branch_up_to"])
    requires (p.data.Str? && p.data.s != []) || (p.data.List? && p.data.items != [])
    ensures var r := BranchFirstPart(p); var n := Num(p.attrs["branch_up_to"]);
      r.Ok? && BranchThenMain(r.value) &&
      var b := r.value[0].unit.packet; var m := r.value[1].unit.packet;
      b.attrs == p.attrs && m.attrs == p.attrs &&
      (p.data.Str? ==>
         b.data.Str? && m.data.Str? && b.data.s + m.data.s == p.data.s &&
         |b.data.s| == if n < |p.data.s| then n else |p.data.s|) &&
      (p.data.List? ==>
         b.data.List? && m.data.List? && b.data.items + m.data.items == p.data.items &&
         |b.data.items| == if n < |p.data.items| then n else |p.data.items|)
  {
    if p.data.Str? {
      TakeDrop(p.data.s, Num(p.attrs["branch_up_to"]));
    } else {
      TakeDrop(p.data.items, Num(p.attrs["branch_up_to"]));
    }
  }

  /** Without a `branch_up_to` above 0, or with an empty payload, the
      packet goes to main untouched. */
  lemma BranchFirstPartPassesThrough(p: Packet)
    requires "branch_up_to" in p.attrs
    requires !AboveZero(p.attrs["branch_up_to"]) || !Truthy(p.data)
    ensures BranchFirstPart(p) == Ok([Emission(Main, DataUnit(p))])
  {
  }

  /** The comparison names BranchIf accepts, as a closed set; any other name
      is kept so that the filter can report it. */
  datatype Comparison = Equals | LessThan | GreaterThan | NotEquals | Unknown(name: string)

  function ParseComparison(name: string): (c: Comparison)
    ensures c.Unknown? <==> name !in {"equals", "less_than", "greater_than", "not_equals"}
  {
    if name == "equals" then Equals
    else if name == "less_than" then LessThan
    else if name == "greater_than" then GreaterThan
    else if name == "not_equals" then NotEquals
    else Unknown(name)
  }

  /** Python's `<` on two strings: lexicographic by character code. */
  predicate StrLess(a: string, b: string)
  {
    if a == [] then b != []
    else if b == [] then false
    else if a[0] != b[0] then a[0] < b[0]
    else StrLess(a[1..], b[1..])
  }

  /** StrLess is transitive. */
  lemma {:induction false} StrLessTransitive(a: string, b: string, c: string)
    requires StrLess(a, b) && StrLess(b, c)
    ensures StrLess(a, c)
  {
    if a != [] && b != [] && c != [] && a[0] == b[0] && b[0] == c[0] {
      StrLessTransitive(a[1..], b[1..], c[1..]);
    }
  }

  /** Python 2 orders values of different kinds by kind: None below
      numbers, numbers below every other type, then the other types by the
      names of their types ("list" before "str"). */
  function KindRank(v: Value): nat
  {
    match v
    case Null => 0
    case Int(_) => 1
    case Bool(_) => 1
    case List(_) => 2
    case Str(_) => 3
  }

  /** Python 2's `==`: numbers by value, lists item by item. */
  predicate PyEq(a: Value, b: Value)
    decreases a, 1
  {
    if IsNum(a) && IsNum(b) then Num(a) == Num(b)
    else match a
      case List(xs) => b.List? && ListEq(xs, b.items)
      case _ => a == b
  }

  predicate ListEq(xs: seq<Value>, ys: seq<Value>)
    decreases xs, 0
  {
    |xs| == |ys| && (xs == [] || (PyEq(xs[0], ys[0]) && ListEq(xs[1..], ys[1..])))
  }

  /** Python 2's `<`: by kind first; numbers by value, strings by
      character code, lists at their first unequal item or else by
      length. */
  predicate PyLess(a: Value, b: Value)
    decreases a, 1
  {
    if KindRank(a) != KindRank(b) then KindRank(a) < KindRank(b)
    else match a
      case Null => false
      case Int(_) => Num(a) < Num(b)
      case Bool(_) => Num(a) < Num(b)
      case Str(s) => StrLess(s, b.s)
      case List(xs) => ListLess(xs, b.items)
  }

  predicate ListLess(xs: seq<Value>, ys: seq<Value>)
    decreases xs, 0
  {
    if xs == [] then ys != []
    else if ys == [] then false
    else if !PyEq(xs[0], ys[0]) then PyLess(xs[0], ys[0])
    else ListLess(xs[1..], ys[1..])
  }

  /** Two strings are equal or one is below the other. */
  lemma {:induction false} StrTrichotomy(a: string, b: string)
    ensures StrLess(a, b) || a == b || StrLess(b, a)
  {
    if a != [] && b != [] && a[0] == b[0] {
      StrTrichotomy(a[1..], b[1..]);
      assert a == [a[0]] + a[1..] && b == [b[0]] + b[1..];
    }
  }

  /** Below excludes equal and above. */
  lemma {:induction false} StrLessAsymmetric(a: string, b: string)
    requires StrLess(a, b)
    ensures a != b && !StrLess(b, a)
  {
    if a != [] && b != [] && a[0] == b[0] {
      StrLessAsymmetric(a[1..], b[1..]);
    }
  }

  /** For the values a dict accepts as keys (everything but a list), two
      values share a dict key exactly when Python 2 finds them equal. */
  lemma HashKeyIsPyEq(a: Value, b: Value)
    requires !a.List? && !b.List?
    ensures HashKey(a) == HashKey(b) <==> PyEq(a, b)
  {
  }

  /** PyEq is symmetric. */
  lemma {:induction false} PyEqSymmetric(a: Value, b: Value)
    requires PyEq(a, b)
    ensures PyEq(b, a)
    decreases a, 1
  {
    if a.List? && !IsNum(b) {
      ListEqSymmetric(a.items, b.items);
    }
  }

  lemma {:induction false} ListEqSymmetric(xs: seq<Value>, ys: seq<Value>)
    requires ListEq(xs, ys)
    ensures ListEq(ys, xs)
    decreases xs, 0
  {
    if xs != [] {
      PyEqSymmetric(xs[0], ys[0]);
      ListEqSymmetric(xs[1..], ys[1..]);
    }
  }

  /** Python 2's comparison is a trichotomy: any two values are equal, or
      exactly one is below the other. */
  lemma {:induction false} PyTrichotomy(a: Value, b: Value)
    ensures PyLess(a, b) || PyEq(a, b) || PyLess(b, a)
    ensures PyLess(a, b) ==> !PyEq(a, b) && !PyLess(b, a)
    decreases a, 1
  {
    if KindRank(a) == KindRank(b) {
      match a
      case Str(s) =>
        StrTrichotomy(s, b.s);
        if StrLess(s, b.s) { StrLessAsymmetric(s, b.s); }
        if StrLess(b.s, s) { StrLessAsymmetric(b.s, s); }
      case List(xs) =>
        ListTrichotomy(xs, b.items);
        if PyLess(b, a) && PyEq(a, b) {
          PyEqSymmetric(a, b);
        }
      case _ =>
    }
  }

  lemma {:induction false} ListTrichotomy(xs: seq<Value>, ys: seq<Value>)
    ensures ListLess(xs, ys) || ListEq(xs, ys) || ListLess(ys, xs)
    ensures ListLess(xs, ys) ==> !ListEq(xs, ys) && !ListLess(ys, xs)
    decreases xs, 0
  {
    if xs != [] && ys != [] {
      PyTrichotomy(xs[0], ys[0]);
      if PyEq(xs[0], ys[0]) {
        PyEqSymmetric(xs[0], ys[0]);
        ListTrichotomy(xs[1..], ys[1..]);
      } else if PyEq(ys[0], xs[0]) {
        PyEqSymmetric(ys[0], xs[0]);
      }
    }
  }

  /** The outcome of BranchIf's comparison of `lhs` with the compare
      value; only an unknown comparison name fails. */
  function Compare(c: Comparison, lhs: Value, rhs: Value): (r: Result<bool>)
    ensures r.Err? <==> c.Unknown?
    ensures c.Unknown? ==> r == Err(FilterLogicError)
    ensures c == Equals ==> r == Ok(PyEq(lhs, rhs))
    ensures c == NotEquals ==> r == Ok(!PyEq(lhs, rhs))
    ensures c == LessThan ==> r == Ok(PyLess(lhs, rhs))
    ensures c == GreaterThan ==> r == Ok(PyLess(rhs, lhs))
  {
    match c
    case Equals => Ok(PyEq(lhs, rhs))
    case NotEquals => Ok(!PyEq(lhs, rhs))
    case LessThan => Ok(PyLess(lhs, rhs))
    case GreaterThan => Ok(PyLess(rhs, lhs))
    case Unknown(_) => Err(FilterLogicError)
  }

  /** BranchIf.filter_data: reads `branchKey` from the packet (or from the
      filter's own attributes when `onPacket` is false), compares it, and
      sends the packet on the branch when the comparison holds and on main
      otherwise. */
  function BranchIf(p: Packet, filterAttrs: map<string, Value>, branchKey: string,
                    comparison: Comparison, compareValue: Value, onPacket: bool): (r: Result<seq<Emission>>)
  {
    var source := if onPacket then p.attrs else filterAttrs;
    if branchKey !in source then Err(AttributeError(branchKey))
    else
      match Compare(comparison, source[branchKey], compareValue)
      case Err(e) => Err(e)
      case Ok(result) => Ok([Emission(if result then Branch else Main, DataUnit(p))])
  }

  /** BranchIf sends the packet exactly once, unchanged, and on the branch
      exactly when the comparison holds; an unknown comparison name is an
      error and sends nothing. */
  lemma BranchIfDispatch(p: Packet, filterAttrs: map<string, Value>, branchKey: string,
                         comparison: Comparison, compareValue: Value, onPacket: bool)
    ensures var source := if onPacket then p.attrs else filterAttrs;
      var r := BranchIf(p, filterAttrs, branchKey, comparison, compareValue, onPacket);
      (branchKey !in source ==> r == Err(AttributeError(branchKey))) &&
      (branchKey in source && comparison.Unknown? ==> r == Err(FilterLogicError)) &&
      (r.Ok? ==> (
        |r.value| == 1 && r.value[0].unit == DataUnit(p) &&
        (r.value[0].route == Branch <==> Compare(comparison, source[branchKey], compareValue) == Ok(true))))
  {
  }

  /** Equality and not-equals send every packet to opposite routes. */
  lemma BranchIfComplement(p: Packet, filterAttrs: map<string, Value>, branchKey: string,
                           compareValue: Value, onPacket: bool)
    requires branchKey in (if onPacket then p.attrs else filterAttrs)
    ensures BranchIf(p, filterAttrs, branchKey, Equals, compareValue, onPacket).Ok?
    ensures BranchIf(p, filterAttrs, branchKey, NotEquals, compareValue, onPacket).Ok?
    ensures BranchIf(p, filterAttrs, branchKey, Equals, compareValue, onPacket).value[0].route
         != BranchIf(p, filterAttrs, branchKey, NotEquals, compareValue, onPacket).value[0].route
  {
  }

  /** less_than and greater_than never both branch; on values that are
      not equal exactly one of them does, and on equal values neither. */
  lemma BranchIfOrder(p: Packet, filterAttrs: map<string, Value>, branchKey: string,
                      compareValue: Value, onPacket: bool)
    requires branchKey in (if onPacket then p.attrs else filterAttrs)
    ensures var lhs := (if onPacket then p.attrs else filterAttrs)[branchKey];
      var lt := BranchIf(p, filterAttrs, branchKey, LessThan, compareValue, onPacket);
      var gt := BranchIf(p, filterAttrs, branchKey, GreaterThan, compareValue, onPacket);
      lt.Ok? && gt.Ok? &&
      !(lt.value[0].route == Branch && gt.value[0].route == Branch) &&
      (PyEq(lhs, compareValue) ==> lt.value[0].route == Main && gt.value[0].route == Main) &&
      (!PyEq(lhs, compareValue) ==> (lt.value[0].route == Branch) != (gt.value[0].route == Branch))
  {
    var lhs := (if onPacket then p.attrs else filterAttrs)[branchKey];
    PyTrichotomy(lhs, compareValue);
    PyTrichotomy(compareValue, lhs);
    if PyEq(lhs, compareValue) {
      PyEqSymmetric(lhs, compareValue);
    }
  }

  /** Reset: sends a "reset" bottle for `paramName` ahead of each packet,
      both on main. The value it carries is the packet's own `paramName`
      attribute when the filter has no value; otherwise the filter's value,
      which is first replaced, for good, by the packet's attribute of that
      name when the value is a string naming one. */
  class Reset {
    const targetFilterName: string
    const paramName: string
    var value: Value
    var sent: seq<Emission>

    constructor (targetFilterName: string, paramName: string, value: Value)
      ensures this.targetFilterName == targetFilterName && this.paramName == paramName
      ensures this.value == value && sent == []
    {
      this.targetFilterName := targetFilterName;
      this.paramName := paramName;
      this.value := value;
      sent := [];
    }

    /** The bottle Reset sends for a new value. */
    function ResetBottle(newValue: Value): Bottle
      reads this
    {
      Bottle(targetFilterName, Some("reset"), map["param_name" := Str(paramName), "new_value" := newValue])
    }

    method FilterData(p: Packet) returns (err: Option<FilterError>)
      modifies this
      ensures old(value) == Null ==> value == Null
      ensures old(value) == Null && paramName !in p.attrs ==>
        err == Some(AttributeError(paramName)) && sent == old(sent)
      ensures old(value) == Null && paramName in p.attrs ==>
        err == None && sent == old(sent) + [Emission(Main, BottleUnit(ResetBottle(p.attrs[paramName]))), Emission(Main, DataUnit(p))]
      ensures old(value) != Null ==>
        err == None &&
        value == (if old(value).Str? && old(value).s in p.attrs then p.attrs[old(value).s] else old(value)) &&
        sent == old(sent) + [Emission(Main, BottleUnit(ResetBottle(value))), Emission(Main, DataUnit(p))]
    {
      var newValue: Value;
      if value == Null {
        if paramName !in p.attrs {
          return Some(AttributeError(paramName));
        }
        newValue := p.attrs[paramName];
      } else {
        if value.Str? && value.s in p.attrs {
          value := p.attrs[value.s];
        }
        newValue := value;
      }
      sent := sent + [Emission(Main, BottleUnit(ResetBottle(newValue))), Emission(Main, DataUnit(p))];
      return None;
    }
  }
}
