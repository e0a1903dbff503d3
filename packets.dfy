/** The units that travel between FilterPype filters, the two routes a filter
    sends on, and the errors a filter may raise.

    The engine's packet class lives outside this model; a packet is modelled as
    a value: a payload plus a map of named attributes. A filter's calls to
    `send_on(unit, route)` are modelled as an ordered trace of emissions. */
module Packets {

  datatype Option<T> = None | Some(value: T)

  /** The exceptions the stock filters raise, by kind. */
  datatype FilterError =
    | AttributeError(name: string)  // getattr on a missing attribute
    | TypeError                     // payload or attribute of the wrong kind
    | ValueError                    // e.g. an extended slice with step 0
    | FilterAttributeError          // bad parameter, or attribute already set
    | FilterLogicError              // e.g. an unknown comparison name
    | FilterRoutingError            // a filter wired to the wrong neighbour

  datatype Result<T> = Ok(value: T) | Err(error: FilterError)

  /** Payloads and attribute values: Python strings, integers, booleans,
      lists and None. */
  datatype Value = Str(s: string) | Int(i: int) | Bool(b: bool) | List(items: seq<Value>) | Null

  /** A data packet: `data` plus the packet's other attributes. */
  datatype Packet = Packet(data: Value, attrs: map<string, Value>)

  /** A message bottle: where it is going, its message tag (absent when the
      constructor was not given one) and its keyword arguments. */
  datatype Bottle = Bottle(destination: string, message: Option<string>, args: map<string, Value>)

  datatype Unit = DataUnit(packet: Packet) | BottleUnit(bottle: Bottle)

  datatype Route = Main | Branch

  /** One call of `send_on(unit, route)`. */
  datatype Emission = Emission(route: Route, unit: Unit)

  /** `dfb.DataPacket(data)`: a fresh packet with no other attributes. */
  function NewPacket(data: Value): (p: Packet)
    ensures p.data == data && p.attrs == map[]
  {
    Packet(data, map[])
  }

  /** `packet.clone(data=...)`: every attribute is copied, the payload is
      replaced. The source packet is a value and cannot change. */
  function Clone(p: Packet, data: Value): (c: Packet)
    ensures c.attrs == p.attrs && c.data == data
  {
    p.(data := data)
  }

  /** `setattr(packet, name, v)`. */
  function SetAttr(p: Packet, name: string, v: Value): (q: Packet)
    ensures q.data == p.data && name in q.attrs && q.attrs[name] == v
  {
    p.(attrs := p.attrs[name := v])
  }

  /** Setting an attribute adds `name` and leaves every other attribute as
      it was. */
  lemma SetAttrKeeps(p: Packet, name: string, v: Value)
    ensures var q := SetAttr(p, name, v);
      q.attrs.Keys == p.attrs.Keys + {name} &&
      forall k :: k in p.attrs && k != name ==> q.attrs[k] == p.attrs[k]
  {
  }

  /** `getattr(packet, name)`, which raises when the attribute is missing. */
  function GetAttr(p: Packet, name: string): (r: Result<Value>)
    ensures r.Ok? <==> name in p.attrs
    ensures r.Ok? ==> r.value == p.attrs[name]
    ensures r.Err? ==> r.error == AttributeError(name)
  {
    if name in p.attrs then Ok(p.attrs[name]) else Err(AttributeError(name))
  }

  /** `packet.data_length`: the length of a string or list payload. */
  function DataLength(v: Value): (r: Result<nat>)
    ensures r.Ok? <==> (v.Str? || v.List?)
    ensures v.Str? ==> r == Ok(|v.s|)
    ensures v.List? ==> r == Ok(|v.items|)
  {
    match v
    case Str(s) => Ok(|s|)
    case List(items) => Ok(|items|)
    case _ => Err(TypeError)
  }

  /** A number, in Python 2 terms: booleans are the integers 0 and 1. */
  predicate IsNum(v: Value)
  {
    v.Int? || v.Bool?
  }

  function Num(v: Value): int
    requires IsNum(v)
  {
    if v.Int? then v.i else if v.b then 1 else 0
  }

  /** The key a Python 2 dict files a value under: a boolean is filed
      under the integer it equals, every other value under itself. */
  function HashKey(v: Value): (k: Value)
    ensures !k.Bool? && (IsNum(v) <==> k.Int?)
    ensures IsNum(v) ==> k.i == Num(v)
    ensures !IsNum(v) ==> k == v
  {
    if IsNum(v) then Int(Num(v)) else v
  }

  /** Python truthiness of a value: non-empty strings and lists, non-zero
      integers and True. */
  predicate Truthy(v: Value)
  {
    match v
    case Str(s) => s != []
    case Int(i) => i != 0
    case Bool(b) => b
    case List(items) => items != []
    case Null => false
  }

  /** The attributes `getattr` sees on a unit: a packet's attributes, or a
      bottle's keyword arguments. */
  function UnitAttrs(u: Unit): map<string, Value>
  {
    match u
    case DataUnit(p) => p.attrs
    case BottleUnit(b) => b.args
  }

  /** `unit.message` is truthy: only a bottle carrying a non-empty tag. */
  predicate IsMessage(u: Unit)
  {
    u.BottleUnit? && u.bottle.message.Some? && u.bottle.message.value != ""
  }

  /** The routing rule for a filter that emits on both routes for one input:
      exactly one unit on the branch, then one on main. */
  predicate BranchThenMain(out: seq<Emission>)
  {
    |out| == 2 && out[0].route == Branch && out[1].route == Main
  }

  /** The packets among a trace's emissions, in order. */
  function SentPackets(out: seq<Emission>): (ps: seq<Packet>)
    ensures |ps| <= |out|
    ensures (forall i :: 0 <= i < |out| ==> out[i].unit.DataUnit?) ==> |ps| == |out|
  {
    if out == [] then []
    else (if out[0].unit.DataUnit? then [out[0].unit.packet] else []) + SentPackets(out[1..])
  }

  /** Sending every packet of `ps` on `route`, one after the other. */
  function SendAll(ps: seq<Packet>, route: Route): (out: seq<Emission>)
    ensures |out| == |ps|
    ensures forall i :: 0 <= i < |ps| ==> out[i] == Emission(route, DataUnit(ps[i]))
  {
    if ps == [] then [] else [Emission(route, DataUnit(ps[0]))] + SendAll(ps[1..], route)
  }

  lemma {:induction false} SendAllAppend(a: seq<Packet>, b: seq<Packet>, route: Route)
    ensures SendAll(a + b, route) == SendAll(a, route) + SendAll(b, route)
  {
    if a != [] {
      assert (a + b)[1..] == a[1..] + b;
      SendAllAppend(a[1..], b, route);
    }
  }

  lemma {:induction false} SentPacketsOfSendAll(ps: seq<Packet>, route: Route)
    ensures SentPackets(SendAll(ps, route)) == ps
  {
    if ps != [] {
      SentPacketsOfSendAll(ps[1..], route);
      assert SendAll(ps, route)[1..] == SendAll(ps[1..], route);
    }
  }
}
