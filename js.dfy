/**
 * JavaScript values as the handlers see them after JSON.parse or in a request
 * body, with the few language operations the handlers rely on: truthiness,
 * `typeof v === 'object'`, property read and write, `Object.keys` and `String(v)`.
 */
module Js {
  import opened Results
  import Decimal

  /** An object is its own properties in insertion order. */
  datatype Value =
    | Undefined
    | Null
    | Bool(b: bool)
    | Num(n: real)
    | Str(s: string)
    | Arr(items: seq<Value>)
    | Obj(props: seq<Prop>)

  datatype Prop = Prop(key: string, val: Value)

  /** What `if (v)`, `v || d`, `!v` and `filter(Boolean)` test (NaN is not represented). */
  predicate Truthy(v: Value) {
    match v
    case Undefined => false
    case Null => false
    case Bool(b) => b
    case Num(n) => n != 0.0
    case Str(s) => s != ""
    case _ => true
  }

  /** `v || d` */
  function Or(v: Value, d: Value): Value {
    if Truthy(v) then v else d
  }

  /** `v && typeof v === 'object'`: a non-null object, arrays included. */
  predicate IsObject(v: Value) {
    v.Arr? || v.Obj?
  }

  predicate IsNullish(v: Value) {
    v.Undefined? || v.Null?
  }

  /** The value of the first property named k; undefined when there is none. */
  function Lookup(props: seq<Prop>, k: string): (r: Value)
    ensures r != Undefined ==> k in KeysOf(props)
  {
    if props == [] then Undefined
    else if props[0].key == k then props[0].val
    else Lookup(props[1..], k)
  }

  function KeysOf(props: seq<Prop>): (r: seq<string>)
    ensures |r| == |props| && forall i :: 0 <= i < |props| ==> r[i] == props[i].key
  {
    if props == [] then [] else [props[0].key] + KeysOf(props[1..])
  }

  function ValuesOf(props: seq<Prop>): (r: seq<Value>)
    ensures |r| == |props| && forall i :: 0 <= i < |props| ==> r[i] == props[i].val
  {
    if props == [] then [] else [props[0].val] + ValuesOf(props[1..])
  }

  /** `rec[k] = v` on an object: an existing property keeps its place, a new one goes last. */
  function Put(props: seq<Prop>, k: string, v: Value): (r: seq<Prop>)
    ensures Lookup(r, k) == v
    ensures forall k' :: k' != k ==> Lookup(r, k') == Lookup(props, k')
    ensures KeysOf(r) == if k in KeysOf(props) then KeysOf(props) else KeysOf(props) + [k]
  {
    if props == [] then [Prop(k, v)]
    else if props[0].key == k then [Prop(k, v)] + props[1..]
    else [props[0]] + Put(props[1..], k, v)
  }

  /** The keys "0", "1", ... of a string or an array of length n. */
  function IndexKeys(n: nat): (r: seq<string>)
    ensures |r| == n && forall i :: 0 <= i < n ==> r[i] == Decimal.NatToString(i)
  {
    seq(n, i requires 0 <= i < n => Decimal.NatToString(i))
  }

  /** `v[k]` on a value that is not null or undefined (those throw; callers check first). */
  function Get(v: Value, k: string): Value {
    match v
    case Obj(ps) => Lookup(ps, k)
    case Arr(xs) =>
      if k == "length" then Num(|xs| as real)
      else (match Decimal.ParseCanonical(k)
            case Some(i) => if i < |xs| then xs[i] else Undefined
            case None => Undefined)
    case Str(s) =>
      if k == "length" then Num(|s| as real)
      else (match Decimal.ParseCanonical(k)
            case Some(i) => if i < |s| then Str([s[i]]) else Undefined
            case None => Undefined)
    case _ => Undefined
  }

  /** `Object.keys(v)` for a value that is not null or undefined. */
  function Keys(v: Value): seq<string> {
    match v
    case Obj(ps) => KeysOf(ps)
    case Arr(xs) => IndexKeys(|xs|)
    case Str(s) => IndexKeys(|s|)
    case _ => []
  }

  /** `String(k)` when k is used as a property key; None for numbers, arrays and objects. */
  function PropertyKey(k: Value): Option<string> {
    match k
    case Str(s) => Some(s)
    case Undefined => Some("undefined")
    case Null => Some("null")
    case Bool(b) => Some(if b then "true" else "false")
    case _ => None
  }

  /** The element at position i of an array, as `xs[i]` reads it. */
  lemma GetIndex(xs: seq<Value>, i: nat)
    requires i < |xs|
    ensures Get(Arr(xs), Decimal.NatToString(i)) == xs[i]
  {
    Decimal.ParseNatToString(i);
  }

  /** `String(v)`; numbers are written by the host's number formatting. */
  function Display(v: Value, numText: real -> string): string
    decreases v
  {
    match v
    case Undefined => "undefined"
    case Null => "null"
    case Bool(b) => if b then "true" else "false"
    case Num(n) => numText(n)
    case Str(s) => s
    case Arr(xs) => JoinItems(xs, numText)
    case Obj(_) => "[object Object]"
  }

  /** `xs.join(',')`: null and undefined items are written as empty text. */
  function JoinItems(xs: seq<Value>, numText: real -> string): string
    decreases xs
  {
    if xs == [] then ""
    else
      var head := if IsNullish(xs[0]) then "" else Display(xs[0], numText);
      if |xs| == 1 then head else head + "," + JoinItems(xs[1..], numText)
  }
}
