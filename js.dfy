/**
  The JavaScript values the gateway inspects: the `opts` argument of `init`,
  the entries of `opts.listen` and `opts.routes`, request events and handler
  results. Only what the gateway observes of a value is modelled: its
  truthiness, its `typeof`, whether it is an Array, and named property reads.
 */
module Js {

  datatype Value =
    | Undefined
    | Null
    | Bool(b: bool)
    | Num(x: real)               // a finite number
    | NaN
    | Str(s: string)
    | Func(id: nat)              // a function object, known only by identity
    | Arr(elems: seq<Value>)
    | Obj(props: map<string, Value>)

  /** JavaScript's ToBoolean: `false`, `0`, `NaN`, `""`, `null` and `undefined` are falsy. */
  predicate Truthy(v: Value) {
    match v
    case Undefined => false
    case Null => false
    case Bool(b) => b
    case Num(x) => x != 0.0
    case NaN => false
    case Str(s) => s != ""
    case _ => true
  }

  /** The `typeof` operator; note that `typeof null` and `typeof []` are both "object". */
  function TypeOf(v: Value): string {
    match v
    case Undefined => "undefined"
    case Null => "object"
    case Bool(_) => "boolean"
    case Num(_) => "number"
    case NaN => "number"
    case Str(_) => "string"
    case Func(_) => "function"
    case Arr(_) => "object"
    case Obj(_) => "object"
  }

  predicate IsFunction(v: Value) {
    TypeOf(v) == "function"
  }

  /** Reading any property of `null` or `undefined` throws a TypeError. */
  predicate Nullish(v: Value) {
    v.Undefined? || v.Null?
  }

  /**
    Reads the named (non-index, non-`length`) property `key` of `v`. Only
    plain objects carry such properties here; a missing property reads as
    `undefined`.
   */
  function Get(v: Value, key: string): (r: Value)
    requires !Nullish(v)
    ensures !r.Undefined? ==> v.Obj? && key in v.props && r == v.props[key]
  {
    match v
    case Obj(props) => if key in props then props[key] else Undefined
    case _ => Undefined
  }

  /** The assignment `v[key] = x` on a plain object. */
  function Put(v: Value, key: string, x: Value): (r: Value)
    requires v.Obj?
    ensures r.Obj? && Get(r, key) == x
    ensures forall k :: k != key ==> Get(r, k) == Get(v, k)
  {
    Obj(v.props[key := x])
  }
}
