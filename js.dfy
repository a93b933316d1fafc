/**
 * The part of JavaScript's value semantics that the sink's option checks rely on:
 * `typeof`, truthiness, property lookup and `||`.
 */
module Js {

  /**
   * A JavaScript value. Numbers are integers only; arrays are objects
   * (`typeof [] === 'object'`), so `Obj` stands for both.
   */
  datatype Value =
    | Undefined
    | Null
    | Bool(b: bool)
    | Num(n: int)
    | Str(s: string)
    | Obj(props: map<string, Value>)
    | Fn

  /** `typeof v`; note that `typeof null` is "object". */
  function TypeOf(v: Value): string {
    match v
    case Undefined => "undefined"
    case Null => "object"
    case Bool(_) => "boolean"
    case Num(_) => "number"
    case Str(_) => "string"
    case Obj(_) => "object"
    case Fn => "function"
  }

  /** The values an `if` treats as true. */
  predicate Truthy(v: Value) {
    match v
    case Undefined => false
    case Null => false
    case Bool(b) => b
    case Num(n) => n != 0
    case Str(s) => s != ""
    case Obj(_) => true
    case Fn => true
  }

  /**
   * `v.key`. Only plain objects carry the keys the sink reads (`bulk`, `mode`,
   * `bufferSize`, `uri`, `collection`, `connection`); on any other value they are `undefined`.
   */
  function Get(v: Value, key: string): Value {
    if v.Obj? && key in v.props then v.props[key] else Undefined
  }

  /** `a || b` */
  function Or(a: Value, b: Value): Value {
    if Truthy(a) then a else b
  }
}
