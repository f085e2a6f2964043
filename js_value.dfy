module Wrappers {

  datatype Option<+T> = None | Some(value: T)
}

/** The small part of JavaScript's value semantics the relay's handlers depend on. */
module JsValue {

  /** A value as Socket.IO hands it to an event handler after decoding a JSON
      packet. `Undefined` stands for a missing argument or a missing property.
      Numbers are integers in this model. */
  datatype Value =
    | Undefined
    | Null
    | Bool(b: bool)
    | Num(n: int)
    | Str(s: string)
    | Arr(elems: seq<Value>)
    | Obj(props: map<string, Value>)

  /** JavaScript truthiness, as tested by `if (v)`. */
  predicate Truthy(v: Value)
  {
    match v
    case Undefined => false
    case Null => false
    case Bool(b) => b
    case Num(n) => n != 0
    case Str(s) => s != ""
    case Arr(_) => true
    case Obj(_) => true
  }

  /** Destructuring `const { ... } = v` throws a TypeError exactly for these. */
  predicate IsNullish(v: Value)
  {
    v.Undefined? || v.Null?
  }

  /** Values a JavaScript `Map` compares by content rather than by reference. */
  predicate IsPrimitive(v: Value)
  {
    !v.Arr? && !v.Obj?
  }

  /** Converting `v` to a string, as a template literal `${v}` does, throws a
      TypeError. A decoded object that has its own `toString` property
      (necessarily not a function) falls back on the inherited `valueOf`,
      which returns the object itself, so the conversion fails. An array is
      converted through `join`, which converts each element. No primitive
      value that can come from JSON fails. */
  predicate ToStringThrows(v: Value)
  {
    match v
    case Obj(props) => "toString" in props
    case Arr(elems) => exists i :: 0 <= i < |elems| && ToStringThrows(elems[i])
    case _ => false
  }

  /** Reading property `name` of a non-nullish value, as destructuring does.
      Only objects have own properties with the names the relay reads
      (`userToCall`, `offer`, `from`, `to`, `answer`); no prototype of a
      primitive or of an array defines any of them. */
  function Prop(v: Value, name: string): (r: Value)
    requires !IsNullish(v)
    ensures v.Obj? && name in v.props ==> r == v.props[name]
    ensures !(v.Obj? && name in v.props) ==> r == Undefined
  {
    match v
    case Obj(props) => if name in props then props[name] else Undefined
    case _ => Undefined
  }
}
