/**
 * The few JavaScript value semantics the identity lookup depends on:
 * primitive values, truthiness, and the `v || null` normalisation.
 */
module Js {

  datatype Option<+T> = None | Some(value: T)

  /**
   * A JavaScript value as the lookup code inspects it. Numbers are
   * integers here; objects and arrays only occur inside HTTP responses,
   * which the resolver receives already reduced to the fields it reads.
   */
  datatype Value = Undefined | Null | Bool(b: bool) | Num(n: int) | Str(s: string)

  /** JavaScript truthiness: `undefined`, `null`, `false`, `0` and `""` are falsy. */
  predicate Truthy(v: Value) {
    match v
    case Undefined => false
    case Null => false
    case Bool(b) => b
    case Num(n) => n != 0
    case Str(s) => s != ""
  }

  /** `v || null`: a truthy value is kept, every falsy one becomes `null`. */
  function OrNull(v: Value): (r: Value)
    ensures Truthy(v) ==> r == v
    ensures !Truthy(v) ==> r == Null
  {
    if Truthy(v) then v else Null
  }
}
