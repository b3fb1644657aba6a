/**
 * The part of JavaScript's value universe that the bridge inspects: what it
 * tests with `typeof`, with truthiness and with `!= null`, and what the
 * structured clone behind `postMessage` accepts.
 */
module Values {

  datatype Option<+T> = None | Some(value: T)

  /** An operation that either completes or throws an error with a message. */
  datatype Result<+T> = Ok(value: T) | Err(error: string)

  /**
   * A JavaScript value. Objects and functions are references, told apart by
   * an identity; arrays carry their elements because the bridge looks inside
   * argument lists.
   */
  datatype Value =
    | Undefined
    | Null
    | Bool(b: bool)
    | Num(n: int)
    | Str(s: string)
    | Arr(items: seq<Value>)
    | Obj(oid: nat)
    | Fn(fid: nat)

  /** `v == null` under JavaScript's loose equality: true for null and undefined only. */
  predicate IsNullish(v: Value) {
    v.Undefined? || v.Null?
  }

  /** `typeof v === "function"`. */
  predicate IsFunction(v: Value) {
    v.Fn?
  }

  /** JavaScript truthiness (NaN is not part of this value universe). */
  predicate Truthy(v: Value) {
    match v
    case Undefined => false
    case Null => false
    case Bool(b) => b
    case Num(n) => n != 0
    case Str(s) => s != ""
    case _ => true
  }

  /**
   * The structured clone used by `postMessage` refuses functions, also inside
   * arrays. An `Obj` carries no properties here, so it always counts as
   * cloneable; every other value of this universe is cloneable too.
   */
  predicate Cloneable(v: Value)
    decreases v
  {
    match v
    case Fn(_) => false
    case Arr(items) => forall i :: 0 <= i < |items| ==> Cloneable(items[i])
    case _ => true
  }

  predicate AllCloneable(vs: seq<Value>) {
    forall i :: 0 <= i < |vs| ==> Cloneable(vs[i])
  }

  /** Error message of the structured clone failure thrown by `postMessage`. */
  const DataCloneError: string := "DataCloneError"
}
