/**
 * JavaScript values as the session stores them in its `data` record and as
 * they appear in the options of a transaction request.
 */
module Values {

  /** One octet of a Node.js `Buffer`. */
  newtype byte = x: int | 0 <= x < 256

  /**
   * A JavaScript value. Numbers are non-negative integers (so `Math.floor` is
   * the identity on them); `Obj` stands for any other object (array, plain
   * object, function), identified only by an opaque reference.
   */
  datatype Val =
    | Undefined
    | Null
    | Bool(b: bool)
    | Num(n: nat)
    | Str(s: string)
    | Bytes(bytes: seq<byte>)
    | Obj(ref: nat)

  /** The own properties of a plain JavaScript object. */
  type Fields = map<string, Val>

  /** JavaScript truthiness: `undefined`, `null`, `false`, `0` and `""` are falsy. */
  predicate Truthy(v: Val) {
    match v
    case Undefined => false
    case Null => false
    case Bool(b) => b
    case Num(n) => n != 0
    case Str(s) => s != ""
    case Bytes(_) => true
    case Obj(_) => true
  }

  /** `v == null` in JavaScript's loose equality: `null` or `undefined`. */
  predicate Nullish(v: Val) {
    v == Null || v == Undefined
  }

  /** The value a property read `o[key]` yields: `undefined` for a missing key. */
  function Lookup(o: Fields, key: string): Val {
    if key in o then o[key] else Undefined
  }
}
