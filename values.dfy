/**
 * JSON-like JavaScript values, used by the structural utilities
 * (`deepCopy`, `mapValues`, `merge`).
 */
module Values {

  /** The prototype of an object: `Object.create(null)`, `Object.prototype`, or some other object. */
  datatype Proto = NullProto | ObjectProto | OtherProto(id: nat)

  /** A plain object: its prototype and its own enumerable properties. */
  datatype JsRecord<+V> = JsRecord(proto: Proto, props: map<string, V>)

  /**
   * A JavaScript value. Numbers are modelled as integers plus `NaN`;
   * a function is an opaque identity.
   */
  datatype Value =
    | Undefined
    | Null
    | Bool(b: bool)
    | Num(n: int)
    | NaN
    | Str(s: string)
    | Fn(id: nat)
    | Arr(elems: seq<Value>)
    | Obj(rec: JsRecord<Value>)

  /** JavaScript's falsy values (`-0` is not distinguished from `0`). */
  predicate Falsy(v: Value) {
    v == Undefined || v == Null || v == Bool(false) || v == Num(0) || v == NaN || v == Str("")
  }
}
