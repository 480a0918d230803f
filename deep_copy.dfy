/** Model of src/utils/deepCopy.js: a recursive structural copy. */
module DeepCopy {
  import opened Values

  /**
   * Falsy values come back unchanged, arrays are copied element by element,
   * objects are copied key by key (keeping their prototype, as `mapValues` does),
   * and every other value (true, non-zero numbers, non-empty strings, functions)
   * is returned as it is.
   */
  function DeepCopy(v: Value): Value
    decreases v
  {
    if Falsy(v) then v
    else match v
      case Arr(es) => Arr(seq(|es|, i requires 0 <= i < |es| => DeepCopy(es[i])))
      case Obj(r) => Obj(JsRecord(r.proto, map k | k in r.props :: DeepCopy(r.props[k])))
      case _ => v
  }

  /** The copy is structurally equal to the original, at every depth. */
  lemma {:induction false} DeepCopyIsStructuralCopy(v: Value)
    ensures DeepCopy(v) == v
    decreases v
  {
    if !Falsy(v) {
      match v
      case Arr(es) =>
        forall i | 0 <= i < |es| ensures DeepCopy(es[i]) == es[i] {
          DeepCopyIsStructuralCopy(es[i]);
        }
        assert seq(|es|, i requires 0 <= i < |es| => DeepCopy(es[i])) == es;
      case Obj(r) =>
        forall k | k in r.props ensures DeepCopy(r.props[k]) == r.props[k] {
          DeepCopyIsStructuralCopy(r.props[k]);
        }
        assert (map k | k in r.props :: DeepCopy(r.props[k])) == r.props;
      case _ =>
    }
  }

  /** An array copy has the length of the original and each element is the copy of the original's element. */
  lemma {:induction false} DeepCopyArray(es: seq<Value>)
    ensures DeepCopy(Arr(es)).Arr? && |DeepCopy(Arr(es)).elems| == |es|
    ensures forall i :: 0 <= i < |es| ==> DeepCopy(Arr(es)).elems[i] == DeepCopy(es[i])
  {
  }

  /** An object copy has exactly the original's own keys and the original's prototype. */
  lemma {:induction false} DeepCopyObject(r: JsRecord<Value>)
    ensures DeepCopy(Obj(r)).Obj? && DeepCopy(Obj(r)).rec.proto == r.proto
    ensures DeepCopy(Obj(r)).rec.props.Keys == r.props.Keys
    ensures forall k :: k in r.props ==> DeepCopy(Obj(r)).rec.props[k] == DeepCopy(r.props[k])
  {
  }
}
