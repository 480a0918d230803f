/** Model of src/utils/merge.js. */
module Merge {
  import opened Values

  /** A mutable JavaScript object, identified by reference. */
  class JsObject {
    var props: map<string, Value>

    constructor (props: map<string, Value>)
      ensures this.props == props
    {
      this.props := props;
    }
  }

  /**
   * Copies every own key of `source` into `target`, in place, and returns
   * `target` itself. Keys only in `target` keep their values, and `source`
   * is left as it was (also when it is the target).
   */
  method Merge(target: JsObject, source: JsObject) returns (r: JsObject)
    modifies target
    ensures r == target
    ensures target.props == old(target.props) + old(source.props)
    ensures target.props.Keys == old(target.props).Keys + old(source.props).Keys
    ensures source.props == old(source.props) || source == target
  {
    ghost var src := source.props;
    var keys := source.props.Keys;
    while keys != {}
      invariant keys <= src.Keys
      invariant forall k :: k in keys ==> k in source.props && source.props[k] == src[k]
      invariant target.props == old(target.props) + (map k | k in src && k !in keys :: src[k])
      invariant source != target ==> source.props == src
      decreases keys
    {
      var key :| key in keys;
      target.props := target.props[key := source.props[key]];
      keys := keys - {key};
    }
    assert (map k | k in src && k !in keys :: src[k]) == src;
    r := target;
  }

  /** Merging the same source a second time changes nothing more. */
  lemma MergeIdempotent(target: map<string, Value>, source: map<string, Value>)
    ensures (target + source) + source == target + source
  {
  }
}
