/** Model of src/utils/mapValues.js. */
module MapValues {
  import opened Values

  /**
   * Builds a fresh object with the input's prototype and, for every own
   * enumerable key of the input, the callback applied to the input's value.
   * The input is a value, so it is not modified.
   */
  method MapValues<V, W>(obj: JsRecord<V>, callback: V -> W) returns (result: JsRecord<W>)
    ensures result.proto == obj.proto
    ensures result.props.Keys == obj.props.Keys
    ensures forall k :: k in obj.props ==> result.props[k] == callback(obj.props[k])
  {
    result := JsRecord(obj.proto, map[]);
    var keys := obj.props.Keys;
    while keys != {}
      invariant keys <= obj.props.Keys
      invariant result.proto == obj.proto
      invariant result.props.Keys == obj.props.Keys - keys
      invariant forall k :: k in result.props ==> result.props[k] == callback(obj.props[k])
      decreases keys
    {
      var key :| key in keys;
      result := result.(props := result.props[key := callback(obj.props[key])]);
      keys := keys - {key};
    }
  }
}
