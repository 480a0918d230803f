/**
 * Model of src/core/AsyncActionSubscription.js: a revocable pair of listeners
 * standing between a promise and the state machine that started it.
 */
module AsyncActionSubscriptions {
  import opened Wrappers
  import opened Values

  /**
   * A listener call that a subscription forwards. Listeners are foreign
   * closures, so instead of running one the model returns which listener is
   * called and with which argument.
   */
  datatype ListenerCall<L> = SuccessCall(listener: L, result: Value) | FailureCall(listener: L, error: Value)

  class AsyncActionSubscription<L> {
    var successListener: Option<L>
    var failureListener: Option<L>
    /** The listeners given to the constructor. */
    ghost const givenSuccessListener: L
    ghost const givenFailureListener: L

    constructor (successListener: L, failureListener: L)
      ensures this.successListener == Some(successListener)
      ensures this.failureListener == Some(failureListener)
      ensures givenSuccessListener == successListener && givenFailureListener == failureListener
    {
      this.successListener := Some(successListener);
      this.failureListener := Some(failureListener);
      givenSuccessListener := successListener;
      givenFailureListener := failureListener;
    }

    /** Both listeners are still the ones given to the constructor. */
    ghost predicate Listening()
      reads this
    {
      successListener == Some(givenSuccessListener) && failureListener == Some(givenFailureListener)
    }

    /** Both listeners have been dropped by `cancel`. */
    predicate Cancelled()
      reads this
    {
      successListener.None? && failureListener.None?
    }

    /** Forwards a fulfilled promise's result to the success listener while it is set; never to the failure listener. */
    method OnSuccess(result: Value) returns (call: Option<ListenerCall<L>>)
      ensures call.Some? <==> successListener.Some?
      ensures call.Some? ==> call.value == SuccessCall(successListener.value, result)
      ensures Cancelled() ==> call == None
    {
      if successListener.Some? {
        call := Some(SuccessCall(successListener.value, result));
      } else {
        call := None;
      }
    }

    /** Forwards a rejected promise's error to the failure listener while it is set; never to the success listener. */
    method OnFailure(error: Value) returns (call: Option<ListenerCall<L>>)
      ensures call.Some? <==> failureListener.Some?
      ensures call.Some? ==> call.value == FailureCall(failureListener.value, error)
      ensures Cancelled() ==> call == None
    {
      if failureListener.Some? {
        call := Some(FailureCall(failureListener.value, error));
      } else {
        call := None;
      }
    }

    /** Drops both listeners; the result does not depend on the previous state, so a second call changes nothing. */
    method Cancel()
      modifies this
      ensures Cancelled()
    {
      successListener := None;
      failureListener := None;
    }
  }

  /** Once cancelled, a subscription ignores both a late fulfilment and a late rejection. */
  method LateSettlementIsIgnored<L>(s: AsyncActionSubscription<L>, result: Value, error: Value)
    returns (onSuccess: Option<ListenerCall<L>>, onFailure: Option<ListenerCall<L>>)
    modifies s
    ensures s.Cancelled() && onSuccess == None && onFailure == None
  {
    s.Cancel();
    s.Cancel();
    onSuccess := s.OnSuccess(result);
    onFailure := s.OnFailure(error);
  }
}
