/** Model of src/core/Errors.js: the error classes the engine raises. */
module Errors {
  import opened Wrappers

  const UnhandledPrefix := "Unhandled event '"
  const UnhandledMiddle := "' in state '"
  const UnhandledSuffix := "'."
  const NotStartedMessage := "Cannot handle events before starting the state machine!"

  /** `Unhandled event '<event>' in state '<state>'.` */
  function UnhandledEventMessage(event: string, state: string): string {
    UnhandledPrefix + event + UnhandledMiddle + state + UnhandledSuffix
  }

  /**
   * The three subclasses of `Error`. Every one carries the `message` that its
   * constructor passes to `super`; the other fields are the ones the
   * constructor assigns. `C` is the type of handling contexts, `M` the type of
   * state machines.
   */
  datatype Error<C, M> =
    | UnhandledEventError(message: string, event: string, state: string, context: C)
    | StateMachineNotStartedError(message: string, stateMachine: M)
    | StateMachineConfigError(message: string)

  /** `new UnhandledEventError(event, state, context)`; event and state are shown with `toString`. */
  function NewUnhandledEventError<C, M>(event: string, state: string, context: C): (e: Error<C, M>)
    ensures e.UnhandledEventError?
    ensures e.event == event && e.state == state && e.context == context
    ensures ParseUnhandledEventMessage(e.message) == Some((event, state)) || '\'' in event
  {
    UnhandledEventMessageRoundTrip(event, state);
    UnhandledEventError(UnhandledEventMessage(event, state), event, state, context)
  }

  /** `new StateMachineNotStartedError(stateMachine)`: a fixed message and the machine. */
  function NewStateMachineNotStartedError<C, M>(stateMachine: M): (e: Error<C, M>)
    ensures e.StateMachineNotStartedError? && e.stateMachine == stateMachine
    ensures e.message == "Cannot handle events before starting the state machine!"
  {
    StateMachineNotStartedError(NotStartedMessage, stateMachine)
  }

  /** `new StateMachineConfigError(message)`: an `Error` that adds no field of its own. */
  function NewStateMachineConfigError<C, M>(message: string): (e: Error<C, M>)
    ensures e.StateMachineConfigError? && e.message == message
  {
    StateMachineConfigError(message)
  }

  /** Index of the first quote character of `s` at or after `from`, if any. */
  function FindQuote(s: string, from: nat): (r: Option<nat>)
    requires from <= |s|
    ensures r.Some? ==> from <= r.value < |s| && s[r.value] == '\''
    ensures r.Some? ==> forall j :: from <= j < r.value ==> s[j] != '\''
    ensures r.None? ==> forall j :: from <= j < |s| ==> s[j] != '\''
    decreases |s| - from
  {
    if from == |s| then None
    else if s[from] == '\'' then Some(from)
    else FindQuote(s, from + 1)
  }

  /**
   * Reads an unhandled-event message back: the event runs up to the first quote
   * after the prefix, the state is what lies between the middle part and the suffix.
   */
  function ParseUnhandledEventMessage(msg: string): Option<(string, string)> {
    var p := |UnhandledPrefix|;
    if |msg| < p || msg[..p] != UnhandledPrefix then None
    else match FindQuote(msg, p)
      case None => None
      case Some(q) =>
        var event := msg[p..q];
        var rest := msg[q..];
        var m := |UnhandledMiddle|;
        var f := |UnhandledSuffix|;
        if |rest| < m + f || rest[..m] != UnhandledMiddle || rest[|rest| - f..] != UnhandledSuffix then None
        else Some((event, rest[m..|rest| - f]))
  }

  /** The message determines the event and the state whenever the event contains no quote. */
  lemma {:induction false} UnhandledEventMessageRoundTrip(event: string, state: string)
    ensures '\'' !in event ==> ParseUnhandledEventMessage(UnhandledEventMessage(event, state)) == Some((event, state))
  {
    if '\'' !in event {
      var msg := UnhandledEventMessage(event, state);
      var p := |UnhandledPrefix|;
      assert msg[..p] == UnhandledPrefix;
      assert msg[p + |event|] == '\'';
      assert forall j :: p <= j < p + |event| ==> msg[j] == event[j - p];
      var q := FindQuote(msg, p);
      assert q.Some? && q.value == p + |event|;
      assert msg[p..q.value] == event;
      var rest := msg[q.value..];
      assert rest == UnhandledMiddle + state + UnhandledSuffix;
    }
  }

  /** Two unhandled-event messages for quote-free events are equal only for the same event and state. */
  lemma UnhandledEventMessageInjective(e1: string, s1: string, e2: string, s2: string)
    requires '\'' !in e1 && '\'' !in e2
    requires UnhandledEventMessage(e1, s1) == UnhandledEventMessage(e2, s2)
    ensures e1 == e2 && s1 == s2
  {
    UnhandledEventMessageRoundTrip(e1, s1);
    UnhandledEventMessageRoundTrip(e2, s2);
  }
}
