/**
 * The configuration tree read by src/core/StateMachine.js, the handling
 * context, and the record of every call the engine makes to user-supplied
 * hooks and actions or to the host's timer service.
 */
module EngineConfig {
  import opened Wrappers
  import opened Values

  /** State and event identifiers are opaque keys; JavaScript object keys are strings. */
  type StateId = string
  type EventId = string
  /** Names a user-supplied hook or action function. */
  type Label = string
  /** A handle returned by the host's `setTimeout`. */
  type TimerId = nat

  /**
   * The context created for one operation (`createContext`): the triggering
   * event and payload if given, and for asynchronous completions the result
   * or error. The `stateMachine` back-reference is not part of the model.
   */
  datatype Context = Context(event: Option<EventId>, eventPayload: Option<Value>, result: Option<Value>, error: Option<Value>)

  /** `createContext()` with no arguments. */
  const EmptyContext := Context(None, None, None, None)

  /** A guard: a pure predicate over the context. */
  type Condition = Context -> bool

  datatype TransitionConfig = TransitionConfig(
    targetState: Option<StateId>,
    isInternal: bool,
    actions: seq<Label>,
    condition: Option<Condition>)

  /** An event's (or an async outcome's) ordered list of candidate transitions. */
  datatype TriggerConfig = TriggerConfig(transitions: seq<TransitionConfig>)

  /** A timer: a timeout and its own list of transitions. */
  datatype TimerConfig = TimerConfig(timeout: int, transitions: seq<TransitionConfig>)

  datatype AsyncActionConfig = AsyncActionConfig(action: Label, onSuccess: TriggerConfig, onFailure: TriggerConfig)

  datatype StateConfig = StateConfig(
    entryActions: seq<Label>,
    exitActions: seq<Label>,
    events: map<EventId, TriggerConfig>,
    timers: seq<TimerConfig>,
    asyncActions: seq<AsyncActionConfig>,
    submachine: Option<Config>)

  /** `initialState` is `None` when it is `undefined` or `null`. */
  datatype Config = Config(
    initialState: Option<StateId>,
    states: map<StateId, StateConfig>,
    stateEnterHooks: seq<Label>,
    stateExitHooks: seq<Label>,
    stateChangeHooks: seq<Label>,
    transitionHooks: seq<Label>,
    unhandledEventHooks: seq<Label>)

  /** The argument given to the constructor, which need not be an object at all. */
  datatype ConfigArgument = UndefinedConfig | NullConfig | NotAnObject | ConfigObject(config: Config)

  /** The user-supplied functions the engine calls, by role. */
  datatype HookKind =
    | StateEnterHook | EntryAction | StateChangeHook
    | StateExitHook | ExitAction
    | TransitionHook | TransitionAction
    | UnhandledEventHook | AsyncAction

  /** The arguments a hook or action is called with. */
  datatype Args =
    | AtState(state: StateId, context: Context)
    | Between(from: StateId, to: StateId, context: Context)
    | ForEvent(event: Option<EventId>, inState: Option<StateId>, context: Context)

  /** One call out of the engine, in the order the engine makes them. */
  datatype Entry =
    | Invoke(kind: HookKind, name: Label, args: Args)
    | SetTimeout(id: TimerId, timeout: int)
    | ClearTimeout(id: TimerId)

  /** `executeHandlers(labels, ...args)`: each function in list order, with the same arguments. */
  function Invocations(kind: HookKind, labels: seq<Label>, args: Args): (t: seq<Entry>)
    ensures |t| == |labels|
    ensures forall i :: 0 <= i < |labels| ==> t[i] == Invoke(kind, labels[i], args)
  {
    seq(|labels|, i requires 0 <= i < |labels| => Invoke(kind, labels[i], args))
  }
}
