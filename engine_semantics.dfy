/**
 * What one level of src/core/StateMachine.js does, as functions of its
 * configuration and of the running state of the level and of the levels
 * below it. Each function returns the calls the engine makes, in order, the
 * new running state, the next free timer handle, and the error it throws.
 */
module EngineSemantics {
  import opened Wrappers
  import opened Values
  import opened EngineConfig
  import Errors

  const ConfigMissingMessage := "Configuration must be specified."
  const ConfigNotObjectMessage := "Configuration must be an object."
  const InitialStateMissingMessage := "Initial state must be specified."

  /**
   * A started level: its current state, its timer handles, and the started
   * submachine of the current state if there is one. A stopped level is `None`.
   */
  datatype Run = Run(state: StateId, timerIDs: Option<seq<TimerId>>, active: Option<Run>)

  /** What an operation does: its calls, the new running state, the next free timer handle, and what it throws. */
  datatype Effects = Effects(trace: seq<Entry>, run: Option<Run>, next: TimerId, error: Option<string>)

  /** What handling an event does, and whether some level took it. */
  datatype Handling = Handling(handled: bool, effects: Effects)

  /** The constructor's checks, in order, on the configuration it is given. */
  function ConstructionError(arg: ConfigArgument): (r: Option<string>)
    ensures r.None? <==> arg.ConfigObject? && arg.config.initialState.Some?
    ensures (arg.UndefinedConfig? || arg.NullConfig?) ==> r == Some(ConfigMissingMessage)
    ensures arg.NotAnObject? ==> r == Some(ConfigNotObjectMessage)
    ensures arg.ConfigObject? && arg.config.initialState.None? ==> r == Some(InitialStateMissingMessage)
  {
    match arg
    case UndefinedConfig => Some(ConfigMissingMessage)
    case NullConfig => Some(ConfigMissingMessage)
    case NotAnObject => Some(ConfigNotObjectMessage)
    case ConfigObject(c) => if c.initialState.None? then Some(InitialStateMissingMessage) else None
  }

  // ---------------------------------------------------------------- lookup

  /** A transition may be taken when it has no condition or its condition holds. */
  predicate Eligible(t: TransitionConfig, ctx: Context) {
    t.condition.None? || t.condition.value(ctx)
  }

  /** `selectTransition`: the index of the first eligible transition. */
  function FirstEligible(ts: seq<TransitionConfig>, ctx: Context): (r: Option<nat>)
    ensures r.Some? ==> r.value < |ts| && Eligible(ts[r.value], ctx)
    ensures r.Some? ==> forall j :: 0 <= j < r.value ==> !Eligible(ts[j], ctx)
    ensures r.None? <==> forall j :: 0 <= j < |ts| ==> !Eligible(ts[j], ctx)
  {
    if ts == [] then None
    else if Eligible(ts[0], ctx) then Some(0)
    else
      var r := FirstEligible(ts[1..], ctx);
      assert forall j :: 1 <= j < |ts| ==> ts[j] == ts[1..][j - 1];
      if r.Some? then Some(r.value + 1) else None
  }

  /** The transition `selectTransition` returns, or `None` for its `null`. */
  function Selected(ts: seq<TransitionConfig>, ctx: Context): Option<TransitionConfig> {
    match FirstEligible(ts, ctx)
    case None => None
    case Some(i) => Some(ts[i])
  }

  /** The configuration of the submachine of `state`, if the state has one. */
  function SubConfig(cfg: Config, state: StateId): Option<Config> {
    if state in cfg.states then cfg.states[state].submachine else None
  }

  /**
   * `getTransitionForEvent`: nothing without a state configuration or an
   * entry for the event; otherwise the first transition whose condition is
   * absent or holds, and nothing when every condition fails.
   */
  function TransitionFor(cfg: Config, current: Option<StateId>, ctx: Context): (r: Option<TransitionConfig>)
    ensures current.None? || current.value !in cfg.states ==> r.None?
    ensures (current.Some? && current.value in cfg.states &&
             (ctx.event.None? || ctx.event.value !in cfg.states[current.value].events)) ==> r.None?
    ensures (current.Some? && current.value in cfg.states &&
             ctx.event.Some? && ctx.event.value in cfg.states[current.value].events) ==>
      var ts := cfg.states[current.value].events[ctx.event.value].transitions;
      (r.None? <==> forall j :: 0 <= j < |ts| ==> !Eligible(ts[j], ctx)) &&
      (r.Some? ==> exists i :: 0 <= i < |ts| && ts[i] == r.value && Eligible(ts[i], ctx) &&
                     forall j :: 0 <= j < i ==> !Eligible(ts[j], ctx))
  {
    if current.None? || current.value !in cfg.states then None
    else
      var events := cfg.states[current.value].events;
      if ctx.event.None? || ctx.event.value !in events then None
      else Selected(events[ctx.event.value].transitions, ctx)
  }

  /** `createContext(event, eventPayload)`. */
  function EventContext(event: Option<EventId>, eventPayload: Option<Value>): Context {
    Context(event, eventPayload, None, None)
  }

  /**
   * `canHandle`: a stopped level handles nothing; otherwise the started
   * submachine is asked first, then this level's own transitions.
   */
  function CanHandle(cfg: Config, run: Option<Run>, event: Option<EventId>, eventPayload: Option<Value>): bool
    decreases cfg
  {
    run.Some? &&
    ((run.value.active.Some? && SubConfig(cfg, run.value.state).Some? &&
      CanHandle(SubConfig(cfg, run.value.state).value, run.value.active, event, eventPayload))
     || TransitionFor(cfg, Some(run.value.state), EventContext(event, eventPayload)).Some?)
  }

  // ---------------------------------------------------------------- timers

  /** The handles `setTimeout` returns for `n` timers started in a row. */
  function TimerIds(n: nat, next: TimerId): (ids: seq<TimerId>)
    ensures |ids| == n && forall i :: 0 <= i < n ==> ids[i] == next + i
  {
    seq(n, i requires 0 <= i < n => next + i)
  }

  /** One `setTimeout` per timer, in order. */
  function SetTimeouts(timers: seq<TimerConfig>, next: TimerId): (t: seq<Entry>)
    ensures |t| == |timers|
    ensures forall i :: 0 <= i < |timers| ==> t[i] == SetTimeout(next + i, timers[i].timeout)
  {
    seq(|timers|, i requires 0 <= i < |timers| => SetTimeout(next + i, timers[i].timeout))
  }

  /** `stopTimers`: one `clearTimeout` per handle, in order. */
  function ClearTimeouts(timerIDs: Option<seq<TimerId>>): (t: seq<Entry>)
    ensures timerIDs.None? ==> t == []
    ensures timerIDs.Some? ==>
      |t| == |timerIDs.value| && forall i :: 0 <= i < |t| ==> t[i] == ClearTimeout(timerIDs.value[i])
  {
    if timerIDs.None? then [] else
    seq(|timerIDs.value|, i requires 0 <= i < |timerIDs.value| => ClearTimeout(timerIDs.value[i]))
  }

  /** `startAsyncActions`: each action is called with the entered state and the context. */
  function AsyncStarts(state: StateId, actions: seq<AsyncActionConfig>, ctx: Context): (t: seq<Entry>)
    ensures |t| == |actions|
    ensures forall i :: 0 <= i < |actions| ==> t[i] == Invoke(AsyncAction, actions[i].action, AtState(state, ctx))
  {
    seq(|actions|, i requires 0 <= i < |actions| => Invoke(AsyncAction, actions[i].action, AtState(state, ctx)))
  }

  // ---------------------------------------------------------------- enter / exit

  /** The enter hooks, the entry actions of `state`, then the state-change hooks when the state changes. */
  function EnterHookCalls(cfg: Config, previous: Option<StateId>, state: StateId, ctx: Context): seq<Entry> {
    Invocations(StateEnterHook, cfg.stateEnterHooks, AtState(state, ctx))
    + (if state in cfg.states then Invocations(EntryAction, cfg.states[state].entryActions, AtState(state, ctx)) else [])
    + (if previous.Some? && previous.value != state
       then Invocations(StateChangeHook, cfg.stateChangeHooks, Between(previous.value, state, ctx)) else [])
  }

  /**
   * `enterState(state, context)` on a level whose previous state is `previous`
   * and which has no timers or subscriptions running: the enter hooks, the
   * state's entry actions, the state-change hooks, then the asynchronous
   * actions, the timers and the submachine of the entered state.
   */
  function EnterEffects(cfg: Config, previous: Option<StateId>, state: StateId, ctx: Context, next: TimerId): (e: Effects)
    ensures e.run.Some? && e.run.value.state == state
    decreases cfg, 1
  {
    var own := EnterHookCalls(cfg, previous, state, ctx);
    if state !in cfg.states then Effects(own, Some(Run(state, None, None)), next, None)
    else
      var sc := cfg.states[state];
      var timerIDs := if |sc.timers| > 0 then Some(TimerIds(|sc.timers|, next)) else None;
      var started := own + AsyncStarts(state, sc.asyncActions, ctx) + SetTimeouts(sc.timers, next);
      var afterTimers := next + |sc.timers|;
      if sc.submachine.None? then Effects(started, Some(Run(state, timerIDs, None)), afterTimers, None)
      else
        var sub := SubmachineStart(sc.submachine.value, afterTimers);
        Effects(started + sub.trace, Some(Run(state, timerIDs, sub.run)), sub.next, sub.error)
  }

  /** `start()`: enters the initial state with an empty context, only when stopped. */
  function Start(cfg: Config, run: Option<Run>, next: TimerId): (e: Effects)
    requires run.None? ==> cfg.initialState.Some?
    decreases cfg, 2
  {
    if run.Some? then Effects([], run, next, None)
    else EnterEffects(cfg, None, cfg.initialState.value, EmptyContext, next)
  }

  /** `new StateMachine(config, this).start()` for a stopped submachine: the constructor may throw first. */
  function SubmachineStart(cfg: Config, next: TimerId): (e: Effects)
    decreases cfg, 3
  {
    if cfg.initialState.None? then Effects([], None, next, Some(InitialStateMissingMessage))
    else Start(cfg, None, next)
  }

  /**
   * `exitState(context)`: stops the started submachine (which exits with a
   * context of its own), clears the timers, then runs the exit hooks and the
   * state's exit actions. Cancelling subscriptions makes no call.
   */
  function ExitEffects(cfg: Config, run: Run, ctx: Context): seq<Entry>
    decreases run, 1
  {
    StopActive(cfg, run) + ClearTimeouts(run.timerIDs)
      + Invocations(StateExitHook, cfg.stateExitHooks, AtState(run.state, ctx))
      + (if run.state in cfg.states then Invocations(ExitAction, cfg.states[run.state].exitActions, AtState(run.state, ctx)) else [])
  }

  /** `stopSubmachines`: the started submachine of the current state exits with an empty context of its own. */
  function StopActive(cfg: Config, run: Run): seq<Entry>
    decreases run, 0
  {
    match run.active
    case None => []
    case Some(a) => (match SubConfig(cfg, run.state)
      case None => []
      case Some(c) => ExitEffects(c, a, EmptyContext))
  }

  /** `stop()`: exits with an empty context, only when started. */
  function Stop(cfg: Config, run: Option<Run>, next: TimerId): (e: Effects) {
    if run.None? then Effects([], None, next, None)
    else Effects(ExitEffects(cfg, run.value, EmptyContext), None, next, None)
  }

  /** The state a transition leads to: its target, or the current state when the target is `null`. */
  function NextState(t: TransitionConfig, current: StateId): StateId {
    if t.targetState.Some? then t.targetState.value else current
  }

  /**
   * `executeTransition`: unless internal, exit; then the transition hooks and
   * the transition's actions with the current and next state; unless internal,
   * enter the next state.
   */
  function TransitionEffects(cfg: Config, run: Run, t: TransitionConfig, ctx: Context, next: TimerId): Effects {
    var target := NextState(t, run.state);
    var hooks := Invocations(TransitionHook, cfg.transitionHooks, Between(run.state, target, ctx))
      + Invocations(TransitionAction, t.actions, Between(run.state, target, ctx));
    if t.isInternal then Effects(hooks, Some(run), next, None)
    else
      var e := EnterEffects(cfg, Some(run.state), target, ctx, next);
      Effects(ExitEffects(cfg, run, ctx) + hooks + e.trace, e.run, e.next, e.error)
  }

  /** How `${value}` shows an event that was not given, and a state that is `null`. */
  function ShowEvent(event: Option<EventId>): string {
    if event.Some? then event.value else "undefined"
  }

  function ShowState(state: Option<StateId>): string {
    if state.Some? then state.value else "null"
  }

  /** `handleUnhandledEvent`: the unhandled-event hooks if there are any, otherwise a throw. */
  function UnhandledEffects(cfg: Config, run: Option<Run>, ctx: Context, next: TimerId): Effects {
    var current := if run.Some? then Some(run.value.state) else None;
    if |cfg.unhandledEventHooks| > 0
    then Effects(Invocations(UnhandledEventHook, cfg.unhandledEventHooks, ForEvent(ctx.event, current, ctx)), run, next, None)
    else Effects([], run, next, Some(Errors.UnhandledEventMessage(ShowEvent(ctx.event), ShowState(current))))
  }

  /** The started submachine's results, seen from its parent's level. */
  function Lift(run: Run, sub: Effects): Effects {
    Effects(sub.trace, Some(Run(run.state, run.timerIDs, sub.run)), sub.next, sub.error)
  }

  /**
   * `internalHandle`: the started submachine of the current state first; if
   * it does not take the event, this level's own transition; if there is none,
   * a level without a parent reports the event as unhandled.
   */
  function HandleEffects(cfg: Config, run: Option<Run>, isRoot: bool, event: Option<EventId>, eventPayload: Option<Value>, next: TimerId): Handling
    decreases cfg
  {
    var sub :=
      if run.Some? && run.value.active.Some? && SubConfig(cfg, run.value.state).Some?
      then Some(HandleEffects(SubConfig(cfg, run.value.state).value, run.value.active, false, event, eventPayload, next))
      else None;
    if sub.Some? && (sub.value.handled || sub.value.effects.error.Some?)
    then Handling(sub.value.handled, Lift(run.value, sub.value.effects))
    else OwnHandling(cfg, run, isRoot, event, eventPayload, next)
  }

  /**
   * This level's own part of `internalHandle`: its transition for the event;
   * when there is none, the unhandled-event report at a level without a parent.
   */
  function OwnHandling(cfg: Config, run: Option<Run>, isRoot: bool, event: Option<EventId>, eventPayload: Option<Value>, next: TimerId): Handling {
    var ctx := EventContext(event, eventPayload);
    var current := if run.Some? then Some(run.value.state) else None;
    var t := TransitionFor(cfg, current, ctx);
    if t.Some? then Handling(true, TransitionEffects(cfg, run.value, t.value, ctx, next))
    else if isRoot then Handling(false, UnhandledEffects(cfg, run, ctx, next))
    else Handling(false, Effects([], run, next, None))
  }

  /** `executeTrigger`: the first eligible transition of the trigger, if any, with the given context. */
  function TriggerEffects(cfg: Config, run: Run, transitions: seq<TransitionConfig>, ctx: Context, next: TimerId): Effects {
    match Selected(transitions, ctx)
    case None => Effects([], Some(run), next, None)
    case Some(t) => TransitionEffects(cfg, run, t, ctx, next)
  }

  /** The context of an asynchronous action's completion. */
  function SuccessContext(result: Value): Context { Context(None, None, Some(result), None) }
  function FailureContext(error: Value): Context { Context(None, None, None, Some(error)) }

  // ---------------------------------------------------------------- structure

  /** Every started level below a state has a submachine configuration to run. */
  predicate Fits(cfg: Config, run: Run)
    decreases run
  {
    run.active.Some? ==> SubConfig(cfg, run.state).Some? && Fits(SubConfig(cfg, run.state).value, run.active.value)
  }

  /** The current state of each started level, outermost first. */
  function Hierarchy(run: Option<Run>): (h: seq<StateId>)
    ensures run.Some? ==> |h| >= 1 && h[0] == run.value.state
    decreases run
  {
    if run.None? then [] else [run.value.state] + Hierarchy(run.value.active)
  }

  /** Every timer handle held by a level or by a started level below it. */
  function AllTimers(run: Run): set<TimerId>
    decreases run
  {
    (if run.timerIDs.Some? then set i | 0 <= i < |run.timerIDs.value| :: run.timerIDs.value[i] else {})
    + (if run.active.Some? then AllTimers(run.active.value) else {})
  }

  /** No state-change hook in a list of calls. */
  predicate NoStateChange(t: seq<Entry>) {
    forall i :: 0 <= i < |t| ==> !(t[i].Invoke? && t[i].kind == StateChangeHook)
  }
}
