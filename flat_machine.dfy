/**
 * Model of src/StateMachine.js, the earlier, flat state machine: one level,
 * single handler slots, one action per transition, and an event queue of its
 * own. The functions user code supplies are foreign calls; what one does that
 * the machine can see is described by `Foreign`: the guards' answers, and for
 * every other call the events it hands back to `handle` (re-entrantly) and
 * whether it then throws.
 */
module Flat {
  import opened Wrappers
  import EngineSemantics

  type StateId = string
  type EventId = string
  /** Names a user-supplied function. */
  type Label = string
  /** The value of `currentState`: `None` is `null`. */
  type State = Option<StateId>

  // ---------------------------------------------------------------- configuration

  /** `{ targetState, isInternal, action, condition }`; `targetState` is `None` for `null`. */
  datatype Transition = Transition(targetState: State, isInternal: bool, action: Option<Label>, condition: Option<Label>)

  datatype EventConfig = EventConfig(transitions: seq<Transition>)

  datatype StateConfig = StateConfig(entryAction: Option<Label>, exitAction: Option<Label>, events: map<EventId, EventConfig>)

  /** `initialState` may be `null`, but not `undefined`. */
  datatype InitialState = Unset | Initial(state: State)

  datatype Config = Config(
    initialState: InitialState,
    states: map<StateId, StateConfig>,
    stateEnterHandler: Option<Label>,
    stateExitHandler: Option<Label>,
    transitionHandler: Option<Label>,
    unhandledEventHandler: Option<Label>)

  /** The argument given to the constructor. */
  datatype Argument = UndefinedConfig | NullConfig | NotAnObject | ConfigObject(config: Config)

  /** `config.states[state]`; there is no configuration for `null`. */
  function StateConfigOf(cfg: Config, state: State): Option<StateConfig> {
    if state.Some? && state.value in cfg.states then Some(cfg.states[state.value]) else None
  }

  // ---------------------------------------------------------------- foreign calls

  datatype Role =
    | StateExitHandler | ExitAction
    | TransitionHandler | TransitionAction
    | StateEnterHandler | EntryAction
    | UnhandledEventHandler

  datatype CallArgs = OfState(state: State) | FromTo(from: State, to: State) | EventIn(event: EventId, state: State)

  /** A call of a user-supplied function, other than a guard. */
  datatype Call = Call(role: Role, fn: Label, args: CallArgs)

  /** A call as it happened: the call, and the machine's `currentState` at that moment. */
  datatype Invoked = Invoked(call: Call, currentState: State)

  /** What a call does: the events it passes to `handle`, in order, then possibly a throw. */
  datatype Reaction = Reaction(raised: seq<EventId>, error: Option<string>)

  /** The user code: each guard's answer (guards are called without arguments), and each call's reaction. */
  datatype Foreign = Foreign(guards: Label -> bool, react: Call -> Reaction)

  // ---------------------------------------------------------------- construction

  /** The constructor's checks, in order. */
  function ConstructionError(arg: Argument): (r: Option<string>)
    ensures r.None? <==> arg.ConfigObject? && arg.config.initialState.Initial?
    ensures (arg.UndefinedConfig? || arg.NullConfig?) ==> r == Some(EngineSemantics.ConfigMissingMessage)
    ensures arg.NotAnObject? ==> r == Some(EngineSemantics.ConfigNotObjectMessage)
    ensures arg.ConfigObject? && arg.config.initialState.Unset? ==> r == Some(EngineSemantics.InitialStateMissingMessage)
  {
    match arg
    case UndefinedConfig => Some(EngineSemantics.ConfigMissingMessage)
    case NullConfig => Some(EngineSemantics.ConfigMissingMessage)
    case NotAnObject => Some(EngineSemantics.ConfigNotObjectMessage)
    case ConfigObject(c) => if c.initialState.Unset? then Some(EngineSemantics.InitialStateMissingMessage) else None
  }

  // ---------------------------------------------------------------- transition lookup

  /** `!t.condition || t.condition()`. */
  predicate Eligible(foreign: Foreign, t: Transition) {
    t.condition.None? || foreign.guards(t.condition.value)
  }

  /** `transitions.find(...)`, as an index: the first eligible transition. */
  function FirstEligible(foreign: Foreign, ts: seq<Transition>): (r: Option<nat>)
    ensures r.Some? ==> (r.value < |ts| && Eligible(foreign, ts[r.value]) &&
                         forall j :: 0 <= j < r.value ==> !Eligible(foreign, ts[j]))
    ensures r.None? <==> forall j :: 0 <= j < |ts| ==> !Eligible(foreign, ts[j])
    decreases |ts|
  {
    if |ts| == 0 then None
    else if Eligible(foreign, ts[0]) then Some(0)
    else match FirstEligible(foreign, ts[1..])
      case None => None
      case Some(i) => Some(i + 1)
  }

  /**
   * `getTransition(event)`: none when the state has no configuration or no
   * entry for the event; otherwise the first transition whose guard is absent
   * or true, and none when every guard is false.
   */
  function TransitionFor(cfg: Config, foreign: Foreign, state: State, event: EventId): (r: Option<Transition>)
    ensures StateConfigOf(cfg, state).None? ==> r.None?
    ensures StateConfigOf(cfg, state).Some? && event !in StateConfigOf(cfg, state).value.events ==> r.None?
    ensures StateConfigOf(cfg, state).Some? && event in StateConfigOf(cfg, state).value.events ==>
      var ts := StateConfigOf(cfg, state).value.events[event].transitions;
      (r.None? <==> forall j :: 0 <= j < |ts| ==> !Eligible(foreign, ts[j])) &&
      (r.Some? ==> exists i :: 0 <= i < |ts| && ts[i] == r.value && Eligible(foreign, ts[i]) &&
                     forall j :: 0 <= j < i ==> !Eligible(foreign, ts[j]))
  {
    match StateConfigOf(cfg, state)
    case None => None
    case Some(sc) =>
      if event !in sc.events then None
      else
        var ts := sc.events[event].transitions;
        match FirstEligible(foreign, ts)
        case None => None
        case Some(i) => Some(ts[i])
  }

  // ---------------------------------------------------------------- one event

  /** `State '<state>' cannot handle event '<event>'.`; a `null` state is shown as `null`. */
  function CannotHandleMessage(state: State, event: EventId): string {
    "State '" + (if state.Some? then state.value else "null") + "' cannot handle event '" + event + "'."
  }

  /** The call of an optional handler slot: none when the slot is empty. */
  function IfSet(role: Role, fn: Option<Label>, args: CallArgs): (calls: seq<Call>)
    ensures |calls| <= 1
    ensures calls == [] <==> fn.None?
  {
    if fn.Some? then [Call(role, fn.value, args)] else []
  }

  /** `targetState !== null ? targetState : currentState`. */
  function NextState(t: Transition, state: State): State {
    if t.targetState.Some? then t.targetState else state
  }

  /** Leaving `state`: the exit handler, then the state's exit action. */
  function ExitCalls(cfg: Config, state: State): seq<Call> {
    IfSet(StateExitHandler, cfg.stateExitHandler, OfState(state)) +
    IfSet(ExitAction, ExitActionOf(cfg, state), OfState(state))
  }

  /** `config.states[state].exitAction`, absent when the state has no configuration. */
  function ExitActionOf(cfg: Config, state: State): Option<Label> {
    if StateConfigOf(cfg, state).Some? then StateConfigOf(cfg, state).value.exitAction else None
  }

  /** `config.states[state].entryAction`, absent when the state has no configuration. */
  function EntryActionOf(cfg: Config, state: State): Option<Label> {
    if StateConfigOf(cfg, state).Some? then StateConfigOf(cfg, state).value.entryAction else None
  }

  /** The transition itself: the transition handler, then the transition's action, both with (current, next). */
  function TransitionCalls(cfg: Config, t: Transition, state: State): seq<Call> {
    var next := NextState(t, state);
    IfSet(TransitionHandler, cfg.transitionHandler, FromTo(state, next)) +
    IfSet(TransitionAction, t.action, FromTo(state, next))
  }

  /** Entering `next`: the enter handler, then the entry action of `next` if it is configured. */
  function EnterCalls(cfg: Config, next: State): seq<Call> {
    IfSet(StateEnterHandler, cfg.stateEnterHandler, OfState(next)) +
    IfSet(EntryAction, EntryActionOf(cfg, next), OfState(next))
  }

  /** What `handleCore` sets out to do: its calls in order, the state it ends in, and what it throws itself. */
  datatype Plan = Plan(calls: seq<Call>, next: State, error: Option<string>)

  function PlanFor(cfg: Config, foreign: Foreign, state: State, event: EventId): Plan {
    match TransitionFor(cfg, foreign, state, event)
    case None =>
      if cfg.unhandledEventHandler.Some? then
        Plan([Call(UnhandledEventHandler, cfg.unhandledEventHandler.value, EventIn(event, state))], state, None)
      else Plan([], state, Some(CannotHandleMessage(state, event)))
    case Some(t) =>
      if t.isInternal then Plan(TransitionCalls(cfg, t, state), state, None)
      else Plan(ExitCalls(cfg, state) + TransitionCalls(cfg, t, state) + EnterCalls(cfg, NextState(t, state)), NextState(t, state), None)
  }

  /** What a run of calls did: the calls made, the events they raised, and the error that stopped them. */
  datatype Performed = Performed(trace: seq<Invoked>, raised: seq<EventId>, error: Option<string>)

  /** Making `calls` in order while `currentState` is `during`; a throw ends the run. */
  function RunCalls(foreign: Foreign, calls: seq<Call>, during: State): Performed
    decreases |calls|
  {
    if calls == [] then Performed([], [], None)
    else
      var c := foreign.react(calls[0]);
      if c.error.Some? then Performed([Invoked(calls[0], during)], c.raised, c.error)
      else
        var rest := RunCalls(foreign, calls[1..], during);
        Performed([Invoked(calls[0], during)] + rest.trace, c.raised + rest.raised, rest.error)
  }

  /**
   * The calls are made in list order, all while `currentState` is `during`;
   * they all are made unless one throws, and then the throwing call is the
   * last one made.
   */
  lemma {:induction false} RunCallsInOrder(foreign: Foreign, calls: seq<Call>, during: State)
    ensures var r := RunCalls(foreign, calls, during);
      |r.trace| <= |calls| &&
      (forall i :: 0 <= i < |r.trace| ==> r.trace[i] == Invoked(calls[i], during)) &&
      (r.error.None? ==> |r.trace| == |calls|) &&
      (r.error.Some? ==> 0 < |r.trace| && r.error == foreign.react(calls[|r.trace| - 1]).error)
    decreases |calls|
  {
    if calls != [] && foreign.react(calls[0]).error.None? {
      RunCallsInOrder(foreign, calls[1..], during);
    }
  }

  /** An empty slot makes no call; a set slot makes its one call. */
  lemma RunCallsIfSet(foreign: Foreign, role: Role, fn: Option<Label>, args: CallArgs, during: State)
    ensures RunCalls(foreign, IfSet(role, fn, args), during) ==
      if fn.None? then Performed([], [], None)
      else
        var c := Call(role, fn.value, args);
        Performed([Invoked(c, during)], foreign.react(c).raised, foreign.react(c).error)
  {
    if fn.Some? {
      var c := Call(role, fn.value, args);
      assert IfSet(role, fn, args)[1..] == [];
      assert foreign.react(c).raised + [] == foreign.react(c).raised;
    }
  }

  /** Making `a` and then `b` is making `a + b`, unless `a` throws. */
  lemma {:induction false} RunCallsAppend(foreign: Foreign, a: seq<Call>, b: seq<Call>, during: State)
    ensures var ra := RunCalls(foreign, a, during);
      RunCalls(foreign, a + b, during) ==
        if ra.error.Some? then ra
        else
          var rb := RunCalls(foreign, b, during);
          Performed(ra.trace + rb.trace, ra.raised + rb.raised, rb.error)
    decreases |a|
  {
    if a == [] {
      assert a + b == b;
    } else {
      assert (a + b)[0] == a[0] && (a + b)[1..] == a[1..] + b;
      var c := foreign.react(a[0]);
      if c.error.None? {
        RunCallsAppend(foreign, a[1..], b, during);
        var ra' := RunCalls(foreign, a[1..], during);
        var rb := RunCalls(foreign, b, during);
        if ra'.error.None? {
          assert [Invoked(a[0], during)] + (ra'.trace + rb.trace) == ([Invoked(a[0], during)] + ra'.trace) + rb.trace;
          assert c.raised + (ra'.raised + rb.raised) == (c.raised + ra'.raised) + rb.raised;
        }
      }
    }
  }

  /** Appending in two steps is appending the concatenation. */
  lemma AppendTwo<T>(t: seq<T>, a: seq<T>, b: seq<T>)
    ensures t + a + b == t + (a + b)
  {
  }

  /** What `handleCore(event)` does: calls, raised events, the new state, and what escapes it. */
  datatype Step = Step(trace: seq<Invoked>, raised: seq<EventId>, state: State, error: Option<string>)

  /** A throw from a user function escapes with the state unchanged; `currentState` is assigned only after every call. */
  function CoreStep(cfg: Config, foreign: Foreign, state: State, event: EventId): Step {
    var p := PlanFor(cfg, foreign, state, event);
    var r := RunCalls(foreign, p.calls, state);
    if r.error.Some? then Step(r.trace, r.raised, state, r.error)
    else Step(r.trace, r.raised, p.next, p.error)
  }

  // ---------------------------------------------------------------- the queue

  /** A cascade of handled events: which ones, in order, the calls made, the final state and how it ends. */
  datatype Cascade = Cascade(handled: seq<EventId>, trace: seq<Invoked>, state: State, outcome: Outcome, finished: bool)

  /** How `handleCore` treats one event in a given state. */
  type Stepper = (State, EventId) -> Step

  /** `handleCore` of the machine with configuration `cfg`. */
  function StepperOf(cfg: Config, foreign: Foreign): (step: Stepper)
    ensures forall state, event :: step(state, event) == CoreStep(cfg, foreign, state, event)
  {
    (state, event) => CoreStep(cfg, foreign, state, event)
  }

  /** Handling the queue `q` with at most `fuel` steps: head first, raised events to the back, a throw stops everything. */
  function Drain(step: Stepper, state: State, q: seq<EventId>, fuel: nat): (d: Cascade)
    ensures d.finished && q != [] ==> fuel > 0
    decreases fuel
  {
    if q == [] then Cascade([], [], state, Returned, true)
    else if fuel == 0 then Cascade([], [], state, Returned, false)
    else
      var s := step(state, q[0]);
      if s.error.Some? then Cascade([q[0]], s.trace, s.state, Threw(s.error.value), true)
      else
        var rest := Drain(step, s.state, q[1..] + s.raised, fuel - 1);
        Cascade([q[0]] + rest.handled, s.trace + rest.trace, rest.state, rest.outcome, rest.finished)
  }

  /** The cascade an idle `handle(event)` starts ends; otherwise its loop would never return. */
  ghost predicate Terminates(step: Stepper, state: State, event: EventId) {
    exists fuel: nat :: Drain(step, state, [event], fuel).finished
  }

  /** The whole cascade of an idle `handle(event)`. */
  ghost function HandleRun(step: Stepper, state: State, event: EventId): (d: Cascade)
    requires Terminates(step, state, event)
    ensures d.finished
  {
    var fuel: nat :| Drain(step, state, [event], fuel).finished;
    Drain(step, state, [event], fuel)
  }

  /** Once a drain finishes, more fuel changes nothing. */
  lemma {:induction false} DrainMoreFuel(step: Stepper, state: State, q: seq<EventId>, n: nat, m: nat)
    requires Drain(step, state, q, n).finished && n <= m
    ensures Drain(step, state, q, m) == Drain(step, state, q, n)
    decreases n
  {
    if q != [] {
      var s := step(state, q[0]);
      if s.error.None? {
        DrainMoreFuel(step, s.state, q[1..] + s.raised, n - 1, m - 1);
      }
    }
  }

  /** `HandleRun` is the drain for any amount of fuel that finishes. */
  lemma HandleRunIsAnyFinishingDrain(step: Stepper, state: State, event: EventId, fuel: nat)
    requires Drain(step, state, [event], fuel).finished
    ensures Terminates(step, state, event)
    ensures HandleRun(step, state, event) == Drain(step, state, [event], fuel)
  {
    var fuel': nat :| Drain(step, state, [event], fuel').finished && HandleRun(step, state, event) == Drain(step, state, [event], fuel');
    if fuel <= fuel' {
      DrainMoreFuel(step, state, [event], fuel, fuel');
    } else {
      DrainMoreFuel(step, state, [event], fuel', fuel);
    }
  }

  /** FIFO: when a drain returns normally, the queued events are the first handled, in queue order. */
  lemma {:induction false} QueuedEventsHandledFirst(step: Stepper, state: State, q: seq<EventId>, fuel: nat)
    requires Drain(step, state, q, fuel).finished && Drain(step, state, q, fuel).outcome == Returned
    ensures |q| <= |Drain(step, state, q, fuel).handled|
    ensures Drain(step, state, q, fuel).handled[..|q|] == q
    decreases fuel
  {
    if q != [] {
      var s := step(state, q[0]);
      var q' := q[1..] + s.raised;
      QueuedEventsHandledFirst(step, s.state, q', fuel - 1);
      var rest := Drain(step, s.state, q', fuel - 1).handled;
      assert rest[..|q'|] == q';
      assert rest[..|q| - 1] == q'[..|q| - 1] == q[1..];
    }
  }

  /**
   * The events raised while `handle(event)` handles its own event are the
   * next ones handled, in the order they were raised.
   */
  lemma RaisedEventsHandledNext(step: Stepper, state: State, event: EventId)
    requires Terminates(step, state, event)
    requires HandleRun(step, state, event).outcome == Returned
    ensures var raised := step(state, event).raised;
      var handled := HandleRun(step, state, event).handled;
      |handled| >= 1 + |raised| && handled[0] == event && handled[1..1 + |raised|] == raised
  {
    var fuel: nat :| Drain(step, state, [event], fuel).finished && HandleRun(step, state, event) == Drain(step, state, [event], fuel);
    var s := step(state, event);
    var d := Drain(step, state, [event], fuel);
    assert d.outcome == Returned;
    assert s.error.None?;
    assert [event][1..] + s.raised == s.raised;
    var rest := Drain(step, s.state, s.raised, fuel - 1);
    assert d.handled == [event] + rest.handled;
    QueuedEventsHandledFirst(step, s.state, s.raised, fuel - 1);
    assert d.handled[1..] == rest.handled;
  }

  // ---------------------------------------------------------------- properties of one event

  /** Unhandled event: the unhandled-event handler is called with (event, state) and the state is kept; without one, the message is thrown and nothing is called. */
  lemma UnhandledEvent(cfg: Config, foreign: Foreign, state: State, event: EventId)
    requires TransitionFor(cfg, foreign, state, event).None?
    ensures var s := CoreStep(cfg, foreign, state, event);
      s.state == state &&
      if cfg.unhandledEventHandler.Some? then
        s.trace == [Invoked(Call(UnhandledEventHandler, cfg.unhandledEventHandler.value, EventIn(event, state)), state)] &&
        s.error == foreign.react(Call(UnhandledEventHandler, cfg.unhandledEventHandler.value, EventIn(event, state))).error
      else s.trace == [] && s.raised == [] && s.error == Some(CannotHandleMessage(state, event))
  {
    if cfg.unhandledEventHandler.Some? {
      RunCallsIfSet(foreign, UnhandledEventHandler, cfg.unhandledEventHandler, EventIn(event, state), state);
    }
  }

  /** An internal transition calls only the transition handler and action, with (state, next), and keeps the state. */
  lemma InternalTransitionKeepsState(cfg: Config, foreign: Foreign, state: State, event: EventId)
    requires TransitionFor(cfg, foreign, state, event).Some? && TransitionFor(cfg, foreign, state, event).value.isInternal
    ensures var s := CoreStep(cfg, foreign, state, event);
      s.state == state &&
      forall i :: 0 <= i < |s.trace| ==> s.trace[i].call.role in {TransitionHandler, TransitionAction}
  {
    var t := TransitionFor(cfg, foreign, state, event).value;
    var calls := TransitionCalls(cfg, t, state);
    assert forall i :: 0 <= i < |calls| ==> calls[i].role in {TransitionHandler, TransitionAction};
    RunCallsInOrder(foreign, calls, state);
  }

  /**
   * A transition that is not internal and whose calls all return goes to
   * `targetState`, or stays in the same state (exiting and re-entering it)
   * when `targetState` is null; either way its calls are the exit calls, the
   * transition calls and the enter calls, in that order, all made while
   * `currentState` is still the old state.
   */
  lemma ExternalTransition(cfg: Config, foreign: Foreign, state: State, event: EventId)
    requires TransitionFor(cfg, foreign, state, event).Some? && !TransitionFor(cfg, foreign, state, event).value.isInternal
    requires RunCalls(foreign, PlanFor(cfg, foreign, state, event).calls, state).error.None?
    ensures var t := TransitionFor(cfg, foreign, state, event).value;
      var s := CoreStep(cfg, foreign, state, event);
      var calls := ExitCalls(cfg, state) + TransitionCalls(cfg, t, state) + EnterCalls(cfg, NextState(t, state));
      s.error.None? &&
      s.state == (if t.targetState.Some? then t.targetState else state) &&
      |s.trace| == |calls| &&
      forall i :: 0 <= i < |calls| ==> s.trace[i] == Invoked(calls[i], state)
  {
    RunCallsInOrder(foreign, PlanFor(cfg, foreign, state, event).calls, state);
  }

  // ---------------------------------------------------------------- the machine

  class StateMachine {
    const config: Config
    const foreign: Foreign
    var currentState: State
    var isHandlingEvent: bool
    var eventQueue: seq<EventId>
    /** Every user-supplied function called so far, in order, with the state at the time. */
    var trace: seq<Invoked>
    /** Every event passed to `handleCore` so far, in order. */
    ghost var handledEvents: seq<EventId>

    /** Outside `handle` the queue is empty. */
    ghost predicate Valid()
      reads this
    {
      !isHandlingEvent ==> eventQueue == []
    }

    constructor (config: Config, foreign: Foreign)
      requires config.initialState.Initial?
      ensures Valid() && this.config == config && this.foreign == foreign
      ensures currentState == config.initialState.state
      ensures !isHandlingEvent && eventQueue == [] && trace == [] && handledEvents == []
    {
      this.config := config;
      this.foreign := foreign;
      currentState := config.initialState.state;
      isHandlingEvent := false;
      eventQueue := [];
      trace := [];
      handledEvents := [];
    }

    /** `new StateMachine(config)`: the constructor's checks, then a machine already in its initial state. */
    static method Create(arg: Argument, foreign: Foreign) returns (m: StateMachine?, error: Option<string>)
      ensures error == ConstructionError(arg)
      ensures error.Some? <==> m == null
      ensures m != null ==>
        fresh(m) && m.Valid() && m.config == arg.config && m.foreign == foreign &&
        m.currentState == arg.config.initialState.state &&
        !m.isHandlingEvent && m.eventQueue == [] && m.trace == []
    {
      error := ConstructionError(arg);
      if error.Some? {
        m := null;
      } else {
        m := new StateMachine(arg.config, foreign);
      }
    }

    /** `getTransition(event)` in the current state. */
    function GetTransition(event: EventId): (r: Option<Transition>)
      reads this
      ensures r == TransitionFor(config, foreign, currentState, event)
    {
      TransitionFor(config, foreign, currentState, event)
    }

    /** `canHandle(event)`: the current state has an entry for the event and one of its transitions is eligible. */
    function CanHandle(event: EventId): (r: bool)
      reads this
      ensures r <==>
        StateConfigOf(config, currentState).Some? && event in StateConfigOf(config, currentState).value.events &&
        exists i :: 0 <= i < |StateConfigOf(config, currentState).value.events[event].transitions| &&
          Eligible(foreign, StateConfigOf(config, currentState).value.events[event].transitions[i])
    {
      GetTransition(event).Some?
    }

    /**
     * While an event is being handled, only appends the event to the queue.
     * Otherwise handles the event, then the queued events in FIFO order
     * (including those queued meanwhile), stopping at the first throw; in
     * every case it ends with an empty queue and `isHandlingEvent` false.
     */
    method Handle(event: EventId) returns (outcome: Outcome)
      requires Valid()
      requires !isHandlingEvent ==> Terminates(StepperOf(config, foreign), currentState, event)
      modifies this
      ensures Valid()
      ensures old(isHandlingEvent) ==>
        isHandlingEvent && outcome == Returned && eventQueue == old(eventQueue) + [event] &&
        currentState == old(currentState) && trace == old(trace) && handledEvents == old(handledEvents)
      ensures !old(isHandlingEvent) ==>
        var d := HandleRun(StepperOf(config, foreign), old(currentState), event);
        !isHandlingEvent && eventQueue == [] &&
        currentState == d.state && trace == old(trace) + d.trace &&
        handledEvents == old(handledEvents) + d.handled && outcome == d.outcome
      decreases if isHandlingEvent then 0 else 5
    {
      if isHandlingEvent {
        eventQueue := eventQueue + [event];
        return Returned;
      }
      isHandlingEvent := true;
      ghost var step := StepperOf(config, foreign);
      ghost var total := HandleRun(step, currentState, event);
      ghost var fuel: nat :| Drain(step, currentState, [event], fuel) == total;
      ghost var first := CoreStep(config, foreign, currentState, event);
      handledEvents := handledEvents + [event];
      var error := HandleCore(event);
      outcome := Returned;
      if error.Some? {
        outcome := Threw(error.value);
      } else {
        assert [event][1..] + first.raised == eventQueue;
        assert step(old(currentState), event) == first;
        assert total == Drain(step, currentState, eventQueue, fuel - 1).(handled := [event] + Drain(step, currentState, eventQueue, fuel - 1).handled,
          trace := first.trace + Drain(step, currentState, eventQueue, fuel - 1).trace);
        AppendTwo(old(trace), first.trace, Drain(step, currentState, eventQueue, fuel - 1).trace);
        AppendTwo(old(handledEvents), [event], Drain(step, currentState, eventQueue, fuel - 1).handled);
        fuel := fuel - 1;
        while |eventQueue| > 0
          invariant isHandlingEvent
          invariant Drain(step, currentState, eventQueue, fuel).finished
          invariant trace + Drain(step, currentState, eventQueue, fuel).trace == old(trace) + total.trace
          invariant handledEvents + Drain(step, currentState, eventQueue, fuel).handled == old(handledEvents) + total.handled
          invariant Drain(step, currentState, eventQueue, fuel).state == total.state
          invariant Drain(step, currentState, eventQueue, fuel).outcome == total.outcome
          invariant outcome == Returned
          decreases fuel
        {
          ghost var q, trace0, handled0 := eventQueue, trace, handledEvents;
          ghost var s := CoreStep(config, foreign, currentState, q[0]);
          ghost var rest := Drain(step, s.state, q[1..] + s.raised, fuel - 1);
          assert step(currentState, q[0]) == s;
          assert s.error.Some? ==> Drain(step, currentState, q, fuel) == Cascade([q[0]], s.trace, s.state, Threw(s.error.value), true);
          assert s.error.None? ==> Drain(step, currentState, q, fuel) == rest.(handled := [q[0]] + rest.handled, trace := s.trace + rest.trace);
          var next := eventQueue[0];
          eventQueue := eventQueue[1..];
          handledEvents := handledEvents + [next];
          error := HandleCore(next);
          if error.Some? {
            outcome := Threw(error.value);
            break;
          }
          AppendTwo(trace0, s.trace, rest.trace);
          AppendTwo(handled0, [next], rest.handled);
          fuel := fuel - 1;
        }
      }
      // the `finally` block
      if |eventQueue| > 0 {
        eventQueue := [];
      }
      isHandlingEvent := false;
    }

    /** `handleCore(event)`: the calls of its plan, stopping at a throw; the new state is set only after all of them. */
    method HandleCore(event: EventId) returns (error: Option<string>)
      requires isHandlingEvent
      modifies this
      ensures isHandlingEvent && handledEvents == old(handledEvents)
      ensures var s := CoreStep(config, foreign, old(currentState), event);
        trace == old(trace) + s.trace && eventQueue == old(eventQueue) + s.raised &&
        currentState == s.state && error == s.error
      decreases 4
    {
      var transitionConfig := GetTransition(event);
      if transitionConfig.None? {
        if config.unhandledEventHandler.Some? {
          RunCallsIfSet(foreign, UnhandledEventHandler, config.unhandledEventHandler, EventIn(event, currentState), currentState);
          error := Invoke(Call(UnhandledEventHandler, config.unhandledEventHandler.value, EventIn(event, currentState)));
          return;
        }
        return Some(CannotHandleMessage(currentState, event));
      }
      var t := transitionConfig.value;
      ghost var state := currentState;
      ghost var next := NextState(t, state);
      ghost var exit: seq<Call> := [];
      ghost var rE := Performed([], [], None);
      if !t.isInternal {
        error := ExitCurrentState();
        exit := ExitCalls(config, state);
        rE := RunCalls(foreign, exit, state);
        RunCallsAppend(foreign, exit, TransitionCalls(config, t, state), state);
        RunCallsAppend(foreign, exit + TransitionCalls(config, t, state), EnterCalls(config, next), state);
        if error.Some? {
          return;
        }
      }
      assert trace == old(trace) + rE.trace && eventQueue == old(eventQueue) + rE.raised;
      var nextState := if t.targetState.Some? then t.targetState else currentState;
      error := CallTransitionHandlers(t);
      ghost var rT := RunCalls(foreign, TransitionCalls(config, t, state), state);
      AppendTwo(old(trace), rE.trace, rT.trace);
      AppendTwo(old(eventQueue), rE.raised, rT.raised);
      if t.isInternal {
        assert exit + TransitionCalls(config, t, state) == TransitionCalls(config, t, state);
      }
      if error.Some? {
        return;
      }
      if !t.isInternal {
        error := EnterNextState(nextState);
        ghost var rN := RunCalls(foreign, EnterCalls(config, next), state);
        AppendTwo(old(trace), rE.trace + rT.trace, rN.trace);
        AppendTwo(old(eventQueue), rE.raised + rT.raised, rN.raised);
        if error.Some? {
          return;
        }
        currentState := nextState;
      }
    }

    /** The first block of `handleCore` for a transition that is not internal: the exit handler, then the exit action. */
    method ExitCurrentState() returns (error: Option<string>)
      requires isHandlingEvent
      modifies this
      ensures isHandlingEvent && currentState == old(currentState) && handledEvents == old(handledEvents)
      ensures var r := RunCalls(foreign, ExitCalls(config, old(currentState)), old(currentState));
        trace == old(trace) + r.trace && eventQueue == old(eventQueue) + r.raised && error == r.error
      decreases 3
    {
      ghost var state := currentState;
      ghost var first := IfSet(StateExitHandler, config.stateExitHandler, OfState(state));
      ghost var trace0, queue0 := trace, eventQueue;
      error := InvokeIfSet(StateExitHandler, config.stateExitHandler, OfState(currentState));
      var exitAction := ExitActionOf(config, currentState);
      RunCallsAppend(foreign, first, IfSet(ExitAction, exitAction, OfState(state)), state);
      if error.Some? {
        return;
      }
      error := InvokeIfSet(ExitAction, exitAction, OfState(currentState));
      ghost var r1, r2 := RunCalls(foreign, first, state), RunCalls(foreign, IfSet(ExitAction, exitAction, OfState(state)), state);
      AppendTwo(trace0, r1.trace, r2.trace);
      AppendTwo(queue0, r1.raised, r2.raised);
    }

    /** The transition handler, then the transition's action, both with (current, next). */
    method CallTransitionHandlers(t: Transition) returns (error: Option<string>)
      requires isHandlingEvent
      modifies this
      ensures isHandlingEvent && currentState == old(currentState) && handledEvents == old(handledEvents)
      ensures var r := RunCalls(foreign, TransitionCalls(config, t, old(currentState)), old(currentState));
        trace == old(trace) + r.trace && eventQueue == old(eventQueue) + r.raised && error == r.error
      decreases 3
    {
      ghost var state := currentState;
      var nextState := if t.targetState.Some? then t.targetState else currentState;
      ghost var first := IfSet(TransitionHandler, config.transitionHandler, FromTo(state, nextState));
      ghost var trace0, queue0 := trace, eventQueue;
      error := InvokeIfSet(TransitionHandler, config.transitionHandler, FromTo(currentState, nextState));
      RunCallsAppend(foreign, first, IfSet(TransitionAction, t.action, FromTo(state, nextState)), state);
      if error.Some? {
        return;
      }
      error := InvokeIfSet(TransitionAction, t.action, FromTo(currentState, nextState));
      ghost var r1, r2 := RunCalls(foreign, first, state), RunCalls(foreign, IfSet(TransitionAction, t.action, FromTo(state, nextState)), state);
      AppendTwo(trace0, r1.trace, r2.trace);
      AppendTwo(queue0, r1.raised, r2.raised);
    }

    /** The last block of `handleCore` for a transition that is not internal: the enter handler, then the entry action of `nextState`. */
    method EnterNextState(nextState: State) returns (error: Option<string>)
      requires isHandlingEvent
      modifies this
      ensures isHandlingEvent && currentState == old(currentState) && handledEvents == old(handledEvents)
      ensures var r := RunCalls(foreign, EnterCalls(config, nextState), old(currentState));
        trace == old(trace) + r.trace && eventQueue == old(eventQueue) + r.raised && error == r.error
      decreases 3
    {
      ghost var state := currentState;
      ghost var first := IfSet(StateEnterHandler, config.stateEnterHandler, OfState(nextState));
      ghost var trace0, queue0 := trace, eventQueue;
      error := InvokeIfSet(StateEnterHandler, config.stateEnterHandler, OfState(nextState));
      var entryAction := EntryActionOf(config, nextState);
      RunCallsAppend(foreign, first, IfSet(EntryAction, entryAction, OfState(nextState)), state);
      if error.Some? {
        return;
      }
      error := InvokeIfSet(EntryAction, entryAction, OfState(nextState));
      ghost var r1, r2 := RunCalls(foreign, first, state), RunCalls(foreign, IfSet(EntryAction, entryAction, OfState(nextState)), state);
      AppendTwo(trace0, r1.trace, r2.trace);
      AppendTwo(queue0, r1.raised, r2.raised);
    }

    /** `if (slot) slot(...args)`. */
    method InvokeIfSet(role: Role, fn: Option<Label>, args: CallArgs) returns (error: Option<string>)
      requires isHandlingEvent
      modifies this
      ensures isHandlingEvent && currentState == old(currentState) && handledEvents == old(handledEvents)
      ensures var r := RunCalls(foreign, IfSet(role, fn, args), old(currentState));
        trace == old(trace) + r.trace && eventQueue == old(eventQueue) + r.raised && error == r.error
      decreases 2
    {
      RunCallsIfSet(foreign, role, fn, args, currentState);
      if fn.Some? {
        error := Invoke(Call(role, fn.value, args));
      } else {
        error := None;
      }
    }

    /** A call of a user-supplied function: it may hand events to `handle` (which only queues them now) and then throw. */
    method Invoke(call: Call) returns (error: Option<string>)
      requires isHandlingEvent
      modifies this
      ensures isHandlingEvent && currentState == old(currentState) && handledEvents == old(handledEvents)
      ensures trace == old(trace) + [Invoked(call, old(currentState))]
      ensures eventQueue == old(eventQueue) + foreign.react(call).raised
      ensures error == foreign.react(call).error
      decreases 1
    {
      trace := trace + [Invoked(call, currentState)];
      var reaction := foreign.react(call);
      var i := 0;
      while i < |reaction.raised|
        invariant 0 <= i <= |reaction.raised|
        invariant isHandlingEvent && Valid()
        invariant currentState == old(currentState) && handledEvents == old(handledEvents)
        invariant trace == old(trace) + [Invoked(call, old(currentState))]
        invariant eventQueue == old(eventQueue) + reaction.raised[..i]
      {
        var _ := Handle(reaction.raised[i]);
        i := i + 1;
      }
      error := reaction.error;
    }
  }
}
