/**
 * Model of the configurators of src/configuration/. Each configurator holds a
 * configuration object and edits it in place; a child configurator's object
 * is the very object its parent stores (`states[s]`, `events[e]`, an entry of
 * `transitions`), so an edit made through the child is seen through the
 * parent. Configuration objects are therefore classes here, and the maps and
 * lists of the parents hold references to them.
 *
 * Handlers, actions and conditions are modelled by their names.
 */
module Configuration {
  import opened Wrappers
  import Ancestry

  type StateId = string
  type EventId = string
  type Label = string

  /** The identity of a configurator factory object. */
  type Factory = nat

  /** The parent a configurator was created with. */
  datatype Parent =
    | NoParent
    | MachineParent(machine: StateMachineConfigurator)
    | GlobalParent(global: GlobalConfigurator)
    | StateParent(state: StateConfigurator)
    | EventParent(event: EventConfigurator)
    | TriggerParent(trigger: TriggerConfigurator)
    | AsyncParent(async: AsyncActionConfigurator)
    | TransitionParent(transition: TransitionConfigurator)

  /** The class of the parent object, as `instanceof` sees it. */
  function ParentClass(p: Parent): Option<Ancestry.Class> {
    match p
    case NoParent => None
    case MachineParent(_) => Some(Ancestry.StateMachineConfiguratorClass)
    case GlobalParent(_) => Some(Ancestry.GlobalConfiguratorClass)
    case StateParent(_) => Some(Ancestry.StateConfiguratorClass)
    case EventParent(_) => Some(Ancestry.EventConfiguratorClass)
    case TriggerParent(t) => Some(if t.isTimer then Ancestry.TimerConfiguratorClass else Ancestry.TriggerConfiguratorClass)
    case AsyncParent(_) => Some(Ancestry.AsyncActionConfiguratorClass)
    case TransitionParent(_) => Some(Ancestry.TransitionConfiguratorClass)
  }

  /**
   * `parent.configuratorFactory`: only the child configurators have that
   * field; the configurators built on `BaseConfigurator` call theirs `factory`.
   */
  function ConfiguratorFactoryOf(p: Parent): (r: Option<Factory>)
    requires !p.NoParent?
    ensures r.Some? ==> ParentClass(p).Some? && Ancestry.LookupOf(ParentClass(p).value) == Ancestry.ChildLookup
  {
    match p
    case StateParent(s) => s.configuratorFactory
    case TransitionParent(t) => t.configuratorFactory
    case _ => None
  }

  // ---------------------------------------------------------------- configuration objects

  /** The configuration of a whole machine. */
  class MachineConfig {
    var initialState: Option<StateId>
    var states: map<StateId, StateConfig>
    var stateEnterHandlers: seq<Label>
    var stateExitHandlers: seq<Label>
    var transitionHandlers: seq<Label>
    var unhandledEventHandlers: seq<Label>

    /** `StateMachineConfigurator.createConfig()`: no initial state, no states, four empty handler lists. */
    constructor ()
      ensures initialState.None? && states == map[]
      ensures stateEnterHandlers == [] && stateExitHandlers == [] && transitionHandlers == [] && unhandledEventHandlers == []
    {
      initialState := None;
      states := map[];
      stateEnterHandlers := [];
      stateExitHandlers := [];
      transitionHandlers := [];
      unhandledEventHandlers := [];
    }
  }

  /** The configuration of one state. */
  class StateConfig {
    var entryActions: seq<Label>
    var exitActions: seq<Label>
    var events: map<EventId, EventConfig>

    /** `StateConfigurator.createConfig()`: no actions, no events. */
    constructor ()
      ensures entryActions == [] && exitActions == [] && events == map[]
    {
      entryActions := [];
      exitActions := [];
      events := map[];
    }
  }

  /** The configuration of one event of a state. */
  class EventConfig {
    var transitions: seq<TransitionConfig>

    /** `EventConfigurator.createConfig()`: no transitions. */
    constructor ()
      ensures transitions == []
    {
      transitions := [];
    }
  }

  /** The configuration of one transition. */
  class TransitionConfig {
    const targetState: Option<StateId>
    const isInternal: bool
    var actions: seq<Label>
    var condition: Option<Label>

    /** Only a transition without a target can be internal. */
    predicate Valid() {
      isInternal ==> targetState.None?
    }

    constructor (targetState: Option<StateId>, isInternal: bool)
      ensures this.targetState == targetState && (this.isInternal <==> targetState.None? && isInternal)
      ensures Valid() && actions == [] && condition.None?
    {
      this.targetState := targetState;
      this.isInternal := targetState.None? && isInternal;
      actions := [];
      condition := None;
    }
  }

  /** The configuration of a trigger (a timer's also holds its timeout). */
  class TriggerConfig {
    var transitions: seq<TransitionConfigurator>
    var timeout: Option<int>

    constructor (timeout: Option<int>)
      ensures transitions == [] && this.timeout == timeout
    {
      transitions := [];
      this.timeout := timeout;
    }
  }

  /**
   * The configuration of an asynchronous action. The triggers are `null` only
   * while the constructor is building them, since their parent is the
   * configurator being built.
   */
  datatype AsyncActionConfig = AsyncActionConfig(action: Label, successTrigger: TriggerConfigurator?, failureTrigger: TriggerConfigurator?)

  // ---------------------------------------------------------------- configurators

  /** The configurator of a whole machine (a `BaseConfigurator`). */
  class StateMachineConfigurator {
    const factory: Option<Factory>
    const parent: Parent
    const config: MachineConfig

    /** `BaseConfigurator(factory, parent, config)`: a given config is kept, otherwise a new one is made. */
    constructor (factory: Option<Factory>, parent: Parent, config: Option<MachineConfig>)
      ensures this.factory == factory && this.parent == parent
      ensures config.Some? ==> this.config == config.value
      ensures config.None? ==>
        fresh(this.config) && this.config.initialState.None? && this.config.states == map[] &&
        this.config.stateEnterHandlers == [] && this.config.stateExitHandlers == [] &&
        this.config.transitionHandlers == [] && this.config.unhandledEventHandlers == []
    {
      this.factory := factory;
      this.parent := parent;
      if config.Some? {
        this.config := config.value;
      } else {
        this.config := new MachineConfig();
      }
    }

    /** `global()`: a configurator of the machine-wide handlers that edits this very config. */
    method Global() returns (g: GlobalConfigurator)
      ensures fresh(g) && g.factory == factory && g.parent == MachineParent(this) && g.config == config
    {
      g := new GlobalConfigurator(factory, MachineParent(this), config);
    }

    /** `initialState(s)`: records `s` as the initial state, then does what `state(s)` does. */
    method InitialState(state: StateId) returns (sc: StateConfigurator)
      modifies config
      ensures config.initialState == Some(state)
      ensures fresh(sc) && sc.parent == MachineParent(this)
      ensures state in old(config.states) ==> sc.config == old(config.states)[state]
      ensures state !in old(config.states) ==> fresh(sc.config) && sc.config.entryActions == [] && sc.config.exitActions == [] && sc.config.events == map[]
      ensures config.states == old(config.states)[state := sc.config]
      ensures HandlersUnchanged()
    {
      config.initialState := Some(state);
      sc := State(state);
    }

    /**
     * `state(s)`: a configurator for state `s`, handed the config already
     * stored for `s` if there is one, whose config is then stored under `s`;
     * the other states' entries are untouched.
     */
    method State(state: StateId) returns (sc: StateConfigurator)
      modifies config
      ensures fresh(sc) && sc.parent == MachineParent(this)
      ensures state in old(config.states) ==> sc.config == old(config.states)[state]
      ensures state !in old(config.states) ==> fresh(sc.config) && sc.config.entryActions == [] && sc.config.exitActions == [] && sc.config.events == map[]
      ensures config.states == old(config.states)[state := sc.config]
      ensures config.initialState == old(config.initialState) && HandlersUnchanged()
    {
      var existing := if state in config.states then Some(config.states[state]) else None;
      sc := new StateConfigurator(MachineParent(this), existing);
      config.states := config.states[state := sc.config];
    }

    /** The four handler lists are as they were. */
    twostate predicate HandlersUnchanged()
      reads config
    {
      config.stateEnterHandlers == old(config.stateEnterHandlers) &&
      config.stateExitHandlers == old(config.stateExitHandlers) &&
      config.transitionHandlers == old(config.transitionHandlers) &&
      config.unhandledEventHandlers == old(config.unhandledEventHandlers)
    }

    /** `getConfig()`: the one config object every edit went into. */
    function GetConfig(): MachineConfig {
      config
    }
  }

  /** The configurator of the machine-wide handlers (a `BaseConfigurator`). */
  class GlobalConfigurator {
    const factory: Option<Factory>
    const parent: Parent
    const config: MachineConfig

    constructor (factory: Option<Factory>, parent: Parent, config: MachineConfig)
      ensures this.factory == factory && this.parent == parent && this.config == config
    {
      this.factory := factory;
      this.parent := parent;
      this.config := config;
    }

    /** `onStateEnter(handler)`: appends to `stateEnterHandlers` and to nothing else. */
    method OnStateEnter(handler: Label) returns (g: GlobalConfigurator)
      modifies config
      ensures g == this && config.stateEnterHandlers == old(config.stateEnterHandlers) + [handler]
      ensures config.stateExitHandlers == old(config.stateExitHandlers) && config.transitionHandlers == old(config.transitionHandlers)
      ensures config.unhandledEventHandlers == old(config.unhandledEventHandlers)
      ensures config.initialState == old(config.initialState) && config.states == old(config.states)
    {
      config.stateEnterHandlers := config.stateEnterHandlers + [handler];
      g := this;
    }

    /** `onStateExit(handler)`: appends to `stateExitHandlers` and to nothing else. */
    method OnStateExit(handler: Label) returns (g: GlobalConfigurator)
      modifies config
      ensures g == this && config.stateExitHandlers == old(config.stateExitHandlers) + [handler]
      ensures config.stateEnterHandlers == old(config.stateEnterHandlers) && config.transitionHandlers == old(config.transitionHandlers)
      ensures config.unhandledEventHandlers == old(config.unhandledEventHandlers)
      ensures config.initialState == old(config.initialState) && config.states == old(config.states)
    {
      config.stateExitHandlers := config.stateExitHandlers + [handler];
      g := this;
    }

    /** `onTransition(handler)`: appends to `transitionHandlers` and to nothing else. */
    method OnTransition(handler: Label) returns (g: GlobalConfigurator)
      modifies config
      ensures g == this && config.transitionHandlers == old(config.transitionHandlers) + [handler]
      ensures config.stateEnterHandlers == old(config.stateEnterHandlers) && config.stateExitHandlers == old(config.stateExitHandlers)
      ensures config.unhandledEventHandlers == old(config.unhandledEventHandlers)
      ensures config.initialState == old(config.initialState) && config.states == old(config.states)
    {
      config.transitionHandlers := config.transitionHandlers + [handler];
      g := this;
    }

    /** `onUnhandledEvent(handler)`: appends to `unhandledEventHandlers` and to nothing else. */
    method OnUnhandledEvent(handler: Label) returns (g: GlobalConfigurator)
      modifies config
      ensures g == this && config.unhandledEventHandlers == old(config.unhandledEventHandlers) + [handler]
      ensures config.stateEnterHandlers == old(config.stateEnterHandlers) && config.stateExitHandlers == old(config.stateExitHandlers)
      ensures config.transitionHandlers == old(config.transitionHandlers)
      ensures config.initialState == old(config.initialState) && config.states == old(config.states)
    {
      config.unhandledEventHandlers := config.unhandledEventHandlers + [handler];
      g := this;
    }
  }

  /** The configurator of one state (a `ChildConfigurator`). */
  class StateConfigurator {
    const parent: Parent
    const configuratorFactory: Option<Factory>
    const config: StateConfig

    /** Keeps the parent, copies its `configuratorFactory`, and keeps a given config or makes a new one. */
    constructor (parent: Parent, config: Option<StateConfig>)
      requires !parent.NoParent?
      ensures this.parent == parent && configuratorFactory == ConfiguratorFactoryOf(parent)
      ensures config.Some? ==> this.config == config.value
      ensures config.None? ==> fresh(this.config) && this.config.entryActions == [] && this.config.exitActions == [] && this.config.events == map[]
    {
      this.parent := parent;
      configuratorFactory := ConfiguratorFactoryOf(parent);
      if config.Some? {
        this.config := config.value;
      } else {
        this.config := new StateConfig();
      }
    }

    /** `onEnter(action)`: appends to the end of `entryActions`; nothing else changes. */
    method OnEnter(action: Label) returns (s: StateConfigurator)
      modifies config
      ensures s == this && config.entryActions == old(config.entryActions) + [action]
      ensures config.exitActions == old(config.exitActions) && config.events == old(config.events)
    {
      config.entryActions := config.entryActions + [action];
      s := this;
    }

    /** `onExit(action)`: appends to the end of `exitActions`; nothing else changes. */
    method OnExit(action: Label) returns (s: StateConfigurator)
      modifies config
      ensures s == this && config.exitActions == old(config.exitActions) + [action]
      ensures config.entryActions == old(config.entryActions) && config.events == old(config.events)
    {
      config.exitActions := config.exitActions + [action];
      s := this;
    }

    /**
     * `on(event)`: a configurator for the event, handed the config already
     * stored for it if there is one, whose config is then stored under the event.
     */
    method On(event: EventId) returns (e: EventConfigurator)
      modifies config
      ensures fresh(e) && e.parent == StateParent(this) && e.factory == configuratorFactory
      ensures event in old(config.events) ==> e.config == old(config.events)[event]
      ensures event !in old(config.events) ==> fresh(e.config) && e.config.transitions == []
      ensures config.events == old(config.events)[event := e.config]
      ensures config.entryActions == old(config.entryActions) && config.exitActions == old(config.exitActions)
    {
      var existing := if event in config.events then Some(config.events[event]) else None;
      e := new EventConfigurator(configuratorFactory, StateParent(this), existing);
      config.events := config.events[event := e.config];
    }
  }

  /** The configurator of one event of a state (a `BaseConfigurator`). */
  class EventConfigurator {
    const factory: Option<Factory>
    const parent: Parent
    const config: EventConfig

    constructor (factory: Option<Factory>, parent: Parent, config: Option<EventConfig>)
      ensures this.factory == factory && this.parent == parent
      ensures config.Some? ==> this.config == config.value
      ensures config.None? ==> fresh(this.config) && this.config.transitions == []
    {
      this.factory := factory;
      this.parent := parent;
      if config.Some? {
        this.config := config.value;
      } else {
        this.config := new EventConfig();
      }
    }

    /** `transition(targetState, isInternal)`: a new transition configurator whose config is appended at the end. */
    method Transition(targetState: Option<StateId>, isInternal: bool) returns (t: TransitionConfigurator)
      modifies config
      ensures fresh(t) && fresh(t.config) && t.parent == EventParent(this)
      ensures t.config.targetState == targetState && (t.config.isInternal <==> targetState.None? && isInternal)
      ensures t.config.Valid() && t.config.actions == [] && t.config.condition.None?
      ensures config.transitions == old(config.transitions) + [t.config]
    {
      t := new TransitionConfigurator(EventParent(this), targetState, isInternal);
      config.transitions := config.transitions + [t.config];
    }

    /** `selfTransition()`: `transition(null, false)`, which is not internal. */
    method SelfTransition() returns (t: TransitionConfigurator)
      modifies config
      ensures fresh(t) && fresh(t.config) && t.parent == EventParent(this)
      ensures t.config.targetState.None? && !t.config.isInternal && t.config.actions == [] && t.config.condition.None?
      ensures config.transitions == old(config.transitions) + [t.config]
    {
      t := Transition(None, false);
    }

    /** `internalTransition()`: `transition(null, true)`, which is internal. */
    method InternalTransition() returns (t: TransitionConfigurator)
      modifies config
      ensures fresh(t) && fresh(t.config) && t.parent == EventParent(this)
      ensures t.config.targetState.None? && t.config.isInternal && t.config.actions == [] && t.config.condition.None?
      ensures config.transitions == old(config.transitions) + [t.config]
    {
      t := Transition(None, true);
    }
  }

  /** The configurator of one transition (a `ChildConfigurator`). */
  class TransitionConfigurator {
    const parent: Parent
    const configuratorFactory: Option<Factory>
    const config: TransitionConfig

    /** The target is kept as given; the transition is internal only when asked for and the target is `null`. */
    constructor (parent: Parent, targetState: Option<StateId>, isInternal: bool)
      requires !parent.NoParent?
      ensures this.parent == parent && configuratorFactory == ConfiguratorFactoryOf(parent) && fresh(config)
      ensures config.targetState == targetState && (config.isInternal <==> targetState.None? && isInternal)
      ensures config.Valid() && config.actions == [] && config.condition.None?
    {
      this.parent := parent;
      configuratorFactory := ConfiguratorFactoryOf(parent);
      config := new TransitionConfig(targetState, isInternal);
    }

    /** `withAction(action)`: appends to the end of `actions`; the condition is unchanged. */
    method WithAction(action: Label) returns (t: TransitionConfigurator)
      modifies config
      ensures t == this && config.actions == old(config.actions) + [action] && config.condition == old(config.condition)
    {
      config.actions := config.actions + [action];
      t := this;
    }

    /** `withCondition(condition)`: sets the condition, replacing any earlier one; the actions are unchanged. */
    method WithCondition(condition: Label) returns (t: TransitionConfigurator)
      modifies config
      ensures t == this && config.condition == Some(condition) && config.actions == old(config.actions)
    {
      config.condition := Some(condition);
      t := this;
    }
  }

  /**
   * The configurator of a trigger (a `BaseConfigurator`), and of a timer,
   * which is a trigger whose config also holds a timeout.
   */
  class TriggerConfigurator {
    const parent: Parent
    const isTimer: bool
    const config: TriggerConfig

    /** A trigger: an empty list of transitions. */
    constructor (parent: Parent)
      ensures this.parent == parent && !isTimer && fresh(config)
      ensures config.transitions == [] && config.timeout.None?
    {
      this.parent := parent;
      isTimer := false;
      config := new TriggerConfig(None);
    }

    /** `new TimerConfigurator(parent, timeout)`: a trigger whose config object also holds the timeout. */
    constructor Timer(parent: Parent, timeout: int)
      ensures this.parent == parent && isTimer && fresh(config)
      ensures config.transitions == [] && config.timeout == Some(timeout)
    {
      this.parent := parent;
      isTimer := true;
      config := new TriggerConfig(Some(timeout));
    }

    /** `transition(targetState, isInternal)`: appends the new transition configurator itself and returns it. */
    method Transition(targetState: Option<StateId>, isInternal: bool) returns (t: TransitionConfigurator)
      modifies config
      ensures fresh(t) && fresh(t.config) && t.parent == TriggerParent(this)
      ensures t.config.targetState == targetState && (t.config.isInternal <==> targetState.None? && isInternal)
      ensures t.config.Valid() && t.config.actions == [] && t.config.condition.None?
      ensures config.transitions == old(config.transitions) + [t] && config.timeout == old(config.timeout)
    {
      t := new TransitionConfigurator(TriggerParent(this), targetState, isInternal);
      config.transitions := config.transitions + [t];
    }

    /** `transitionTo(targetState)`: `transition(targetState)`, not internal. */
    method TransitionTo(targetState: Option<StateId>) returns (t: TransitionConfigurator)
      modifies config
      ensures fresh(t) && fresh(t.config) && t.parent == TriggerParent(this)
      ensures t.config.targetState == targetState && !t.config.isInternal && t.config.actions == [] && t.config.condition.None?
      ensures config.transitions == old(config.transitions) + [t] && config.timeout == old(config.timeout)
    {
      t := Transition(targetState, false);
    }

    /** `selfTransition()`: `transition(null)`, not internal. */
    method SelfTransition() returns (t: TransitionConfigurator)
      modifies config
      ensures fresh(t) && fresh(t.config) && t.parent == TriggerParent(this)
      ensures t.config.targetState.None? && !t.config.isInternal && t.config.actions == [] && t.config.condition.None?
      ensures config.transitions == old(config.transitions) + [t] && config.timeout == old(config.timeout)
    {
      t := Transition(None, false);
    }

    /** `internalTransition()`: `transition(null, true)`, internal. */
    method InternalTransition() returns (t: TransitionConfigurator)
      modifies config
      ensures fresh(t) && fresh(t.config) && t.parent == TriggerParent(this)
      ensures t.config.targetState.None? && t.config.isInternal && t.config.actions == [] && t.config.condition.None?
      ensures config.transitions == old(config.transitions) + [t] && config.timeout == old(config.timeout)
    {
      t := Transition(None, true);
    }
  }

  /** The configurator of an asynchronous action (a `BaseConfigurator`). */
  class AsyncActionConfigurator {
    const parent: Parent
    var config: AsyncActionConfig

    /** Both triggers exist. */
    predicate Valid()
      reads this
    {
      config.successTrigger != null && config.failureTrigger != null
    }

    /** Keeps the action and makes two distinct triggers, each with this configurator as its parent. */
    constructor (parent: Parent, action: Label)
      ensures Valid() && this.parent == parent && config.action == action
      ensures fresh(config.successTrigger) && fresh(config.failureTrigger) && config.successTrigger != config.failureTrigger
      ensures fresh(config.successTrigger.config) && fresh(config.failureTrigger.config)
      ensures config.successTrigger.config != config.failureTrigger.config
      ensures config.successTrigger.parent == AsyncParent(this) && config.failureTrigger.parent == AsyncParent(this)
      ensures !config.successTrigger.isTimer && !config.failureTrigger.isTimer
      ensures config.successTrigger.config.transitions == [] && config.failureTrigger.config.transitions == []
    {
      this.parent := parent;
      config := AsyncActionConfig(action, null, null);
      new;
      var success := new TriggerConfigurator(AsyncParent(this));
      var failure := new TriggerConfigurator(AsyncParent(this));
      config := AsyncActionConfig(action, success, failure);
    }

    /** `onSuccess()`: the success trigger made by the constructor. */
    function OnSuccess(): TriggerConfigurator
      reads this
      requires Valid()
    {
      config.successTrigger
    }

    /** `onFailure()`: the failure trigger made by the constructor. */
    function OnFailure(): TriggerConfigurator
      reads this
      requires Valid()
    {
      config.failureTrigger
    }
  }

  /**
   * Configuring one state twice: `state(s).onEnter(a)` and a later `state(s)`
   * hand out configurators of the same config object, so the second one sees
   * the action the first one added, and the machine's config stores that object.
   */
  method ReopenState(m: StateMachineConfigurator, s: StateId, a: Label) returns (first: StateConfigurator, second: StateConfigurator)
    modifies m.config, m.config.states.Values
    ensures first != second && first.config == second.config && m.config.states == old(m.config.states)[s := first.config]
    ensures s in old(m.config.states) ==>
      first.config == old(m.config.states)[s] && first.config.entryActions == old(m.config.states[s].entryActions) + [a]
    ensures s !in old(m.config.states) ==> first.config.entryActions == [a]
  {
    first := m.State(s);
    var _ := first.OnEnter(a);
    second := m.State(s);
  }
}
