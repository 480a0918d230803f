/**
 * Model of src/StateMachineBuilder.js: a fluent builder of the configuration
 * read by the flat machine of src/StateMachine.js. The builder owns the
 * configuration; every child builder edits one part of it in place. The
 * builder only ever adds state entries, event entries and transitions and
 * never removes or replaces one, so the part a child builder edits is named
 * by its path from the root (state, event, position in the list) for as long
 * as the builder lives: the child's `config` object is the entry at that path.
 */
module Builder {
  import opened Wrappers
  import Flat

  type StateId = Flat.StateId
  type EventId = Flat.EventId
  type Label = Flat.Label

  /** `createStateConfig()`: no actions and no events. */
  const NewStateConfig := Flat.StateConfig(None, None, map[])

  /** `createEventConfig()`: no transitions. */
  const NewEventConfig := Flat.EventConfig([])

  /** A new builder's configuration: no states, no handlers, no initial state. */
  const EmptyConfig := Flat.Config(Flat.Unset, map[], None, None, None, None)

  /** The transition config `transition(targetState, isInternal)` creates: internal only for a null target. */
  function NewTransition(targetState: Option<StateId>, isInternal: bool): (t: Flat.Transition)
    ensures t.targetState == targetState && t.action.None? && t.condition.None?
    ensures t.isInternal <==> targetState.None? && isInternal
  {
    Flat.Transition(targetState, targetState.None? && isInternal, None, None)
  }

  // ---------------------------------------------------------------- the edits

  /** `state(s)`: the configuration with an entry for `s`, created only if absent. */
  function WithState(c: Flat.Config, s: StateId): Flat.Config {
    if s in c.states then c else c.(states := c.states[s := NewStateConfig])
  }

  /** `on(e)` on the builder of state `s`: an entry for `e`, created only if absent. */
  function WithEvent(c: Flat.Config, s: StateId, e: EventId): Flat.Config
    requires s in c.states
  {
    var sc := c.states[s];
    if e in sc.events then c else c.(states := c.states[s := sc.(events := sc.events[e := NewEventConfig])])
  }

  /** `transition(...)` on the builder of event `e` of state `s`: `t` appended to the list. */
  function WithTransition(c: Flat.Config, s: StateId, e: EventId, t: Flat.Transition): Flat.Config
    requires s in c.states && e in c.states[s].events
  {
    var sc := c.states[s];
    var ec := sc.events[e];
    c.(states := c.states[s := sc.(events := sc.events[e := ec.(transitions := ec.transitions + [t])])])
  }

  /** The configuration with the state config of `s` replaced by `sc`. */
  function UpdateState(c: Flat.Config, s: StateId, sc: Flat.StateConfig): Flat.Config {
    c.(states := c.states[s := sc])
  }

  /** The configuration with transition `i` of event `e` of state `s` replaced by `t`. */
  function UpdateTransition(c: Flat.Config, s: StateId, e: EventId, i: nat, t: Flat.Transition): Flat.Config
    requires s in c.states && e in c.states[s].events && i < |c.states[s].events[e].transitions|
  {
    var sc := c.states[s];
    var ec := sc.events[e];
    c.(states := c.states[s := sc.(events := sc.events[e := ec.(transitions := ec.transitions[i := t])])])
  }

  /** The configuration only grew: no state, event or transition went away. */
  ghost predicate Extends(c0: Flat.Config, c1: Flat.Config) {
    (forall s :: s in c0.states ==> s in c1.states) &&
    (forall s, e :: s in c0.states && e in c0.states[s].events ==>
       e in c1.states[s].events &&
       |c0.states[s].events[e].transitions| <= |c1.states[s].events[e].transitions|)
  }

  // ---------------------------------------------------------------- properties of the edits

  /** `state(s)` never clears an existing entry, and a second call changes nothing. */
  lemma WithStateReuses(c: Flat.Config, s: StateId)
    ensures s in WithState(c, s).states
    ensures s in c.states ==> WithState(c, s) == c
    ensures s !in c.states ==> WithState(c, s).states[s] == NewStateConfig
    ensures forall k :: k != s ==> (k in WithState(c, s).states <==> k in c.states)
    ensures forall k :: k != s && k in c.states ==> WithState(c, s).states[k] == c.states[k]
    ensures WithState(WithState(c, s), s) == WithState(c, s)
    ensures Extends(c, WithState(c, s))
  {
  }

  /** `on(e)` never clears an existing event entry, and a second call changes nothing. */
  lemma WithEventReuses(c: Flat.Config, s: StateId, e: EventId)
    requires s in c.states
    ensures var c' := WithEvent(c, s, e);
      s in c'.states && e in c'.states[s].events &&
      (e in c.states[s].events ==> c' == c) &&
      (e !in c.states[s].events ==> c'.states[s].events[e] == NewEventConfig) &&
      c'.states[s].entryAction == c.states[s].entryAction && c'.states[s].exitAction == c.states[s].exitAction &&
      WithEvent(c', s, e) == c' && Extends(c, c')
  {
  }

  /** `transition(...)` keeps the earlier transitions in order and puts the new one last. */
  lemma WithTransitionAppends(c: Flat.Config, s: StateId, e: EventId, t: Flat.Transition)
    requires s in c.states && e in c.states[s].events
    ensures var ts := WithTransition(c, s, e, t).states[s].events[e].transitions;
      var old_ts := c.states[s].events[e].transitions;
      |ts| == |old_ts| + 1 && ts[..|old_ts|] == old_ts && ts[|old_ts|] == t
    ensures Extends(c, WithTransition(c, s, e, t))
  {
    var ts := WithTransition(c, s, e, t).states[s].events[e].transitions;
    assert ts == c.states[s].events[e].transitions + [t];
  }

  /** Appending to a list of transitions cannot change which earlier transition is the first eligible one. */
  lemma {:induction false} FirstEligibleAppend(foreign: Flat.Foreign, ts: seq<Flat.Transition>, t: Flat.Transition)
    ensures Flat.FirstEligible(foreign, ts + [t]) ==
      match Flat.FirstEligible(foreign, ts)
      case Some(i) => Some(i)
      case None => if Flat.Eligible(foreign, t) then Some(|ts|) else None
    decreases |ts|
  {
    if |ts| == 0 {
      assert ts + [t] == [t];
    } else {
      assert (ts + [t])[1..] == ts[1..] + [t];
      FirstEligibleAppend(foreign, ts[1..], t);
    }
  }

  /**
   * The order of `transition(...)` calls is the order of preference: a
   * transition added later is taken only when no earlier one of the same
   * event is eligible.
   */
  lemma AppendedTransitionComesLast(c: Flat.Config, foreign: Flat.Foreign, s: StateId, e: EventId, t: Flat.Transition)
    requires s in c.states && e in c.states[s].events
    ensures var before := Flat.TransitionFor(c, foreign, Some(s), e);
      Flat.TransitionFor(WithTransition(c, s, e, t), foreign, Some(s), e) ==
        if before.Some? then before else if Flat.Eligible(foreign, t) then Some(t) else None
  {
    var ts := c.states[s].events[e].transitions;
    FirstEligibleAppend(foreign, ts, t);
    assert WithTransition(c, s, e, t).states[s].events[e].transitions == ts + [t];
  }

  /** Growth is transitive, so a child builder's path stays valid across any number of edits. */
  lemma ExtendsTransitive(c0: Flat.Config, c1: Flat.Config, c2: Flat.Config)
    requires Extends(c0, c1) && Extends(c1, c2)
    ensures Extends(c0, c2)
  {
    forall s, e | s in c0.states && e in c0.states[s].events
      ensures e in c2.states[s].events
      ensures |c0.states[s].events[e].transitions| <= |c2.states[s].events[e].transitions|
    {
      assert e in c1.states[s].events;
    }
  }

  // ---------------------------------------------------------------- the builders

  class StateMachineBuilder {
    var config: Flat.Config

    /** A fresh builder: an empty `states` map and no initial state. */
    constructor ()
      ensures config == EmptyConfig
    {
      config := EmptyConfig;
    }

    /** `onStateEnter(handler)`: stores one handler; a later call overwrites it. */
    method OnStateEnter(handler: Label) returns (b: StateMachineBuilder)
      modifies this
      ensures b == this && config == old(config).(stateEnterHandler := Some(handler))
    {
      config := config.(stateEnterHandler := Some(handler));
      b := this;
    }

    /** `onStateExit(handler)`: stores one handler; a later call overwrites it. */
    method OnStateExit(handler: Label) returns (b: StateMachineBuilder)
      modifies this
      ensures b == this && config == old(config).(stateExitHandler := Some(handler))
    {
      config := config.(stateExitHandler := Some(handler));
      b := this;
    }

    /** `onTransition(handler)`: stores one handler; a later call overwrites it. */
    method OnTransition(handler: Label) returns (b: StateMachineBuilder)
      modifies this
      ensures b == this && config == old(config).(transitionHandler := Some(handler))
    {
      config := config.(transitionHandler := Some(handler));
      b := this;
    }

    /** `onUnhandledEvent(handler)`: stores one handler; a later call overwrites it. */
    method OnUnhandledEvent(handler: Label) returns (b: StateMachineBuilder)
      modifies this
      ensures b == this && config == old(config).(unhandledEventHandler := Some(handler))
    {
      config := config.(unhandledEventHandler := Some(handler));
      b := this;
    }

    /** `initialState(s)`: records `s`, then registers it exactly as `state(s)` does. */
    method InitialState(state: StateId) returns (b: StateBuilder)
      modifies this
      ensures config == WithState(old(config).(initialState := Flat.Initial(Some(state))), state)
      ensures fresh(b) && b.parent == this && b.state == state && b.Valid()
      ensures Extends(old(config), config)
    {
      config := config.(initialState := Flat.Initial(Some(state)));
      b := State(state);
    }

    /** `state(s)`: creates the state's entry only if absent and returns a builder for it. */
    method State(state: StateId) returns (b: StateBuilder)
      modifies this
      ensures config == WithState(old(config), state)
      ensures fresh(b) && b.parent == this && b.state == state && b.Valid()
      ensures Extends(old(config), config)
    {
      if state !in config.states {
        config := config.(states := config.states[state := NewStateConfig]);
      }
      b := new StateBuilder(this, state);
    }

    /** `getConfiguration()`. */
    function GetConfiguration(): Flat.Config
      reads this
    {
      config
    }

    /** `build()`: `new StateMachine(config)`, with all of its checks. */
    method Build(foreign: Flat.Foreign) returns (m: Flat.StateMachine?, error: Option<string>)
      ensures error == Flat.ConstructionError(Flat.ConfigObject(config))
      ensures error.Some? <==> config.initialState.Unset?
      ensures error.Some? <==> m == null
      ensures m != null ==>
        fresh(m) && m.config == config && m.foreign == foreign &&
        config.initialState.Initial? && m.currentState == config.initialState.state
    {
      m, error := Flat.StateMachine.Create(Flat.ConfigObject(config), foreign);
    }
  }

  /** The builder of one state's configuration. */
  class StateBuilder {
    const parent: StateMachineBuilder
    const state: StateId

    /** The entry this builder edits exists. */
    ghost predicate Valid()
      reads parent
    {
      state in parent.config.states
    }

    constructor (parent: StateMachineBuilder, state: StateId)
      ensures this.parent == parent && this.state == state
    {
      this.parent := parent;
      this.state := state;
    }

    /** `onEnter(action)`: sets the entry action; a later call overwrites it. */
    method OnEnter(action: Label) returns (b: StateBuilder)
      requires Valid()
      modifies parent
      ensures b == this && Valid() && Extends(old(parent.config), parent.config)
      ensures parent.config == UpdateState(old(parent.config), state, old(parent.config.states[state]).(entryAction := Some(action)))
    {
      var sc := parent.config.states[state];
      parent.config := parent.config.(states := parent.config.states[state := sc.(entryAction := Some(action))]);
      b := this;
    }

    /** `onExit(action)`: sets the exit action; a later call overwrites it. */
    method OnExit(action: Label) returns (b: StateBuilder)
      requires Valid()
      modifies parent
      ensures b == this && Valid() && Extends(old(parent.config), parent.config)
      ensures parent.config == UpdateState(old(parent.config), state, old(parent.config.states[state]).(exitAction := Some(action)))
    {
      var sc := parent.config.states[state];
      parent.config := parent.config.(states := parent.config.states[state := sc.(exitAction := Some(action))]);
      b := this;
    }

    /** `on(event)`: creates the event's entry, with no transitions, only if absent; returns a builder for it. */
    method On(event: EventId) returns (b: EventBuilder)
      requires Valid()
      modifies parent
      ensures parent.config == WithEvent(old(parent.config), state, event)
      ensures fresh(b) && b.parent == this && b.event == event && b.Valid()
      ensures Extends(old(parent.config), parent.config)
    {
      var sc := parent.config.states[state];
      if event !in sc.events {
        parent.config := parent.config.(states := parent.config.states[state := sc.(events := sc.events[event := NewEventConfig])]);
      }
      WithEventReuses(old(parent.config), state, event);
      b := new EventBuilder(this, event);
    }
  }

  /** The builder of one event entry of a state. */
  class EventBuilder {
    const parent: StateBuilder
    const event: EventId

    ghost predicate Valid()
      reads parent, parent.parent
    {
      parent.Valid() && event in parent.parent.config.states[parent.state].events
    }

    constructor (parent: StateBuilder, event: EventId)
      ensures this.parent == parent && this.event == event
    {
      this.parent := parent;
      this.event := event;
    }

    /** `transition(targetState, isInternal)`: appends a new transition config and returns a builder for it. */
    method Transition(targetState: Option<StateId>, isInternal: bool) returns (b: TransitionBuilder)
      requires Valid()
      modifies parent.parent
      ensures parent.parent.config == WithTransition(old(parent.parent.config), parent.state, event, NewTransition(targetState, isInternal))
      ensures fresh(b) && b.parent == this && b.index == |old(parent.parent.config.states[parent.state].events[event].transitions)|
      ensures b.Valid() && Extends(old(parent.parent.config), parent.parent.config)
    {
      var root := parent.parent;
      var sc := root.config.states[parent.state];
      var ec := sc.events[event];
      var t := NewTransition(targetState, isInternal);
      root.config := root.config.(states := root.config.states[parent.state := sc.(events := sc.events[event := ec.(transitions := ec.transitions + [t])])]);
      WithTransitionAppends(old(root.config), parent.state, event, t);
      b := new TransitionBuilder(this, |ec.transitions|);
    }

    /** `selfTransition()`: `transition(null, false)`, which is not internal. */
    method SelfTransition() returns (b: TransitionBuilder)
      requires Valid()
      modifies parent.parent
      ensures parent.parent.config == WithTransition(old(parent.parent.config), parent.state, event, Flat.Transition(None, false, None, None))
      ensures fresh(b) && b.parent == this && b.Valid() && Extends(old(parent.parent.config), parent.parent.config)
    {
      b := Transition(None, false);
    }

    /** `internalTransition()`: `transition(null, true)`, which is internal. */
    method InternalTransition() returns (b: TransitionBuilder)
      requires Valid()
      modifies parent.parent
      ensures parent.parent.config == WithTransition(old(parent.parent.config), parent.state, event, Flat.Transition(None, true, None, None))
      ensures fresh(b) && b.parent == this && b.Valid() && Extends(old(parent.parent.config), parent.parent.config)
    {
      b := Transition(None, true);
    }
  }

  /** The builder of one transition config: the one at `index` in its event's list. */
  class TransitionBuilder {
    const parent: EventBuilder
    const index: nat

    ghost predicate Valid()
      reads parent, parent.parent, parent.parent.parent
    {
      parent.Valid() &&
      index < |parent.parent.parent.config.states[parent.parent.state].events[parent.event].transitions|
    }

    constructor (parent: EventBuilder, index: nat)
      ensures this.parent == parent && this.index == index
    {
      this.parent := parent;
      this.index := index;
    }

    /** The transition config this builder edits. */
    ghost function Current(): Flat.Transition
      reads parent, parent.parent, parent.parent.parent
      requires Valid()
    {
      parent.parent.parent.config.states[parent.parent.state].events[parent.event].transitions[index]
    }

    /** `withAction(action)`: sets the transition's action; a later call overwrites it. */
    method WithAction(action: Label) returns (b: TransitionBuilder)
      requires Valid()
      modifies parent.parent.parent
      ensures b == this && Valid() && Extends(old(parent.parent.parent.config), parent.parent.parent.config)
      ensures parent.parent.parent.config ==
        UpdateTransition(old(parent.parent.parent.config), parent.parent.state, parent.event, index, old(Current()).(action := Some(action)))
    {
      var root := parent.parent.parent;
      var sc := root.config.states[parent.parent.state];
      var ec := sc.events[parent.event];
      var t := ec.transitions[index].(action := Some(action));
      root.config := root.config.(states := root.config.states[parent.parent.state := sc.(events := sc.events[parent.event := ec.(transitions := ec.transitions[index := t])])]);
      b := this;
    }

    /** `withCondition(condition)`: sets the transition's guard; a later call overwrites it. */
    method WithCondition(condition: Label) returns (b: TransitionBuilder)
      requires Valid()
      modifies parent.parent.parent
      ensures b == this && Valid() && Extends(old(parent.parent.parent.config), parent.parent.parent.config)
      ensures parent.parent.parent.config ==
        UpdateTransition(old(parent.parent.parent.config), parent.parent.state, parent.event, index, old(Current()).(condition := Some(condition)))
    {
      var root := parent.parent.parent;
      var sc := root.config.states[parent.parent.state];
      var ec := sc.events[parent.event];
      var t := ec.transitions[index].(condition := Some(condition));
      root.config := root.config.(states := root.config.states[parent.parent.state := sc.(events := sc.events[parent.event := ec.(transitions := ec.transitions[index := t])])]);
      b := this;
    }
  }
}
