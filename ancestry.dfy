/**
 * `getAncestor(type)` of the builders (src/StateMachineBuilder.js) and of the
 * configurators (src/configuration/BaseConfigurator.js and
 * ChildConfigurator.js). Each object points to its parent; `getAncestor`
 * walks up that chain with `instanceof`. The walk itself is pure, so objects
 * are modelled here by their classes only, and a chain of parents is a
 * sequence of classes: `c[0]` is the receiver, `c[i + 1]` is the parent of
 * `c[i]`, and the last element has no parent.
 */
module Ancestry {
  import opened Wrappers

  /** The classes that take part, with the base classes they extend. */
  datatype Class =
    | StateMachineBuilderClass | ChildBuilderClass
    | StateBuilderClass | EventBuilderClass | TransitionBuilderClass
    | BaseConfiguratorClass | ChildConfiguratorClass
    | StateMachineConfiguratorClass | GlobalConfiguratorClass | EventConfiguratorClass
    | TriggerConfiguratorClass | TimerConfiguratorClass | AsyncActionConfiguratorClass
    | StateConfiguratorClass | TransitionConfiguratorClass
    | OtherClass(id: nat)

  /** The class a class extends directly (`extends`), if any. */
  function Superclass(k: Class): Option<Class> {
    match k
    case StateBuilderClass => Some(ChildBuilderClass)
    case EventBuilderClass => Some(ChildBuilderClass)
    case TransitionBuilderClass => Some(ChildBuilderClass)
    case StateMachineConfiguratorClass => Some(BaseConfiguratorClass)
    case GlobalConfiguratorClass => Some(BaseConfiguratorClass)
    case EventConfiguratorClass => Some(BaseConfiguratorClass)
    case TriggerConfiguratorClass => Some(BaseConfiguratorClass)
    case TimerConfiguratorClass => Some(TriggerConfiguratorClass)
    case AsyncActionConfiguratorClass => Some(BaseConfiguratorClass)
    case StateConfiguratorClass => Some(ChildConfiguratorClass)
    case TransitionConfiguratorClass => Some(ChildConfiguratorClass)
    case _ => None
  }

  /** How deep a class sits below a root class. */
  function Depth(k: Class): nat {
    match k
    case TimerConfiguratorClass => 2
    case _ => if Superclass(k).Some? then 1 else 0
  }

  /** `x instanceof type` for an object `x` of class `k`. */
  predicate InstanceOf(k: Class, wanted: Class)
    decreases Depth(k)
  {
    k == wanted || (Superclass(k).Some? && InstanceOf(Superclass(k).value, wanted))
  }

  /** Which `getAncestor` an object of class `k` has, if any. */
  datatype Lookup = BaseLookup | ChildLookup | NoLookup

  function LookupOf(k: Class): Lookup {
    if InstanceOf(k, BaseConfiguratorClass) then BaseLookup
    else if InstanceOf(k, ChildBuilderClass) || InstanceOf(k, ChildConfiguratorClass) then ChildLookup
    else NoLookup
  }

  /**
   * What `getAncestor` gives back: an ancestor (by its index in the chain),
   * `null`, `undefined` (from `parent.getAncestor && ...` when the parent has
   * no `getAncestor`), or a `TypeError` from reading or calling a member of
   * `undefined`.
   */
  datatype Answer = Found(index: nat) | NullAnswer | UndefinedAnswer | TypeErrorAnswer

  /** `c[i].getAncestor(type)`, for a receiver that has a `getAncestor`. */
  function GetAncestor(c: seq<Class>, i: nat, wanted: Class): (r: Answer)
    requires i < |c| && LookupOf(c[i]) != NoLookup
    ensures r.Found? ==>
      i < r.index < |c| && InstanceOf(c[r.index], wanted) &&
      forall k :: i < k < r.index ==> !InstanceOf(c[k], wanted) && LookupOf(c[k]) != NoLookup
    decreases |c| - i
  {
    var hasParent := i + 1 < |c|;
    match LookupOf(c[i])
    case BaseLookup =>
      if !hasParent then NullAnswer
      else if InstanceOf(c[i + 1], wanted) then Found(i + 1)
      else if LookupOf(c[i + 1]) == NoLookup then TypeErrorAnswer
      else GetAncestor(c, i + 1, wanted)
    case ChildLookup =>
      if !hasParent then TypeErrorAnswer
      else if InstanceOf(c[i + 1], wanted) then Found(i + 1)
      else if LookupOf(c[i + 1]) == NoLookup then UndefinedAnswer
      else GetAncestor(c, i + 1, wanted)
  }

  /**
   * Nearest ancestor: when every object between the receiver and the first
   * ancestor of the requested type has a `getAncestor`, that ancestor is the
   * answer.
   */
  lemma {:induction false} GetAncestorFindsNearest(c: seq<Class>, i: nat, j: nat, wanted: Class)
    requires i < j < |c| && LookupOf(c[i]) != NoLookup
    requires InstanceOf(c[j], wanted)
    requires forall k :: i < k < j ==> !InstanceOf(c[k], wanted) && LookupOf(c[k]) != NoLookup
    ensures GetAncestor(c, i, wanted) == Found(j)
    decreases j - i
  {
    var hasParent := i + 1 < |c|;
    assert hasParent && InstanceOf(c[j], wanted);
    if i + 1 < j {
      assert !InstanceOf(c[i + 1], wanted) && LookupOf(c[i + 1]) != NoLookup;
      GetAncestorFindsNearest(c, i + 1, j, wanted);
    }
  }

  /** A configurator without a parent answers `null`, whatever the type. */
  lemma BaseWithoutParentAnswersNull(c: seq<Class>, wanted: Class)
    requires |c| == 1 && LookupOf(c[0]) == BaseLookup
    ensures GetAncestor(c, 0, wanted) == NullAnswer
  {
  }

  /**
   * A child whose parent is not of the requested type and has no
   * `getAncestor` (such as the `StateMachineBuilder` at the top of a builder
   * chain) answers `undefined`, which is falsy.
   */
  lemma ChildUnderPlainParentAnswersUndefined(c: seq<Class>, i: nat, wanted: Class)
    requires i + 1 < |c| && LookupOf(c[i]) == ChildLookup
    requires !InstanceOf(c[i + 1], wanted) && LookupOf(c[i + 1]) == NoLookup
    ensures GetAncestor(c, i, wanted) == UndefinedAnswer
  {
  }

  /** When no object above the receiver has the requested type, the walk finds nothing. */
  lemma {:induction false} NoAncestorOfType(c: seq<Class>, i: nat, wanted: Class)
    requires i < |c| && LookupOf(c[i]) != NoLookup
    requires forall k :: i < k < |c| ==> !InstanceOf(c[k], wanted)
    ensures !GetAncestor(c, i, wanted).Found?
    decreases |c| - i
  {
    if i + 1 < |c| && LookupOf(c[i + 1]) != NoLookup {
      NoAncestorOfType(c, i + 1, wanted);
    }
  }

  /** The chain of a transition builder: its event builder, state builder and state machine builder. */
  const TransitionBuilderChain := [TransitionBuilderClass, EventBuilderClass, StateBuilderClass, StateMachineBuilderClass]

  /**
   * The delegations of src/StateMachineBuilder.js reach the right object: from
   * a transition builder, the state builder, the event builder and the state
   * machine builder are found, and every child builder is a `ChildBuilder`.
   */
  lemma TransitionBuilderAncestors()
    ensures GetAncestor(TransitionBuilderChain, 0, EventBuilderClass) == Found(1)
    ensures GetAncestor(TransitionBuilderChain, 0, StateBuilderClass) == Found(2)
    ensures GetAncestor(TransitionBuilderChain, 0, StateMachineBuilderClass) == Found(3)
    ensures GetAncestor(TransitionBuilderChain, 0, ChildBuilderClass) == Found(1)
    ensures GetAncestor(TransitionBuilderChain, 1, TransitionBuilderClass) == UndefinedAnswer
  {
    TransitionBuilderFindsEventBuilder();
    TransitionBuilderFindsStateBuilder();
    TransitionBuilderFindsStateMachineBuilder();
    TransitionBuilderFindsChildBuilder();
    EventBuilderFindsNoTransitionBuilder();
  }

  lemma TransitionBuilderFindsEventBuilder()
    ensures GetAncestor(TransitionBuilderChain, 0, EventBuilderClass) == Found(1)
  {
  }

  lemma TransitionBuilderFindsStateBuilder()
    ensures GetAncestor(TransitionBuilderChain, 0, StateBuilderClass) == Found(2)
  {
  }

  lemma TransitionBuilderFindsStateMachineBuilder()
    ensures GetAncestor(TransitionBuilderChain, 0, StateMachineBuilderClass) == Found(3)
  {
  }

  lemma TransitionBuilderFindsChildBuilder()
    ensures GetAncestor(TransitionBuilderChain, 0, ChildBuilderClass) == Found(1)
  {
  }

  lemma EventBuilderFindsNoTransitionBuilder()
    ensures GetAncestor(TransitionBuilderChain, 1, TransitionBuilderClass) == UndefinedAnswer
  {
  }

  /** The chain of a transition of an event: event, state and state machine configurators above it. */
  const TransitionConfiguratorChain := [TransitionConfiguratorClass, EventConfiguratorClass, StateConfiguratorClass, StateMachineConfiguratorClass]

  /**
   * A trigger of an asynchronous action (a `TriggerConfigurator` whose parent is
   * the `AsyncActionConfigurator`) finds that configurator; a timer is a
   * trigger, so asking a timer's child for a `TriggerConfigurator` finds the timer.
   */
  lemma ConfiguratorAncestors()
    ensures GetAncestor([TriggerConfiguratorClass, AsyncActionConfiguratorClass], 0, AsyncActionConfiguratorClass) == Found(1)
    ensures GetAncestor([TriggerConfiguratorClass, AsyncActionConfiguratorClass], 0, StateMachineConfiguratorClass) == NullAnswer
    ensures GetAncestor([TransitionConfiguratorClass, TimerConfiguratorClass], 0, TriggerConfiguratorClass) == Found(1)
    ensures GetAncestor(TransitionConfiguratorChain, 0, StateMachineConfiguratorClass) == Found(3)
  {
    TriggerFindsAsyncAction();
    TriggerFindsNoStateMachine();
    TimerIsTrigger();
    TransitionFindsStateMachine();
  }

  lemma TriggerFindsAsyncAction()
    ensures GetAncestor([TriggerConfiguratorClass, AsyncActionConfiguratorClass], 0, AsyncActionConfiguratorClass) == Found(1)
  {
  }

  lemma TriggerFindsNoStateMachine()
    ensures GetAncestor([TriggerConfiguratorClass, AsyncActionConfiguratorClass], 0, StateMachineConfiguratorClass) == NullAnswer
  {
  }

  lemma TimerIsTrigger()
    ensures GetAncestor([TransitionConfiguratorClass, TimerConfiguratorClass], 0, TriggerConfiguratorClass) == Found(1)
  {
  }

  lemma TransitionFindsStateMachine()
    ensures GetAncestor(TransitionConfiguratorChain, 0, StateMachineConfiguratorClass) == Found(3)
  {
  }
}
