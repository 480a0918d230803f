/**
 * Concrete runs of the engine's semantics that pin down the exact call order
 * the library's behaviour descriptions give.
 */
module EngineScenarios {
  import opened Wrappers
  import opened Values
  import opened EngineConfig
  import opened EngineSemantics
  import EngineProperties

  function Leaf(entry: seq<Label>, exit: seq<Label>): StateConfig {
    StateConfig(entry, exit, map[], [], [], None)
  }

  /** A configuration carrying one labelled hook of each global kind but the unhandled-event one. */
  function WithGlobalHooks(initial: StateId, states: map<StateId, StateConfig>): Config {
    Config(Some(initial), states, ["stateEnterHook"], ["stateExitHook"], ["stateChangeHook"], ["transitionHook"], [])
  }

  function Submachine1(): Config { WithGlobalHooks("state11", map["state11" := Leaf([], ["stateExitAction"])]) }
  function Submachine2(): Config { WithGlobalHooks("state21", map["state21" := Leaf(["stateEntryAction"], [])]) }

  function ToState2(): TransitionConfig { TransitionConfig(Some("state2"), false, ["transitionAction"], None) }

  function Root(): Config {
    WithGlobalHooks("state1", map[
      "state1" := StateConfig([], ["stateExitAction"], map["event1" := TriggerConfig([ToState2()])], [], [], Some(Submachine1())),
      "state2" := StateConfig(["stateEntryAction"], [], map[], [], [], Some(Submachine2()))])
  }

  function Started(): Option<Run> { Some(Run("state1", None, Some(Run("state11", None, None)))) }
  function Event1(): Context { EventContext(Some("event1"), None) }

  lemma StartRoot()
    ensures Start(Root(), None, 0).run == Started()
  {
    var s1 := Submachine1();
    assert "state11" in s1.states && s1.states["state11"].submachine.None?;
    assert EnterEffects(s1, None, "state11", EmptyContext, 0).run == Some(Run("state11", None, None));
    assert SubmachineStart(s1, 0).run == Some(Run("state11", None, None));
    var root := Root();
    assert "state1" in root.states && root.states["state1"].submachine == Some(s1);
    assert root.states["state1"].timers == [];
  }

  lemma ExitState1()
    ensures ExitEffects(Root(), Started().value, Event1()) == [
      Invoke(StateExitHook, "stateExitHook", AtState("state11", EmptyContext)),
      Invoke(ExitAction, "stateExitAction", AtState("state11", EmptyContext)),
      Invoke(StateExitHook, "stateExitHook", AtState("state1", Event1())),
      Invoke(ExitAction, "stateExitAction", AtState("state1", Event1()))]
  {
    var s1 := Submachine1();
    var root := Root();
    assert SubConfig(root, "state1") == Some(s1);
    assert ExitEffects(s1, Run("state11", None, None), EmptyContext) == [
      Invoke(StateExitHook, "stateExitHook", AtState("state11", EmptyContext)),
      Invoke(ExitAction, "stateExitAction", AtState("state11", EmptyContext))];
  }

  lemma EnterState2()
    ensures EnterEffects(Root(), Some("state1"), "state2", Event1(), 0) == Effects([
      Invoke(StateEnterHook, "stateEnterHook", AtState("state2", Event1())),
      Invoke(EntryAction, "stateEntryAction", AtState("state2", Event1())),
      Invoke(StateChangeHook, "stateChangeHook", Between("state1", "state2", Event1())),
      Invoke(StateEnterHook, "stateEnterHook", AtState("state21", EmptyContext)),
      Invoke(EntryAction, "stateEntryAction", AtState("state21", EmptyContext))],
      Some(Run("state2", None, Some(Run("state21", None, None)))), 0, None)
  {
    var s2 := Submachine2();
    var root := Root();
    assert "state21" in s2.states && s2.states["state21"] == Leaf(["stateEntryAction"], []);
    assert EnterEffects(s2, None, "state21", EmptyContext, 0) == Effects(
      [Invoke(StateEnterHook, "stateEnterHook", AtState("state21", EmptyContext)),
       Invoke(EntryAction, "stateEntryAction", AtState("state21", EmptyContext))],
      Some(Run("state21", None, None)), 0, None);
    assert SubmachineStart(s2, 0) == EnterEffects(s2, None, "state21", EmptyContext, 0);
    assert "state2" in root.states && root.states["state2"] == StateConfig(["stateEntryAction"], [], map[], [], [], Some(s2));
  }

  lemma Event1SelectsState2()
    ensures !CanHandle(Submachine1(), Some(Run("state11", None, None)), Some("event1"), None)
    ensures TransitionFor(Root(), Some("state1"), Event1()) == Some(ToState2())
  {
    var s1 := Submachine1();
    assert "state11" in s1.states && s1.states["state11"].events == map[];
    assert FirstEligible([ToState2()], Event1()) == Some(0);
    var root := Root();
    assert "state1" in root.states && root.states["state1"].events == map["event1" := TriggerConfig([ToState2()])];
  }

  /** The transition of `event1`: exit `state1` (and its submachine), the transition's calls, then enter `state2`. */
  lemma TransitionToState2()
    ensures TransitionEffects(Root(), Started().value, ToState2(), Event1(), 0) == Effects(
      ExitEffects(Root(), Started().value, Event1()) + [
        Invoke(TransitionHook, "transitionHook", Between("state1", "state2", Event1())),
        Invoke(TransitionAction, "transitionAction", Between("state1", "state2", Event1()))] +
      EnterEffects(Root(), Some("state1"), "state2", Event1(), 0).trace,
      EnterEffects(Root(), Some("state1"), "state2", Event1(), 0).run, 0, None)
  {
    EnterState2();
    assert NextState(ToState2(), "state1") == "state2";
  }

  /**
   * Leaving a state with a submachine for another state with a submachine:
   * the old submachine exits first with its own empty context, then the old
   * state, the transition, the new state and last the new submachine, which
   * again gets an empty context.
   */
  lemma TransitionBetweenSubmachineStates()
    ensures Start(Root(), None, 0).run == Started()
    ensures var h := HandleEffects(Root(), Started(), true, Some("event1"), None, 0);
      var ctx := Event1();
      h.handled && h.effects.error.None? &&
      Hierarchy(h.effects.run) == ["state2", "state21"] &&
      h.effects.trace == [
        Invoke(StateExitHook, "stateExitHook", AtState("state11", EmptyContext)),
        Invoke(ExitAction, "stateExitAction", AtState("state11", EmptyContext)),
        Invoke(StateExitHook, "stateExitHook", AtState("state1", ctx)),
        Invoke(ExitAction, "stateExitAction", AtState("state1", ctx)),
        Invoke(TransitionHook, "transitionHook", Between("state1", "state2", ctx)),
        Invoke(TransitionAction, "transitionAction", Between("state1", "state2", ctx)),
        Invoke(StateEnterHook, "stateEnterHook", AtState("state2", ctx)),
        Invoke(EntryAction, "stateEntryAction", AtState("state2", ctx)),
        Invoke(StateChangeHook, "stateChangeHook", Between("state1", "state2", ctx)),
        Invoke(StateEnterHook, "stateEnterHook", AtState("state21", EmptyContext)),
        Invoke(EntryAction, "stateEntryAction", AtState("state21", EmptyContext))]
  {
    StartRoot();
    HandlingEvent1();
    State2Hierarchy();
    Event1CallOrder();
  }

  /** The calls made while handling `event1`, as the test lists them. */
  lemma Event1CallOrder()
    ensures var ctx := Event1();
      HandleEffects(Root(), Started(), true, Some("event1"), None, 0).effects.trace == [
        Invoke(StateExitHook, "stateExitHook", AtState("state11", EmptyContext)),
        Invoke(ExitAction, "stateExitAction", AtState("state11", EmptyContext)),
        Invoke(StateExitHook, "stateExitHook", AtState("state1", ctx)),
        Invoke(ExitAction, "stateExitAction", AtState("state1", ctx)),
        Invoke(TransitionHook, "transitionHook", Between("state1", "state2", ctx)),
        Invoke(TransitionAction, "transitionAction", Between("state1", "state2", ctx)),
        Invoke(StateEnterHook, "stateEnterHook", AtState("state2", ctx)),
        Invoke(EntryAction, "stateEntryAction", AtState("state2", ctx)),
        Invoke(StateChangeHook, "stateChangeHook", Between("state1", "state2", ctx)),
        Invoke(StateEnterHook, "stateEnterHook", AtState("state21", EmptyContext)),
        Invoke(EntryAction, "stateEntryAction", AtState("state21", EmptyContext))]
  {
    ExitState1();
    EnterState2();
    HandlingEvent1();
  }

  /** The run `event1` leaves is the hierarchy `[state2, state21]`. */
  lemma State2Hierarchy()
    ensures Hierarchy(Some(Run("state2", None, Some(Run("state21", None, None))))) == ["state2", "state21"]
  {
  }

  /** Handling `event1` from the started root: the transition's calls, and the run it leaves. */
  lemma HandlingEvent1()
    ensures var h := HandleEffects(Root(), Started(), true, Some("event1"), None, 0);
      h.handled && h.effects.error.None? &&
      h.effects.run == Some(Run("state2", None, Some(Run("state21", None, None)))) &&
      h.effects.trace == ExitEffects(Root(), Started().value, Event1()) + [
        Invoke(TransitionHook, "transitionHook", Between("state1", "state2", Event1())),
        Invoke(TransitionAction, "transitionAction", Between("state1", "state2", Event1()))] +
        EnterEffects(Root(), Some("state1"), "state2", Event1(), 0).trace
  {
    EnterState2();
    TransitionToState2();
    RootTakesTransitionToState2();
  }

  /** The submachine of `state1` declines `event1`, so the root takes its own transition to `state2`. */
  lemma RootTakesTransitionToState2()
    ensures HandleEffects(Root(), Started(), true, Some("event1"), None, 0) ==
      Handling(true, TransitionEffects(Root(), Started().value, ToState2(), Event1(), 0))
  {
    Event1SelectsState2();
    var root := Root();
    assert SubConfig(root, "state1") == Some(Submachine1());
    EngineProperties.HandledIffCanHandle(Submachine1(), Some(Run("state11", None, None)), false, Some("event1"), None, 0);
    EngineProperties.SubLevelSilentUnlessHandled(Submachine1(), Some(Run("state11", None, None)), Some("event1"), None, 0);
  }

  /** Guards are tried in order: the first transition whose condition holds is taken, and none if every one fails. */
  lemma FirstTrueGuardWins(ctx: Context)
    ensures var no := TransitionConfig(Some("state2"), false, [], Some(_ => false));
      var yes := TransitionConfig(Some("state3"), false, [], Some(_ => true));
      var also := TransitionConfig(Some("state4"), false, [], None);
      FirstEligible([no, yes, also], ctx) == Some(1) &&
      FirstEligible([no, no], ctx) == None
  {
    var no := TransitionConfig(Some("state2"), false, [], Some(_ => false));
    var yes := TransitionConfig(Some("state3"), false, [], Some(_ => true));
    var also := TransitionConfig(Some("state4"), false, [], None);
    assert [no, yes, also][1..] == [yes, also];
    assert [no, no][1..] == [no];
  }
}
