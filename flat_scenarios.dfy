/**
 * Worked scenarios of the flat machine of src/StateMachine.js, configured
 * through the builder of src/StateMachineBuilder.js, as the examples in
 * src/__tests__/StateMachine-test.js configure it.
 */
module FlatScenarios {
  import opened Wrappers
  import Flat
  import Builder

  /**
   * The configuration made by
   * `onStateEnter(h1).onStateExit(h2).onTransition(h3).initialState('State1')
   *  .on('event').transition('State2').withAction(a).onExit(x)
   *  .state('State2').onEnter(n)`.
   */
  const OrderConfig := Flat.Config(
    Flat.Initial(Some("State1")),
    map[
      "State1" := Flat.StateConfig(None, Some("exitAction"),
        map["event" := Flat.EventConfig([Flat.Transition(Some("State2"), false, Some("transitionAction"), None)])]),
      "State2" := Flat.StateConfig(Some("entryAction"), None, map[])],
    Some("stateEnter"), Some("stateExit"), Some("transition"), None)

  /** The builder's edits, one call at a time, produce exactly `OrderConfig`. */
  lemma BuilderMakesOrderConfig()
    ensures
      var c0 := Builder.EmptyConfig.(stateEnterHandler := Some("stateEnter")).(stateExitHandler := Some("stateExit")).(transitionHandler := Some("transition"));
      var c1 := Builder.WithState(c0.(initialState := Flat.Initial(Some("State1"))), "State1");
      var c2 := Builder.WithEvent(c1, "State1", "event");
      var c3 := Builder.WithTransition(c2, "State1", "event", Builder.NewTransition(Some("State2"), false));
      var c4 := Builder.UpdateTransition(c3, "State1", "event", 0, c3.states["State1"].events["event"].transitions[0].(action := Some("transitionAction")));
      var c5 := Builder.UpdateState(c4, "State1", c4.states["State1"].(exitAction := Some("exitAction")));
      var c6 := Builder.WithState(c5, "State2");
      c6.states.Keys == {"State1", "State2"} &&
      Builder.UpdateState(c6, "State2", c6.states["State2"].(entryAction := Some("entryAction"))) == OrderConfig
  {
    var c0 := Builder.EmptyConfig.(stateEnterHandler := Some("stateEnter")).(stateExitHandler := Some("stateExit")).(transitionHandler := Some("transition"));
    var c1 := Builder.WithState(c0.(initialState := Flat.Initial(Some("State1"))), "State1");
    assert c1.states == map["State1" := Builder.NewStateConfig];
    var c2 := Builder.WithEvent(c1, "State1", "event");
    var c3 := Builder.WithTransition(c2, "State1", "event", Builder.NewTransition(Some("State2"), false));
    assert c3.states["State1"].events["event"].transitions == [Flat.Transition(Some("State2"), false, None, None)];
    var c4 := Builder.UpdateTransition(c3, "State1", "event", 0, c3.states["State1"].events["event"].transitions[0].(action := Some("transitionAction")));
    assert c4.states["State1"].events["event"].transitions == [Flat.Transition(Some("State2"), false, Some("transitionAction"), None)];
    var c5 := Builder.UpdateState(c4, "State1", c4.states["State1"].(exitAction := Some("exitAction")));
    assert "State2" !in c5.states;
    var c6 := Builder.WithState(c5, "State2");
    var c7 := Builder.UpdateState(c6, "State2", c6.states["State2"].(entryAction := Some("entryAction")));
    assert c5.states["State1"] == OrderConfig.states["State1"];
    assert c7.states["State2"] == OrderConfig.states["State2"];
    assert c7.states.Keys == OrderConfig.states.Keys;
  }

  /** User functions that all return without raising anything. */
  ghost predicate Quiet(foreign: Flat.Foreign) {
    forall c :: foreign.react(c) == Flat.Reaction([], None)
  }

  /**
   * Handling `event` in `State1` calls the exit handler, the exit action, the
   * transition handler, the transition action, the enter handler and the
   * entry action, in that order, and ends in `State2`.
   */
  lemma HandlerCallOrder(foreign: Flat.Foreign)
    requires Quiet(foreign)
    ensures Flat.CoreStep(OrderConfig, foreign, Some("State1"), "event") ==
      var during := Some("State1");
      var s1 := Flat.OfState(Some("State1"));
      var s2 := Flat.OfState(Some("State2"));
      var ft := Flat.FromTo(Some("State1"), Some("State2"));
      Flat.Step([
        Flat.Invoked(Flat.Call(Flat.StateExitHandler, "stateExit", s1), during),
        Flat.Invoked(Flat.Call(Flat.ExitAction, "exitAction", s1), during),
        Flat.Invoked(Flat.Call(Flat.TransitionHandler, "transition", ft), during),
        Flat.Invoked(Flat.Call(Flat.TransitionAction, "transitionAction", ft), during),
        Flat.Invoked(Flat.Call(Flat.StateEnterHandler, "stateEnter", s2), during),
        Flat.Invoked(Flat.Call(Flat.EntryAction, "entryAction", s2), during)],
        [], Some("State2"), None)
  {
    var t := Flat.Transition(Some("State2"), false, Some("transitionAction"), None);
    assert Flat.TransitionFor(OrderConfig, foreign, Some("State1"), "event") == Some(t);
    var calls := Flat.PlanFor(OrderConfig, foreign, Some("State1"), "event").calls;
    assert |calls| == 6;
    Flat.RunCallsInOrder(foreign, calls, Some("State1"));
    var r := Flat.RunCalls(foreign, calls, Some("State1"));
    assert r.raised == [] by {
      QuietRaisesNothing(foreign, calls, Some("State1"));
    }
  }

  /** Quiet user functions raise nothing and never throw. */
  lemma {:induction false} QuietRaisesNothing(foreign: Flat.Foreign, calls: seq<Flat.Call>, during: Flat.State)
    requires Quiet(foreign)
    ensures Flat.RunCalls(foreign, calls, during).raised == [] && Flat.RunCalls(foreign, calls, during).error.None?
    decreases |calls|
  {
    if calls != [] {
      assert foreign.react(calls[0]) == Flat.Reaction([], None);
      QuietRaisesNothing(foreign, calls[1..], during);
    }
  }
}
