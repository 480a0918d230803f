# finity, modelled in Dafny

finity is a JavaScript library of finite state machines. A machine is described
by a configuration: states, events, transitions with optional guards (conditions)
and actions, entry and exit actions, and global hooks. It then handles events
one at a time. The repository contains two generations of the library, and this
project models both:

- **The flat machine** (`src/StateMachine.js`). It is built through the fluent
  builder of `src/StateMachineBuilder.js`, and events raised while an event is
  being handled are queued. Modules `Flat` (the machine) and `Builder` (the
  builder); worked examples in `FlatScenarios`.
- **The engine** (`src/core/StateMachine.js`). It adds timers, asynchronous
  actions, submachines nested in states, start/stop, state-change hooks and
  unhandled-event hooks. Modules `EngineConfig` (configuration and trace
  entries), `EngineSemantics` (what one call does, as pure functions of the
  configuration and the running chain of states), `Engine` (the classes that
  update their fields in place, each method proved against `EngineSemantics`),
  `EngineProperties` (lemmas about the semantics) and `EngineScenarios` (the
  repository's hierarchical transition test, as lemmas).
- **Around the engine**:
  - the queueing `Dispatcher` (`Dispatching`);
  - `AsyncActionSubscription` (`AsyncActionSubscriptions`);
  - the error constructors (`Errors`);
  - the facade `HierarchicalStateMachine`, which walks the chain of submachines (`Hierarchy`);
  - the fluent configurators of `src/configuration/` (`Configuration`);
  - the `getAncestor` walk shared by builders and configurators (`Ancestry`);
  - the utilities `deepCopy`, `mapValues` and `merge` (`DeepCopy`, `MapValues`, `Merge`).

User callbacks are not Dafny code. Every hook, action and guard is a label.

- **In the engine**, calling a hook appends a labelled entry to the host's
  trace (`Engine.Host`). Guards are total functions of the context.
- **In the flat machine**, a `Foreign` parameter says, for each call, which
  events the callback raises and whether it throws. Guards are a predicate on
  the guard's label, because the flat machine calls guards with no arguments.
- **Timers** are host-issued ids. `SetTimeout` and `ClearTimeout` entries are
  recorded in the trace.
- **An asynchronous action** settles when `Engine.StateMachine.SettleAsyncAction`
  is called.

The loops of the source stay loops: the drain of the event queue, the
selection of the first eligible transition, the starting of timers and actions,
and the walk over the chain of machines. Each loop lives in a method whose
`ensures` ties the new state of the object to a pure function, and the lemmas
about that function carry the properties.

## Model

| member | source | states |
|---|---|---|
| Errors.NewUnhandledEventError | src/core/Errors.js:1-8 | the error keeps the event, the state and the context passed in, and its message can be parsed back into that event and state whenever the event has no quote |
| Errors.NewStateMachineNotStartedError | src/core/Errors.js:10-15 | the error refers to the machine it was raised for, with the fixed message about handling events before starting |
| Errors.NewStateMachineConfigError | src/core/Errors.js:17 | a configuration error carries exactly the message it was given |
| Errors.UnhandledEventMessageRoundTrip | src/core/Errors.js:3 | the message "Unhandled event 'e' in state 's'." parses back to (e, s) when e has no quote |
| Errors.UnhandledEventMessageInjective | src/core/Errors.js:3 | two quote-free events whose messages are equal have the same event and the same state |
| AsyncActionSubscriptions.AsyncActionSubscription.constructor | src/core/AsyncActionSubscription.js:2-7 | a new subscription holds both listeners, and remembers them as the listeners it was given |
| AsyncActionSubscriptions.AsyncActionSubscription.OnSuccess | src/core/AsyncActionSubscription.js:9-13 | the success listener receives the result exactly when it is still held; after cancel nothing is forwarded |
| AsyncActionSubscriptions.AsyncActionSubscription.OnFailure | src/core/AsyncActionSubscription.js:15-19 | the failure listener receives the error exactly when it is still held; after cancel nothing is forwarded |
| AsyncActionSubscriptions.AsyncActionSubscription.Cancel | src/core/AsyncActionSubscription.js:21-24 | after cancel the subscription holds no listener |
| AsyncActionSubscriptions.LateSettlementIsIgnored | src/core/AsyncActionSubscription.js:9-24 | a promise that settles after cancel reaches neither listener |
| Dispatching.RunQueue | src/core/Dispatcher.js:26-29 | the drain of the queue only finishes a non-empty queue when it has fuel for it |
| Dispatching.RunIsAnyFinishingDrain | src/core/Dispatcher.js:17-37 | one execute handles its own call and then every queued event in the order of any finishing drain, with that drain's outcome |
| Dispatching.RunQueueMoreFuel | src/core/Dispatcher.js:26-29 | more fuel does not change a drain that has already finished |
| Dispatching.RunQueueFuelIrrelevant | src/core/Dispatcher.js:26-29 | any two finishing drains of the same queue agree |
| Dispatching.QueuedEventsHandledFirst | src/core/Dispatcher.js:26-29 | a drain that returns handles the queued events first, in queue order |
| Dispatching.ThrowEndsDrain | src/core/Dispatcher.js:30-36 | a handler that throws on the first queued event ends the drain with that error, having handled only that event |
| Dispatching.Dispatcher.constructor | src/core/Dispatcher.js:2-7 | a new dispatcher is idle with an empty queue |
| Dispatching.Dispatcher.Dispatch | src/core/Dispatcher.js:9-15 | while busy the event is queued; when idle it is executed, then everything it raised is drained, and the dispatcher is idle again |
| Dispatching.Dispatcher.DispatchAll | src/core/Dispatcher.js:9-15 | events dispatched while busy are appended to the queue in order and nothing is handled |
| Dispatching.Dispatcher.DrainQueue | src/core/Dispatcher.js:26-29 | the loop handles exactly what the drain function handles and returns its outcome |
| Dispatching.Dispatcher.Execute | src/core/Dispatcher.js:17-37 | busy execute throws; idle execute runs the operation and drains the queue, and leaves the dispatcher idle with an empty queue even after a throw |
| DeepCopy.DeepCopyIsStructuralCopy | src/utils/deepCopy.js:3-14 | the copy is equal, as a value, to the original |
| DeepCopy.DeepCopyArray | src/utils/deepCopy.js:7-9 | an array is copied element by element, keeping its length |
| DeepCopy.DeepCopyObject | src/utils/deepCopy.js:10-12 | an object keeps its prototype and keys, and every property is a deep copy |
| MapValues.MapValues | src/utils/mapValues.js:1-8 | the result has the same prototype and keys, and each value is the callback applied to the original value |
| Merge.Merge | src/utils/merge.js:1-6 | merge returns the target, whose properties are the old target overwritten by the source's, and leaves the source alone |
| Merge.MergeIdempotent | src/utils/merge.js:1-6 | merging the same source twice gives the same result as merging it once |
| EngineConfig.Invocations | src/utils/executeHandlers.js:1-3 | executeHandlers calls every handler once, in list order, with the same arguments |
| Engine.Host.Call | src/utils/executeHandlers.js:1-3 | a call appends exactly the invocations of the list, in order, to the trace |
| Engine.Host.SetTimeout | src/core/StateMachine.js:210-214 | each timer gets the next fresh id, and its timeout is recorded |
| Engine.Host.ClearTimeout | src/core/StateMachine.js:220 | clearing a timer records that id and allocates nothing |
| EngineSemantics.ConstructionError | src/core/StateMachine.js:7-15 | construction fails exactly when the configuration is missing, not an object, or has no initial state, with the source's three messages |
| EngineSemantics.FirstEligible | src/core/StateMachine.js:255-262 | the chosen transition is eligible (no guard, or its guard holds) and every earlier one is not; none is chosen exactly when none is eligible |
| EngineSemantics.TransitionFor | src/core/StateMachine.js:103-111 | no transition when the machine is stopped, when its state has no configuration or when the state has no entry for the event; otherwise the first transition whose condition is absent or holds, and none exactly when every condition fails |
| EngineSemantics.TimerIds | src/core/StateMachine.js:210-214 | the n timers of a state get n consecutive fresh ids |
| EngineSemantics.SetTimeouts | src/core/StateMachine.js:207-216 | one setTimeout per timer of the state, in order, with that timer's timeout |
| EngineSemantics.ClearTimeouts | src/core/StateMachine.js:218-223 | every stored timer id is cleared, in order; without ids nothing happens |
| EngineSemantics.AsyncStarts | src/core/StateMachine.js:162-169 | every asynchronous action of the state is started once, in order, with the state and the context |
| EngineSemantics.EnterEffects | src/core/StateMachine.js:130-147 | entering a state makes it the current state |
| Engine.HandleEffectsAtSubmachine | src/core/StateMachine.js:72-77 | an event the active submachine handles is handled there, and the parent's own running state is unchanged |
| Engine.StateMachine.constructor | src/core/StateMachine.js:6-24 | a new machine is not started, owns no submachines and keeps its configuration and parent |
| Engine.StateMachine.Create | src/core/StateMachine.js:6-24 | construction throws the construction error exactly when there is one, and otherwise yields a stopped machine for that configuration |
| Engine.StateMachine.StartMachine | src/core/StateMachine.js:26-30 | the static start fails as construction fails, and otherwise constructs and starts, with the effects of Start |
| Engine.StateMachine.GetCurrentState | src/core/StateMachine.js:32-34 | the current state is present exactly when the machine is started, and it is the running state |
| Engine.StateMachine.SelectTransition | src/core/StateMachine.js:255-262 | the loop returns the first transition whose guard is missing or holds |
| Engine.StateMachine.GetTransitionForEvent | src/core/StateMachine.js:103-111 | the lookup returns exactly EngineSemantics.TransitionFor of the current state, so the first eligible transition of the event's entry, or none |
| Engine.StateMachine.CanHandle | src/core/StateMachine.js:36-48 | the answer is the nested check: a started machine whose active submachine can handle the event, or which has a transition for it |
| Engine.StateMachine.StopTimers | src/core/StateMachine.js:218-223 | every stored timer is cleared and the ids are forgotten; nothing else changes |
| Engine.StateMachine.CancelAsyncActionSubscriptions | src/core/StateMachine.js:188-193 | every subscription is cancelled and the list is dropped |
| Engine.StateMachine.StopSubmachines | src/core/StateMachine.js:239-244 | the current state's submachine, if any, is stopped, with its exit effects in the trace |
| Engine.StateMachine.ExitState | src/core/StateMachine.js:149-160 | exit stops the submachine, timers and subscriptions, then calls the exit hooks and actions, in that order |
| Engine.StateMachine.ExitHooks | src/core/StateMachine.js:154-159 | the global exit hooks run, then the state's exit actions, with the state and the context |
| Engine.StateMachine.Stop | src/core/StateMachine.js:65-70 | stop of a started machine exits its state and forgets it; stop of a stopped machine changes nothing |
| Engine.StateMachine.StartAsyncAction | src/core/StateMachine.js:171-186 | the action is invoked with the state and the context, and a fresh subscription, listening to the action's success and failure triggers, is appended to the list, created when missing, and joins the issued subscriptions |
| Engine.StateMachine.StartAsyncActions | src/core/StateMachine.js:162-169 | every asynchronous action of the current state is started, in order; the list keeps its old entries and gains one new subscription per action, in order, each issued by this call and listening to its action's success and failure triggers; without actions the list is untouched |
| Engine.StateMachine.StartTimers | src/core/StateMachine.js:207-216 | one timer per configured timer, with fresh ids that are kept; with no timers the old ids stay |
| Engine.StateMachine.StartSubmachines | src/core/StateMachine.js:229-237 | the current state's submachine is created when missing and then started; other submachines are untouched |
| Engine.StateMachine.CreateSubmachine | src/core/StateMachine.js:232-234 | a submachine is created for the current state with this machine as its parent, or the construction error is returned |
| Engine.StateMachine.EnterHooks | src/core/StateMachine.js:131-140 | the enter hooks and entry actions run, then the change hooks when the state changes |
| Engine.StateMachine.EnterState | src/core/StateMachine.js:130-147 | entering runs the enter hooks, records the state, and starts actions, timers and the submachine, as EnterEffects says; afterwards the subscription list holds exactly one newly issued subscription per asynchronous action of the state, in order, listening to its triggers, and is `null` when there is none |
| Engine.StateMachine.Start | src/core/StateMachine.js:59-63 | start enters the initial state with an empty context, and does nothing when the machine is already started; a start from stopped leaves one newly issued subscription per asynchronous action of the initial state, as for EnterState |
| Engine.StateMachine.TransitionHooks | src/core/StateMachine.js:122-123 | the transition hooks, then the transition's actions, run with the source state, the next state and the context |
| Engine.StateMachine.LeaveState | src/core/StateMachine.js:114-123 | before an external transition enters its target, the trace is the exit followed by the transition hooks and actions, with the current state unchanged |
| Engine.StateMachine.ExecuteTransition | src/core/StateMachine.js:113-128 | an external transition exits and re-enters; an internal one runs only the transition hooks and actions; a missing target means the current state |
| Engine.StateMachine.HandleUnhandledEvent | src/core/StateMachine.js:264-275 | the unhandled-event hooks run when there are any; otherwise the unhandled-event error is thrown |
| Engine.StateMachine.InternalHandle | src/core/StateMachine.js:72-90 | the active submachine is offered the event first; otherwise this level's transition runs; only the root reports an event nobody handles |
| Engine.StateMachine.OfferToSubmachine | src/core/StateMachine.js:73-77 | an event the submachine handles is handled by it alone |
| Engine.StateMachine.HandleHere | src/core/StateMachine.js:78-89 | this level takes the transition, or the root runs the unhandled path, or a sub-level reports not handled |
| Engine.StateMachine.Handle | src/core/StateMachine.js:50-53 | handle at the root has exactly the effects of the nested handling |
| Engine.StateMachine.ExecuteTrigger | src/core/StateMachine.js:246-253 | a trigger runs the first eligible transition of its list, or does nothing |
| Engine.StateMachine.HandleTimeout | src/core/StateMachine.js:225-227 | a timeout runs its trigger with an empty context |
| Engine.StateMachine.HandleAsyncActionSuccess | src/core/StateMachine.js:195-199 | success runs the success trigger with the result in the context |
| Engine.StateMachine.HandleAsyncActionFailure | src/core/StateMachine.js:201-205 | failure runs the failure trigger with the error in the context |
| Engine.StateMachine.SettleAsyncAction | src/core/StateMachine.js:174-182 | a settlement reaches its trigger only through a listener that is still held; after cancel it changes nothing |
| EngineProperties.SubLevelSilentUnlessHandled | src/core/StateMachine.js:72-90 | a sub-level that does not handle an event leaves no trace and no state change |
| EngineProperties.HandledIffCanHandle | src/core/StateMachine.js:36-48 | handle reports handled exactly when canHandle answers true |
| EngineProperties.HandledInnermostFirst | src/core/StateMachine.js:73-77 | when the active submachine can handle an event, it handles it and the parent's transitions do not run |
| EngineProperties.UnhandledOnlyAtRoot | src/core/StateMachine.js:85-87 | an event nobody can handle runs the unhandled path at the root and does nothing at a sub-level |
| EngineProperties.HandledLeavesStarted | src/core/StateMachine.js:36-39 | only a started machine handles events, and it stays started |
| EngineProperties.StartIsIdempotent | src/core/StateMachine.js:59-63 | a second start does nothing |
| EngineProperties.StopThenStop | src/core/StateMachine.js:65-70 | after stop the machine is stopped, and stopping a stopped machine does nothing |
| EngineProperties.StoppedCannotHandle | src/core/StateMachine.js:36-39 | a stopped machine can handle no event |
| EngineProperties.InternalTransitionKeepsState | src/core/StateMachine.js:113-128 | an internal transition keeps the running state, timers and submachines |
| EngineProperties.ExitMakesNoStateChange | src/core/StateMachine.js:149-160 | exiting never runs a state-change hook |
| EngineProperties.EnterSameMakesNoStateChange | src/core/StateMachine.js:138-140 | entering the state already current, or entering from no state, runs no change hook |
| EngineProperties.StartMakesNoStateChange | src/core/StateMachine.js:59-63 | starting runs no change hook |
| EngineProperties.SelfTransitionMakesNoStateChange | src/core/StateMachine.js:118-120 | a transition without a target runs no change hook and stays in the state |
| EngineProperties.ChangeOfStateRunsChangeHooks | src/core/StateMachine.js:138-140 | an external transition to another state runs every change hook with the old and the new state |
| EngineProperties.ClearsEveryHandle | src/core/StateMachine.js:218-223 | every stored timer id is cleared |
| EngineProperties.ExitClearsEveryTimer | src/core/StateMachine.js:149-152 | exit clears every timer of the state and of its active submachines |
| EngineProperties.EnterAllocatesFreshTimers | src/core/StateMachine.js:207-216 | the timers started on entry have ids not issued before |
| EngineProperties.EnterFits | src/core/StateMachine.js:229-237 | after entry the running chain matches the configuration: a submachine runs exactly where one is configured |
| EngineProperties.SubmachinesGetEmptyContexts | src/core/StateMachine.js:59-63 | the trace of entering a state is its own calls, each with the entering context, followed by the calls of the submachine that `startSubmachines` (src/core/StateMachine.js:229-237) starts, each with the empty context |
| EngineScenarios.StartRoot | test/hierarchical/transitionSpec.js:56-66 | starting the root enters state1 and, nested, state11 |
| EngineScenarios.ExitState1 | test/hierarchical/transitionSpec.js:88-91 | exiting state1 runs the submachine's exit hooks and actions first, then state1's |
| EngineScenarios.EnterState2 | test/hierarchical/transitionSpec.js:94-98 | entering state2 runs its hooks, the change hook, then the submachine's entry into state21 |
| EngineScenarios.Event1SelectsState2 | test/hierarchical/transitionSpec.js:61 | the submachine cannot handle event1, so the root selects the transition to state2 |
| EngineScenarios.TransitionToState2 | test/hierarchical/transitionSpec.js:87-99 | the whole trace of the transition is the eleven calls of the test, in order |
| EngineScenarios.RootTakesTransitionToState2 | test/hierarchical/transitionSpec.js:70 | handling event1 from the started root is the root's own transition to state2, because the submachine declines it |
| EngineScenarios.TransitionBetweenSubmachineStates | test/hierarchical/transitionSpec.js:30-101 | handling event1 ends in the hierarchy [state2, state21] with the test's call order |
| EngineScenarios.FirstTrueGuardWins | spec/handleSpec.js:15-26 | with a false guard first and a true guard second, the second transition is taken |
| Hierarchy.ChainIsChain | src/core/HierarchicalStateMachine.js:67-75 | following submachines from the root yields a chain of machines, each the submachine of the one before |
| Hierarchy.IsChainUnique | src/core/HierarchicalStateMachine.js:67-75 | a root has only one such chain |
| Hierarchy.TheChain | src/core/HierarchicalStateMachine.js:67-75 | the chain of a finite hierarchy is that chain |
| Hierarchy.GetStateMachines | src/core/HierarchicalStateMachine.js:67-75 | the loop collects exactly the chain of machines from the root down |
| Hierarchy.GetStateHierarchy | src/core/HierarchicalStateMachine.js:35-38 | the hierarchy is the current state of each machine of the chain, from the root down |
| Hierarchy.GetSubmachine | src/core/HierarchicalStateMachine.js:27-33 | there is a nested facade exactly when the current machine has an active submachine, at the same root |
| Hierarchy.Innermost | src/core/HierarchicalStateMachine.js:42-47 | the chosen machine is the deepest one that can handle the event; none is chosen exactly when no machine can |
| Hierarchy.CanHandle | src/core/HierarchicalStateMachine.js:40-49 | the facade can handle an event exactly when some machine of the chain can |
| Hierarchy.Handle | src/core/HierarchicalStateMachine.js:51-65 | the event goes to the deepest machine that can handle it, or, when none can, to the unhandled-event path of the facade's own machine (`currentStateMachine`) |
| Hierarchy.DescendFollowsChain | src/core/HierarchicalStateMachine.js:23-38 | descending k times through getSubmachine reaches the k-th machine of the chain, and getCurrentState there is the k-th entry of the state hierarchy; one step past the last machine gives no facade |
| Hierarchy.NestedFacadeConsultsAncestors | src/core/HierarchicalStateMachine.js:51-65 | a facade that is deeper still consults the whole chain from the root |
| Flat.ConstructionError | src/StateMachine.js:5-13 | construction fails exactly when the configuration is missing, not an object, or leaves the initial state undefined; null is allowed |
| Flat.FirstEligible | src/StateMachine.js:93-102 | the chosen transition is eligible and every earlier one is not; none is chosen exactly when none is eligible |
| Flat.TransitionFor | src/StateMachine.js:93-102 | without a state or event configuration there is no transition; otherwise it is the first eligible one |
| Flat.RunCallsInOrder | src/StateMachine.js:60-89 | the calls are made in order, and the events they raise are collected in order up to the first one that throws |
| Flat.RunCallsIfSet | src/StateMachine.js:61-63 | an unset handler makes no call; a set one makes exactly one |
| Flat.RunCallsAppend | src/StateMachine.js:60-89 | running two lists of calls in a row equals running them joined, stopping at the first throw |
| Flat.Drain | src/StateMachine.js:35-40 | the drain only finishes a non-empty queue when it has fuel for it |
| Flat.HandleRun | src/StateMachine.js:28-48 | handling an event finishes, by the drain of its cascade |
| Flat.DrainMoreFuel | src/StateMachine.js:37-39 | more fuel does not change a finished drain |
| Flat.HandleRunIsAnyFinishingDrain | src/StateMachine.js:28-48 | handle behaves as any finishing drain of the one-event queue |
| Flat.QueuedEventsHandledFirst | src/StateMachine.js:37-39 | a drain that returns handles the queued events first, in order |
| Flat.RaisedEventsHandledNext | src/StateMachine.js:29-39 | the events raised by a handler are handled right after it, in the order they were raised |
| Flat.UnhandledEvent | src/StateMachine.js:51-58 | without a transition the unhandled-event handler is called when set, else the cannot-handle error is thrown; the state stays |
| Flat.InternalTransitionKeepsState | src/StateMachine.js:60-91 | an internal transition runs only the transition handler and action, and the state stays |
| Flat.ExternalTransition | src/StateMachine.js:60-91 | an external transition runs exit, transition and enter calls in order and ends in the target, or in the same state without one |
| Flat.StateMachine.constructor | src/StateMachine.js:4-18 | a new machine starts in the initial state, not busy, with an empty queue |
| Flat.StateMachine.Create | src/StateMachine.js:4-18 | construction throws exactly when ConstructionError says so, with its message |
| Flat.StateMachine.GetTransition | src/StateMachine.js:93-102 | the machine's lookup is the first eligible transition of the current state for the event |
| Flat.StateMachine.CanHandle | src/StateMachine.js:24-26 | an event can be handled exactly when a transition for it exists |
| Flat.StateMachine.Handle | src/StateMachine.js:28-48 | while busy the event is queued; when idle the handler and every event it raises are handled in queue order; the queue is emptied and the machine is idle again, even after a throw |
| Flat.StateMachine.HandleCore | src/StateMachine.js:50-91 | one event has exactly the calls, raised events, new state and error of the core step |
| Flat.StateMachine.ExitCurrentState | src/StateMachine.js:60-68 | the exit handler, then the state's exit action, are called when set |
| Flat.StateMachine.CallTransitionHandlers | src/StateMachine.js:70-79 | the transition handler, then the transition's action, are called with the source and target |
| Flat.StateMachine.EnterNextState | src/StateMachine.js:81-90 | the enter handler, then the entry action of the next state, are called |
| Flat.StateMachine.InvokeIfSet | src/StateMachine.js:61-63 | a handler is called only when it is set |
| Flat.StateMachine.Invoke | src/StateMachine.js:62 | a call is recorded, the events it raises are queued, and its throw is returned |
| Builder.NewTransition | src/StateMachineBuilder.js:98-104 | a new transition has the given target, no action or guard, and is internal only if it has no target |
| Builder.WithStateReuses | src/StateMachineBuilder.js:36-41 | state(s) reuses an existing state configuration and otherwise adds an empty one, touching no other state |
| Builder.WithEventReuses | src/StateMachineBuilder.js:83-88 | on(e) reuses an existing event configuration and otherwise adds an empty one |
| Builder.WithTransitionAppends | src/StateMachineBuilder.js:98-104 | a new transition is appended after the existing ones |
| Builder.AppendedTransitionComesLast | src/StateMachineBuilder.js:98-104 | a transition added later is chosen only when no earlier one is eligible |
| Builder.StateMachineBuilder.constructor | src/StateMachineBuilder.js:6-9 | a new builder holds the empty configuration |
| Builder.StateMachineBuilder.OnStateEnter | src/StateMachineBuilder.js:11-14 | the state-enter handler is set and the builder is returned |
| Builder.StateMachineBuilder.OnStateExit | src/StateMachineBuilder.js:16-19 | the state-exit handler is set and the builder is returned |
| Builder.StateMachineBuilder.OnTransition | src/StateMachineBuilder.js:21-24 | the transition handler is set and the builder is returned |
| Builder.StateMachineBuilder.OnUnhandledEvent | src/StateMachineBuilder.js:26-29 | the unhandled-event handler is set and the builder is returned |
| Builder.StateMachineBuilder.InitialState | src/StateMachineBuilder.js:31-34 | the initial state is set and that state's builder is returned |
| Builder.StateMachineBuilder.State | src/StateMachineBuilder.js:36-41 | a builder for the state is returned, whose configuration is reused or created |
| Builder.StateMachineBuilder.Build | src/StateMachineBuilder.js:47-49 | build constructs a flat machine from the configuration, failing exactly when no initial state was set |
| Builder.StateBuilder.constructor | src/StateMachineBuilder.js:59-62 | a child builder keeps its parent and its state |
| Builder.StateBuilder.OnEnter | src/StateMachineBuilder.js:73-76 | the state's entry action is set |
| Builder.StateBuilder.OnExit | src/StateMachineBuilder.js:78-81 | the state's exit action is set |
| Builder.StateBuilder.On | src/StateMachineBuilder.js:83-88 | a builder for the event is returned, whose configuration is reused or created |
| Builder.EventBuilder.constructor | src/StateMachineBuilder.js:59-62 | a child builder keeps its parent and its event |
| Builder.EventBuilder.Transition | src/StateMachineBuilder.js:98-104 | a transition is appended and a builder for it is returned |
| Builder.EventBuilder.SelfTransition | src/StateMachineBuilder.js:106-108 | an external transition without a target is appended |
| Builder.EventBuilder.InternalTransition | src/StateMachineBuilder.js:110-112 | an internal transition without a target is appended |
| Builder.TransitionBuilder.constructor | src/StateMachineBuilder.js:59-62 | a child builder keeps its parent and the index of its transition |
| Builder.TransitionBuilder.WithAction | src/StateMachineBuilder.js:117-120 | the transition's action is set; nothing else changes |
| Builder.TransitionBuilder.WithCondition | src/StateMachineBuilder.js:122-125 | the transition's guard is set; nothing else changes |
| FlatScenarios.BuilderMakesOrderConfig | src/__tests__/StateMachine-test.js:120-132 | the builder calls of the call-order test produce exactly the expected configuration |
| FlatScenarios.HandlerCallOrder | src/__tests__/StateMachine-test.js:117-143 | handling the event calls exit handler, exit action, transition handler, transition action, enter handler and entry action in that order, and ends in State2 |
| FlatScenarios.QuietRaisesNothing | src/StateMachine.js:60-89 | callbacks that raise nothing and never throw leave the queue empty and the handling error-free |
| Ancestry.GetAncestor | src/configuration/BaseConfigurator.js:10-15 | only the nearest ancestor of the requested type is found, and every object in between has a getAncestor |
| Ancestry.GetAncestorFindsNearest | src/StateMachineBuilder.js:64-68 | when every object up to the nearest ancestor of the type has a getAncestor, that ancestor is the answer |
| Ancestry.BaseWithoutParentAnswersNull | src/configuration/BaseConfigurator.js:11-14 | a configurator without a parent answers null |
| Ancestry.ChildUnderPlainParentAnswersUndefined | src/configuration/ChildConfigurator.js:9-13 | a child whose parent is of another type and has no getAncestor answers undefined |
| Ancestry.NoAncestorOfType | src/configuration/BaseConfigurator.js:10-15 | with no ancestor of the type, nothing is found |
| Ancestry.TransitionBuilderAncestors | src/StateMachineBuilder.js:58-69 | from a transition builder, the event, state and machine builders are each found at their place |
| Ancestry.ConfiguratorAncestors | src/configuration/ChildConfigurator.js:9-13 | a trigger finds its asynchronous action, a timer is found as a trigger, and a transition finds its state machine configurator |
| Configuration.ConfiguratorFactoryOf | src/configuration/ChildConfigurator.js:4-7 | a child inherits a factory only from a parent that itself holds `configuratorFactory` |
| Configuration.MachineConfig.constructor | src/configuration/StateMachineConfigurator.js:30-38 | a new machine configuration has no states and empty handler lists |
| Configuration.StateConfig.constructor | src/configuration/StateConfigurator.js:32-38 | a new state configuration has no actions and no events |
| Configuration.EventConfig.constructor | src/configuration/EventConfigurator.js:22-26 | a new event configuration has no transitions |
| Configuration.TransitionConfig.constructor | src/configuration/TransitionConfigurator.js:10-16 | the transition keeps its target, is internal only without a target, and has no actions or guard |
| Configuration.TriggerConfig.constructor | src/configuration/TriggerConfigurator.js:7-9 | a new trigger configuration has no transitions and keeps the timeout it was given |
| Configuration.StateMachineConfigurator.constructor | src/configuration/BaseConfigurator.js:4-8 | the configurator keeps its factory and parent, and the given configuration or a fresh empty one |
| Configuration.StateMachineConfigurator.Global | src/configuration/StateMachineConfigurator.js:7-9 | the global configurator shares the machine's configuration |
| Configuration.StateMachineConfigurator.InitialState | src/configuration/StateMachineConfigurator.js:11-14 | the initial state is set, and the state's configurator is returned as state() does |
| Configuration.StateMachineConfigurator.State | src/configuration/StateMachineConfigurator.js:16-20 | the state's configuration is reused or created, stored under the state, and shared with the returned configurator |
| Configuration.GlobalConfigurator.constructor | src/configuration/BaseConfigurator.js:4-8 | the global configurator keeps its factory, parent and configuration |
| Configuration.GlobalConfigurator.OnStateEnter | src/configuration/GlobalConfigurator.js:9-12 | the handler is appended to the state-enter list; nothing else changes |
| Configuration.GlobalConfigurator.OnStateExit | src/configuration/GlobalConfigurator.js:14-17 | the handler is appended to the state-exit list; nothing else changes |
| Configuration.GlobalConfigurator.OnTransition | src/configuration/GlobalConfigurator.js:19-22 | the handler is appended to the transition list; nothing else changes |
| Configuration.GlobalConfigurator.OnUnhandledEvent | src/configuration/GlobalConfigurator.js:24-27 | the handler is appended to the unhandled-event list; nothing else changes |
| Configuration.StateConfigurator.constructor | src/configuration/StateConfigurator.js:9-12 | the configurator keeps its parent, inherits the parent's factory, and keeps the given configuration or makes a fresh one |
| Configuration.StateConfigurator.OnEnter | src/configuration/StateConfigurator.js:14-17 | the action is appended to the entry actions |
| Configuration.StateConfigurator.OnExit | src/configuration/StateConfigurator.js:19-22 | the action is appended to the exit actions |
| Configuration.StateConfigurator.On | src/configuration/StateConfigurator.js:24-30 | the event's configuration is reused or created, stored under the event, and shared with the returned configurator |
| Configuration.EventConfigurator.constructor | src/configuration/BaseConfigurator.js:4-8 | the configurator keeps its factory and parent, and the given configuration or a fresh one |
| Configuration.EventConfigurator.Transition | src/configuration/EventConfigurator.js:6-12 | a fresh transition configuration is appended and its configurator returned |
| Configuration.EventConfigurator.SelfTransition | src/configuration/EventConfigurator.js:14-16 | an external transition without a target is appended |
| Configuration.EventConfigurator.InternalTransition | src/configuration/EventConfigurator.js:18-20 | an internal transition without a target is appended |
| Configuration.TransitionConfigurator.constructor | src/configuration/TransitionConfigurator.js:10-16 | the transition keeps its target, is internal only without a target, and has no actions or guard |
| Configuration.TransitionConfigurator.WithAction | src/configuration/TransitionConfigurator.js:18-21 | the action is appended; the guard stays |
| Configuration.TransitionConfigurator.WithCondition | src/configuration/TransitionConfigurator.js:23-26 | the guard is set; the actions stay |
| Configuration.TriggerConfigurator.constructor | src/configuration/TriggerConfigurator.js:5-10 | a trigger starts with no transitions and no timeout |
| Configuration.TriggerConfigurator.Timer | src/configuration/TimerConfigurator.js:3-7 | a timer is a trigger with no transitions and the given timeout |
| Configuration.TriggerConfigurator.Transition | src/configuration/TriggerConfigurator.js:24-28 | the new transition configurator itself is appended to the trigger's transitions |
| Configuration.TriggerConfigurator.TransitionTo | src/configuration/TriggerConfigurator.js:12-14 | an external transition to the target is appended |
| Configuration.TriggerConfigurator.SelfTransition | src/configuration/TriggerConfigurator.js:16-18 | an external transition without a target is appended |
| Configuration.TriggerConfigurator.InternalTransition | src/configuration/TriggerConfigurator.js:20-22 | an internal transition without a target is appended |
| Configuration.AsyncActionConfigurator.constructor | src/configuration/AsyncActionConfigurator.js:5-12 | two distinct fresh triggers without transitions are made, both with this configurator as parent |
| Configuration.ReopenState | src/configuration/StateMachineConfigurator.js:16-20 | configuring the same state twice gives two configurators over one shared configuration, so the second sees the first's entry action |

## Left out

- Callbacks are labels, not code.
  - In the engine, hooks, actions and guards neither throw nor raise events.
  - In the flat machine, what a handler or action raises or throws is given by the `Foreign` parameter.
  - Flat.TransitionFor, Flat.StateMachine.GetTransition and Flat.StateMachine.CanHandle: guards of the flat machine are pure and total. A guard cannot throw or raise events, and it answers the same way every time it is asked, so a guard that answers differently in `canHandle` and in `handle`, or a throw from `condition()` escaping `handle` or `canHandle`, is not modelled.
  - A callback cannot inspect or call the machine beyond that.
- Time and promises: the scheduler of `setTimeout`, and the promises of asynchronous actions, are outside the model. A timeout or a settlement is a method call: `HandleTimeout`, `SettleAsyncAction`.
- Engine.StateMachine.HandleTimeout, HandleAsyncActionSuccess, HandleAsyncActionFailure and ExecuteTrigger: these require a started level. The source would run a transition with a null current state.
- Engine.StateMachine.Handle: modelled only for a root machine.
  - In the source, a submachine's `handle` goes through the shared dispatcher to the root.
  - The dispatcher is idle whenever the engine's methods run, so `executeTrigger` and `handle` call straight into the transition code. The queueing itself is modelled on its own in `Dispatching`.
- Dispatching.RunQueue, Dispatching.Dispatcher.Dispatch and Dispatching.Dispatcher.Execute: the handler is a fixed function from a queued event to what it does (`Queued -> Step`). In the source the handler is the engine's `internalHandle` (src/core/Dispatcher.js:5-6, 28), whose answer depends on the state the machine has reached. So the same event handled twice in one cascade always raises the same events here, and a cascade that ends only because the machine's state changed is not expressible; `Dispatching.Terminates` leaves such cascades out.
- The context's `stateMachine` field (the facade) is not part of `EngineConfig.Context`.
- These are not part of this model:
  - `src/core/TaskScheduler.js`;
  - `src/utils/invokeEach.js` and `src/utils/toString.js`;
  - `src/Finity.js` and `src/index.js`;
  - `src/configuration/delegateToAncestor.js`, `setUpDelegation.js`, `ConfiguratorHelper.js` and `index.js`, the decorators that forward unknown methods to an ancestor, and the flat builder's own `delegateToAncestor` (src/StateMachineBuilder.js:128-141), which does the same for the builder's classes;
  - `HierarchicalStateMachine.start`.
- `StateMachineConfigurator.start` is not modelled. It starts the engine with the configuration, which `Engine.StateMachine.StartMachine` covers.
- Configuration.AsyncActionConfigurator.OnSuccess and OnFailure, Configuration.StateMachineConfigurator.GetConfig, Builder.StateMachineBuilder.GetConfiguration and Hierarchy.GetCurrentState are plain getters without a contract of their own; what `getCurrentState` gives at each level of a hierarchy is stated by Hierarchy.DescendFollowsChain.
- The files of `src/configuration/` come from different versions of the library and do not fit together. Where they clash, the model follows the evident intent of each file, and children are created directly instead of through `ConfiguratorFactory.js`. The mismatches:
  - `ConfiguratorFactory.js` passes (parent, config), while `BaseConfigurator` takes (factory, parent, config).
  - `TriggerConfigurator` and `AsyncActionConfigurator` call `super(parent)`, which binds the parent to `factory` and leaves `config` undefined.
  - `StateMachineConfigurator.global` calls a factory method that `ConfiguratorFactory.js` lacks.
  - Children read `configuratorFactory`, which base configurators never set (`Configuration.ConfiguratorFactoryOf`).
  - The configurators write `stateEnterHandlers`, while the engine reads `stateEnterHooks`.
- Configuration.TriggerConfigurator.constructor, Configuration.TriggerConfigurator.Timer and Configuration.AsyncActionConfigurator.constructor store their argument as `parent` and construct normally. That is the intended binding, not the code as written. As written, `super(parent)` leaves `config` undefined, so src/configuration/BaseConfigurator.js:7 calls `this.constructor.createConfig()`. `TriggerConfigurator`, `TimerConfigurator`, `AsyncActionConfigurator` and `BaseConfigurator` define no such static method, so the call throws a `TypeError` before the constructor body runs (src/configuration/TriggerConfigurator.js:5-6, src/configuration/TimerConfigurator.js:4-5, src/configuration/AsyncActionConfigurator.js:5-6). The model does not include that throw.
- Ancestry.ConfiguratorAncestors: its first clause, a trigger finding its asynchronous action, holds only under that intended binding. As written, no trigger or asynchronous action configurator can be constructed, so the question never arises. The other clauses do not depend on it.
- JavaScript turns object keys into strings, so a `null` or `undefined` state or event becomes the key "null" or "undefined". This is not modelled; such a lookup finds nothing.
- `transition()` called without a target leaves `targetState` undefined and `isInternal` undefined. In the source, `undefined !== null`, so such a transition moves the machine to the state `undefined` (src/core/StateMachine.js:118-120, src/StateMachine.js:70-72). The model reads the missing target as an absent one and stays in the current state, and reads the missing `isInternal` as false. Engine.StateMachine.ExecuteTransition and Flat.ExternalTransition model only the `null` target, which does stay in the current state.
- EngineConfig.StateId, EngineConfig.EventId, Configuration.StateId and Configuration.EventId are strings, and so are the flat machine's events. The source accepts any value as a state or event tag; its tests use symbols, objects, numbers, maps and functions (test/support/Tagger.js:1-19). Tags that are not strings are not modelled.
- Errors.NewUnhandledEventError: the error keeps the event and state as strings, not the raw values the source stores (src/core/Errors.js:4-5). The source builds the message with `event.toString()` and `state.toString()` (src/core/Errors.js:3), which throws a `TypeError` for a `null` or `undefined` event or state. That throw is not modelled.
- Builder.StateMachineBuilder.Build gives the machine a snapshot of the configuration. Later builder calls do not reach a machine already built, whereas in the source both share one object.
- DeepCopy: object identity and the sharing of sub-objects are not modelled. JavaScript numbers are unbounded integers here, and functions are opaque values that are copied as they are.
- Flat: events are strings, and the states of the flat machine are `Option<string>`, where `None` is `null`. A state without a configuration has no exit or entry actions.
- Only a finite hierarchy of machines is modelled (`Hierarchy.Finite`), and the event cascade is modelled only where it terminates. The source would loop forever on a cycle of submachines or on an endless cascade of raised events.
