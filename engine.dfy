/**
 * Model of src/core/StateMachine.js: one level of a hierarchical state
 * machine as an object owning its current state, its lazily created
 * submachines, its timer handles and its asynchronous-action subscriptions.
 * Every method is proved against the semantics in module EngineSemantics.
 */
module Engine {
  import opened Wrappers
  import opened Values
  import opened EngineConfig
  import opened EngineSemantics
  import opened AsyncActionSubscriptions
  import EngineProperties

  /**
   * Everything outside the machine: the user-supplied hooks and actions, which
   * are only recorded, and the timer service, which hands out handles in order.
   */
  class Host {
    var trace: seq<Entry>
    var nextTimerId: TimerId

    constructor ()
      ensures trace == [] && nextTimerId == 0
    {
      trace := [];
      nextTimerId := 0;
    }

    /** `executeHandlers(labels, ...args)`. */
    method Call(kind: HookKind, labels: seq<Label>, args: Args)
      modifies this
      ensures trace == old(trace) + Invocations(kind, labels, args)
      ensures nextTimerId == old(nextTimerId)
    {
      trace := trace + Invocations(kind, labels, args);
    }

    /** `setTimeout(handleTimeout, timeout, timerConfig)`: a fresh handle. */
    method SetTimeout(timeout: int) returns (id: TimerId)
      modifies this
      ensures id == old(nextTimerId) && nextTimerId == id + 1
      ensures trace == old(trace) + [Entry.SetTimeout(id, timeout)]
    {
      id := nextTimerId;
      nextTimerId := nextTimerId + 1;
      trace := trace + [Entry.SetTimeout(id, timeout)];
    }

    /** `clearTimeout(id)`. */
    method ClearTimeout(id: TimerId)
      modifies this
      ensures trace == old(trace) + [Entry.ClearTimeout(id)]
      ensures nextTimerId == old(nextTimerId)
    {
      trace := trace + [Entry.ClearTimeout(id)];
    }
  }

  type Subscription = AsyncActionSubscription<TriggerConfig>

  lemma AppendFour<T>(t: seq<T>, a: seq<T>, b: seq<T>, c: seq<T>, d: seq<T>)
    ensures t + a + b + c + d == t + (a + b + c + d)
  {
  }

  /**
   * What `enterState` does after its hooks, once the entered state is
   * current: the asynchronous actions, then the timers and the submachine.
   */
  function StartedEffects(cfg: Config, state: StateId, ctx: Context, next: TimerId): Effects {
    var asyncActions := if state in cfg.states then cfg.states[state].asyncActions else [];
    var rest := TimersAndSubmachineEffects(cfg, state, next);
    Effects(AsyncStarts(state, asyncActions, ctx) + rest.trace, rest.run, rest.next, rest.error)
  }

  /** The timers and then the submachine of a state that has just become current. */
  function TimersAndSubmachineEffects(cfg: Config, state: StateId, next: TimerId): Effects {
    var timers := if state in cfg.states then cfg.states[state].timers else [];
    var timerIDs := if |timers| > 0 then Some(TimerIds(|timers|, next)) else None;
    var afterTimers := next + |timers|;
    var sub := if SubConfig(cfg, state).Some? then SubmachineStart(SubConfig(cfg, state).value, afterTimers)
      else Effects([], None, afterTimers, None);
    Effects(SetTimeouts(timers, next) + sub.trace, Some(Run(state, timerIDs, sub.run)), sub.next, sub.error)
  }

  /** Entering a state is its hooks followed by `StartedEffects`. */
  lemma EnterEffectsSplit(cfg: Config, previous: Option<StateId>, state: StateId, ctx: Context, next: TimerId)
    ensures var own := EnterHookCalls(cfg, previous, state, ctx);
      var rest := StartedEffects(cfg, state, ctx, next);
      EnterEffects(cfg, previous, state, ctx, next) == Effects(own + rest.trace, rest.run, rest.next, rest.error)
  {
    if state in cfg.states {
      var sc := cfg.states[state];
      var own := EnterHookCalls(cfg, previous, state, ctx);
      var a := AsyncStarts(state, sc.asyncActions, ctx);
      var t := SetTimeouts(sc.timers, next);
      assert own + a + t == own + (a + t);
      if sc.submachine.Some? {
        var sub := SubmachineStart(sc.submachine.value, next + |sc.timers|).trace;
        AppendThree(own, a, t, sub);
      }
    }
  }

  lemma AppendTwo<T>(t: seq<T>, a: seq<T>, b: seq<T>)
    ensures t + a + b == t + (a + b)
  {
  }

  lemma AppendThree<T>(t: seq<T>, a: seq<T>, b: seq<T>, c: seq<T>)
    ensures t + a + b + c == t + (a + b + c)
  {
  }

  /** `internalHandle` at a level whose current state has a submachine configuration: the submachine's answer first. */
  lemma HandleEffectsAtSubmachine(cfg: Config, run: Run, sc: Config, isRoot: bool, event: Option<EventId>, eventPayload: Option<Value>, next: TimerId)
    requires SubConfig(cfg, run.state) == Some(sc)
    ensures var hs := HandleEffects(sc, run.active, false, event, eventPayload, next);
      var h := HandleEffects(cfg, Some(run), isRoot, event, eventPayload, next);
      if hs.handled || hs.effects.error.Some? then run.active.Some? && h == Handling(hs.handled, Lift(run, hs.effects))
      else hs.effects == Effects([], run.active, next, None) && h == OwnHandling(cfg, Some(run), isRoot, event, eventPayload, next)
  {
    EngineProperties.SubLevelSilentUnlessHandled(sc, run.active, event, eventPayload, next);
  }

  /**
   * The subscriptions `made` were made, in order, for the first actions of
   * `actions`: none was in `before`, and each was given its action's success
   * and failure triggers as listeners.
   */
  ghost predicate SubscriptionsFor(made: seq<Subscription>, actions: seq<AsyncActionConfig>, before: set<Subscription>) {
    |made| <= |actions| &&
    forall k :: 0 <= k < |made| ==>
      made[k] !in before &&
      made[k].givenSuccessListener == actions[k].onSuccess && made[k].givenFailureListener == actions[k].onFailure
  }

  /** A new subscription for the next action extends the subscriptions made so far. */
  lemma SubscriptionsForSnoc(made: seq<Subscription>, actions: seq<AsyncActionConfig>, before: set<Subscription>, x: Subscription)
    requires SubscriptionsFor(made, actions, before) && |made| < |actions| && x !in before
    requires x.givenSuccessListener == actions[|made|].onSuccess && x.givenFailureListener == actions[|made|].onFailure
    ensures SubscriptionsFor(made + [x], actions, before)
  {
  }

  lemma AppendSnoc<T>(a: seq<T>, b: seq<T>, x: T)
    ensures a + b + [x] == a + (b + [x])
  {
  }

  /** Each subscription of `subs` forwards to the success and failure triggers of the action at its index. */
  ghost predicate ListeningTo(subs: seq<Subscription>, actions: seq<AsyncActionConfig>)
    reads subs
  {
    |subs| <= |actions| &&
    forall k :: 0 <= k < |subs| ==>
      subs[k].successListener == Some(actions[k].onSuccess) && subs[k].failureListener == Some(actions[k].onFailure)
  }

  lemma AsyncStartsSnoc(state: StateId, actions: seq<AsyncActionConfig>, i: nat, ctx: Context)
    requires i < |actions|
    ensures AsyncStarts(state, actions[..i + 1], ctx) == AsyncStarts(state, actions[..i], ctx) + [Invoke(AsyncAction, actions[i].action, AtState(state, ctx))]
  {
    var a := AsyncStarts(state, actions[..i + 1], ctx);
    var b := AsyncStarts(state, actions[..i], ctx) + [Invoke(AsyncAction, actions[i].action, AtState(state, ctx))];
    assert forall k :: 0 <= k < |a| ==> a[k] == b[k];
  }

  /** How an asynchronous action's promise settles. */
  datatype Settlement = Fulfilled(result: Value) | Rejected(error: Value)

  class StateMachine {
    const config: Config
    const parent: StateMachine?
    const env: Host
    var currentState: Option<StateId>
    var submachines: map<StateId, StateMachine>
    var timerIDs: Option<seq<TimerId>>
    var asyncActionSubscriptions: Option<seq<Subscription>>
    /** Every subscription this level has made. */
    ghost var issued: set<Subscription>
    ghost var Repr: set<object>

    /** The tree below this level is well formed. */
    ghost predicate Valid()
      reads this, Repr
      decreases Repr
    {
      this in Repr && env !in Repr &&
      config.initialState.Some? &&
      (currentState.None? ==> timerIDs.None? && asyncActionSubscriptions.None?) &&
      (asyncActionSubscriptions.Some? ==> forall i :: 0 <= i < |asyncActionSubscriptions.value| ==>
        asyncActionSubscriptions.value[i] in issued) &&
      (forall x :: x in issued ==>
        x in Repr && (x.Cancelled() || (asyncActionSubscriptions.Some? && x in asyncActionSubscriptions.value))) &&
      (asyncActionSubscriptions.Some? ==> forall i :: 0 <= i < |asyncActionSubscriptions.value| ==>
        asyncActionSubscriptions.value[i].Listening()) &&
      (forall s :: s in submachines ==> SubValid(s)) &&
      (forall s, t :: s in submachines && t in submachines && s != t ==> submachines[s].Repr !! submachines[t].Repr)
    }

    /** The submachine of `s` sits below this level and stops whenever `s` is not the current state. */
    ghost predicate SubValid(s: StateId)
      requires s in submachines
      reads this, Repr
      decreases Repr, 0
    {
      var m := submachines[s];
      this in Repr && m in Repr && m.Repr <= Repr && this !in m.Repr && issued !! m.Repr &&
      m.env == env && m.parent == this && SubConfig(config, s) == Some(m.config) &&
      m.Valid() &&
      (currentState != Some(s) ==> m.currentState.None?)
    }

    /**
     * A step that changes only the objects of one submachine (and possibly adds
     * fresh ones to it) keeps its parent well formed.
     */
    twostate lemma SubmachineStepKeepsValid(s: StateId)
      requires old(Valid()) && s in old(submachines)
      requires submachines == old(submachines) && currentState == old(currentState)
      requires timerIDs == old(timerIDs) && asyncActionSubscriptions == old(asyncActionSubscriptions)
      requires issued == old(issued)
      requires Repr == old(Repr) + submachines[s].Repr
      requires submachines[s].Valid() && fresh(submachines[s].Repr - old(submachines[s].Repr))
      requires currentState != Some(s) ==> submachines[s].currentState.None?
      requires forall o: object :: o in old(Repr) && o !in old(submachines[s].Repr) && o != this ==> unchanged(o)
      ensures Valid()
      ensures forall x :: x in issued ==> x.Cancelled() == old(x.Cancelled())
      ensures currentState == Some(s) ==> Abstract() == Some(Run(s, timerIDs, submachines[s].Abstract()))
    {
      var m := submachines[s];
      assert old(SubValid(s));
      forall t | t in submachines && t != s
        ensures SubValid(t) && submachines[t].Repr !! m.Repr
        ensures submachines[t].Repr == old(submachines[t].Repr)
      {
        assert old(SubValid(t));
        assert old(submachines[t].Valid());
        assert old(submachines[t] in submachines[t].Repr);
        assert old(submachines[t].Repr !! m.Repr);
      }
      assert SubValid(s);
      forall x | x in issued
        ensures x.Cancelled() == old(x.Cancelled())
      {
        assert old(x in Repr) && old(x !in m.Repr);
      }
      forall t, u | t in submachines && u in submachines && t != u && t != s && u != s
        ensures submachines[t].Repr !! submachines[u].Repr
      {
        assert old(submachines[t].Repr !! submachines[u].Repr);
      }
    }

    /** The running state of this level and of the started levels below it. */
    ghost function Abstract(): Option<Run>
      reads this, Repr
      requires Valid()
      decreases Repr
    {
      if currentState.None? then None
      else
        Some(Run(currentState.value, timerIDs,
          if currentState.value in submachines then
            assert SubValid(currentState.value);
            submachines[currentState.value].Abstract()
          else None))
    }

    /** Nothing runs at this level: no timer, no subscription, no started submachine. */
    ghost predicate Exited()
      reads this, Repr
      requires Valid()
    {
      timerIDs.None? && asyncActionSubscriptions.None? &&
      forall s :: s in submachines ==> assert SubValid(s); submachines[s].currentState.None?
    }

    constructor (config: Config, parent: StateMachine?, env: Host)
      requires config.initialState.Some?
      ensures Valid() && fresh(Repr) && Abstract() == None
      ensures this.config == config && this.parent == parent && this.env == env
      ensures submachines == map[] && issued == {}
    {
      this.config := config;
      this.parent := parent;
      this.env := env;
      currentState := None;
      submachines := map[];
      timerIDs := None;
      asyncActionSubscriptions := None;
      issued := {};
      Repr := {this};
    }

    /** `new StateMachine(config, parent)`: the checks of the constructor, then a stopped machine. */
    static method Create(arg: ConfigArgument, parent: StateMachine?, env: Host) returns (m: StateMachine?, error: Option<string>)
      ensures error == ConstructionError(arg)
      ensures error.Some? <==> m == null
      ensures m != null ==>
        fresh(m) && fresh(m.Repr) && m.Valid() && m.Abstract() == None &&
        m.config == arg.config && m.parent == parent && m.env == env && m.submachines == map[]
    {
      error := ConstructionError(arg);
      if error.Some? {
        m := null;
      } else {
        m := new StateMachine(arg.config, parent, env);
      }
    }

    /** `StateMachine.start(config)`: constructs a machine without a parent, then starts it. */
    static method StartMachine(arg: ConfigArgument, env: Host) returns (m: StateMachine?, error: Option<string>)
      modifies env
      ensures ConstructionError(arg).Some? ==> m == null && error == ConstructionError(arg) && env.trace == old(env.trace)
      ensures ConstructionError(arg).None? ==>
        m != null && fresh(m.Repr) && m.Valid() && m.parent == null && m.config == arg.config && m.env == env &&
        var e := EngineSemantics.Start(arg.config, None, old(env.nextTimerId));
        env.trace == old(env.trace) + e.trace && env.nextTimerId == e.next && m.Abstract() == e.run && error == e.error
    {
      m, error := Create(arg, null, env);
      if m != null {
        error := m.Start();
      }
    }

    /** `getCurrentState()`. */
    function GetCurrentState(): (s: Option<StateId>)
      reads this, Repr
      requires Valid()
      ensures s.Some? <==> Abstract().Some?
      ensures s.Some? ==> s.value == Abstract().value.state
    {
      currentState
    }

    /** `selectTransition`: the first transition without a condition or whose condition holds. */
    method SelectTransition(transitions: seq<TransitionConfig>, context: Context) returns (r: Option<TransitionConfig>)
      ensures r == Selected(transitions, context)
    {
      var i := 0;
      while i < |transitions|
        invariant 0 <= i <= |transitions|
        invariant forall j :: 0 <= j < i ==> !Eligible(transitions[j], context)
      {
        if transitions[i].condition.None? || transitions[i].condition.value(context) {
          assert FirstEligible(transitions, context) == Some(i);
          return Some(transitions[i]);
        }
        i := i + 1;
      }
      return None;
    }

    /** `getTransitionForEvent`. */
    method GetTransitionForEvent(context: Context) returns (r: Option<TransitionConfig>)
      ensures r == TransitionFor(config, currentState, context)
    {
      if currentState.None? || currentState.value !in config.states {
        return None;
      }
      var stateConfig := config.states[currentState.value];
      if context.event.None? || context.event.value !in stateConfig.events {
        return None;
      }
      r := SelectTransition(stateConfig.events[context.event.value].transitions, context);
    }

    /** `canHandle`: false when stopped; otherwise the started submachine first, then this level. */
    method CanHandle(event: Option<EventId>, eventPayload: Option<Value>) returns (r: bool)
      requires Valid()
      ensures r == EngineSemantics.CanHandle(config, Abstract(), event, eventPayload)
      decreases Repr
    {
      if currentState.None? {
        return false;
      }
      if currentState.value in submachines {
        var m := submachines[currentState.value];
        assert SubValid(currentState.value);
        r := m.CanHandle(event, eventPayload);
        if r {
          return true;
        }
      }
      var context := EventContext(event, eventPayload);
      var t := GetTransitionForEvent(context);
      r := t.Some?;
    }

    // ------------------------------------------------------------ leaving a state

    /** `stopTimers`: clears every handle, in order, then forgets them. */
    method StopTimers()
      requires Valid()
      modifies this, env
      ensures Valid() && Repr == old(Repr) && timerIDs.None?
      ensures currentState == old(currentState) && submachines == old(submachines)
      ensures asyncActionSubscriptions == old(asyncActionSubscriptions) && issued == old(issued)
      ensures env.trace == old(env.trace) + ClearTimeouts(old(timerIDs))
      ensures env.nextTimerId == old(env.nextTimerId)
    {
      if timerIDs.Some? {
        var ids := timerIDs.value;
        var i := 0;
        while i < |ids|
          modifies env
          invariant 0 <= i <= |ids|
          invariant env.trace == old(env.trace) + ClearTimeouts(Some(ids[..i]))
          invariant env.nextTimerId == old(env.nextTimerId)
        {
          env.ClearTimeout(ids[i]);
          assert ClearTimeouts(Some(ids[..i + 1])) == ClearTimeouts(Some(ids[..i])) + [Entry.ClearTimeout(ids[i])];
          i := i + 1;
        }
        assert ids[..i] == ids;
        label beforeDrop:
        timerIDs := None;
        TimerHandlesKeepValid@beforeDrop();
      }
    }

    /** Replacing the timer handles, and changing nothing else of the tree, keeps the level well formed. */
    twostate lemma TimerHandlesKeepValid()
      requires old(Valid()) && (currentState.None? ==> timerIDs.None?)
      requires currentState == old(currentState) && submachines == old(submachines) && issued == old(issued)
      requires asyncActionSubscriptions == old(asyncActionSubscriptions) && Repr == old(Repr)
      requires forall o: object :: o in old(Repr) && o != this ==> unchanged(o)
      ensures Valid()
    {
      forall s | s in submachines
        ensures SubValid(s)
      {
        assert old(SubValid(s));
        assert old(submachines[s].Valid());
      }
      forall x | x in issued
        ensures x in Repr && (x.Cancelled() || (asyncActionSubscriptions.Some? && x in asyncActionSubscriptions.value))
      {
        assert old(x.Cancelled() || (asyncActionSubscriptions.Some? && x in asyncActionSubscriptions.value));
      }
    }

    /** `cancelAsyncActionSubscriptions`: cancels every subscription, then forgets them. */
    method CancelAsyncActionSubscriptions()
      requires Valid()
      modifies this, issued
      ensures Valid() && Repr == old(Repr) && asyncActionSubscriptions.None?
      ensures currentState == old(currentState) && submachines == old(submachines)
      ensures timerIDs == old(timerIDs) && issued == old(issued)
      ensures forall x :: x in issued ==> x.Cancelled()
    {
      if asyncActionSubscriptions.Some? {
        var list := asyncActionSubscriptions.value;
        var i := 0;
        while i < |list|
          modifies issued
          invariant 0 <= i <= |list|
          invariant forall x :: x in issued ==> x.Cancelled() || x in list[i..]
        {
          list[i].Cancel();
          i := i + 1;
        }
        asyncActionSubscriptions := None;
      }
    }

    /** `stopSubmachines`: stops the submachine of the current state, if it was ever created. */
    method StopSubmachines()
      requires Valid() && currentState.Some?
      modifies Repr, env
      ensures Valid() && Repr == old(Repr)
      ensures currentState == old(currentState) && submachines == old(submachines) && timerIDs == old(timerIDs)
      ensures asyncActionSubscriptions == old(asyncActionSubscriptions) && issued == old(issued)
      ensures forall x :: x in issued ==> x.Cancelled() == old(x.Cancelled())
      ensures currentState.value in submachines ==> submachines[currentState.value].currentState.None?
      ensures env.trace == old(env.trace) + StopActive(config, old(Abstract()).value)
      ensures env.nextTimerId == old(env.nextTimerId)
      decreases config, 1
    {
      var s := currentState.value;
      if s in submachines {
        var m := submachines[s];
        assert SubValid(s);
        label beforeStop:
        m.Stop();
        SubmachineStepKeepsValid@beforeStop(s);
        assert forall x :: x in issued ==> x !in old(m.Repr);
        assert Valid();
        assert forall x :: x in issued ==> x.Cancelled() == old(x.Cancelled());
        assert env.trace == old(env.trace) + StopActive(config, old(Abstract()).value);
      }
    }

    /**
     * `exitState`: stops the submachine, clears the timers, cancels the
     * subscriptions, then runs the exit hooks and the state's exit actions.
     * The current state stays as it was.
     */
    method ExitState(context: Context)
      requires Valid() && currentState.Some?
      modifies Repr, env
      ensures Valid() && Repr == old(Repr) && Exited()
      ensures currentState == old(currentState) && submachines == old(submachines) && issued == old(issued)
      ensures forall x :: x in issued ==> x.Cancelled()
      ensures Abstract() == Some(Run(currentState.value, None, None))
      ensures env.trace == old(env.trace) + ExitEffects(config, old(Abstract()).value, context)
      ensures env.nextTimerId == old(env.nextTimerId)
      decreases config, 2
    {
      ghost var run := Abstract().value;
      ghost var trace0 := env.trace;
      var s := currentState.value;
      StopSubmachines();
      assert env.trace == trace0 + StopActive(config, run);
      StopTimers();
      assert env.trace == trace0 + StopActive(config, run) + ClearTimeouts(run.timerIDs);
      CancelAsyncActionSubscriptions();
      assert Exited();
      assert Abstract() == Some(Run(s, None, None));
      ghost var trace1 := env.trace;
      ExitHooks(context);
      assert Valid() && Exited() && Abstract() == Some(Run(s, None, None));
      assert ExitEffects(config, run, context) == StopActive(config, run) + ClearTimeouts(run.timerIDs)
        + Invocations(StateExitHook, config.stateExitHooks, AtState(s, context))
        + (if s in config.states then Invocations(ExitAction, config.states[s].exitActions, AtState(s, context)) else []);
      assert env.trace == trace1 + Invocations(StateExitHook, config.stateExitHooks, AtState(s, context))
        + (if s in config.states then Invocations(ExitAction, config.states[s].exitActions, AtState(s, context)) else []);
      assert trace1 == trace0 + StopActive(config, run) + ClearTimeouts(run.timerIDs);
      AppendFour(trace0, StopActive(config, run), ClearTimeouts(run.timerIDs),
        Invocations(StateExitHook, config.stateExitHooks, AtState(s, context)),
        if s in config.states then Invocations(ExitAction, config.states[s].exitActions, AtState(s, context)) else []);
    }

    /** The exit hooks, then the current state's exit actions. */
    method ExitHooks(context: Context)
      requires Valid() && currentState.Some?
      modifies env
      ensures env.trace == old(env.trace) + Invocations(StateExitHook, config.stateExitHooks, AtState(currentState.value, context))
        + (if currentState.value in config.states then Invocations(ExitAction, config.states[currentState.value].exitActions, AtState(currentState.value, context)) else [])
      ensures env.nextTimerId == old(env.nextTimerId)
    {
      env.Call(StateExitHook, config.stateExitHooks, AtState(currentState.value, context));
      if currentState.value in config.states {
        env.Call(ExitAction, config.states[currentState.value].exitActions, AtState(currentState.value, context));
      }
    }

    /** `stop()`: exits with an empty context and becomes stopped, only when started. */
    method Stop()
      requires Valid()
      modifies Repr, env
      ensures Valid() && Repr == old(Repr) && currentState.None? && Exited()
      ensures submachines == old(submachines) && issued == old(issued)
      ensures old(currentState.Some?) ==> forall x :: x in issued ==> x.Cancelled()
      ensures var e := EngineSemantics.Stop(config, old(Abstract()), old(env.nextTimerId));
        env.trace == old(env.trace) + e.trace && Abstract() == e.run && env.nextTimerId == e.next
      decreases config, 3
    {
      if currentState.Some? {
        ExitState(EmptyContext);
        currentState := None;
      }
    }

    // ------------------------------------------------------------ entering a state

    /** The asynchronous actions of `state`, if it has a configuration. */
    function AsyncActionsAt(state: StateId): seq<AsyncActionConfig> {
      if state in config.states then config.states[state].asyncActions else []
    }

    /** The asynchronous actions of the current state. */
    function AsyncActionsHere(): seq<AsyncActionConfig>
      reads this
      requires currentState.Some?
    {
      AsyncActionsAt(currentState.value)
    }

    /** The timers of the current state, if it has a configuration. */
    function TimersHere(): seq<TimerConfig>
      reads this
      requires currentState.Some?
    {
      if currentState.value in config.states then config.states[currentState.value].timers else []
    }

    /**
     * `startAsyncAction`: a subscription forwarding to the action's success and
     * failure triggers, then the call of the action with the current state and
     * the context, then the subscription joins the list.
     */
    method StartAsyncAction(a: AsyncActionConfig, context: Context) returns (ghost joined: Subscription)
      requires Valid() && currentState.Some?
      modifies this, env
      ensures Valid() && fresh(Repr - old(Repr))
      ensures currentState == old(currentState) && submachines == old(submachines) && timerIDs == old(timerIDs)
      ensures env.trace == old(env.trace) + [Invoke(AsyncAction, a.action, AtState(currentState.value, context))]
      ensures env.nextTimerId == old(env.nextTimerId)
      ensures asyncActionSubscriptions.Some? && SubscriptionList() == old(SubscriptionList()) + [joined]
      ensures fresh(joined) && issued == old(issued) + {joined}
      ensures joined.givenSuccessListener == a.onSuccess && joined.givenFailureListener == a.onFailure
      ensures joined.successListener == Some(a.onSuccess) && joined.failureListener == Some(a.onFailure)
    {
      var subscription := new AsyncActionSubscription(a.onSuccess, a.onFailure);
      env.Call(AsyncAction, [a.action], AtState(currentState.value, context));
      var before := if asyncActionSubscriptions.Some? then asyncActionSubscriptions.value else [];
      asyncActionSubscriptions := Some(before + [subscription]);
      issued := issued + {subscription};
      Repr := Repr + {subscription};
      SubscriptionJoinKeepsValid(subscription);
      joined := subscription;
    }

    /** A fresh subscription that joins the list keeps this level well formed. */
    twostate lemma SubscriptionJoinKeepsValid(new x: Subscription)
      requires old(Valid()) && fresh(x)
      requires currentState == old(currentState) && currentState.Some?
      requires submachines == old(submachines) && timerIDs == old(timerIDs)
      requires issued == old(issued) + {x} && Repr == old(Repr) + {x}
      requires asyncActionSubscriptions == Some((if old(asyncActionSubscriptions).Some? then old(asyncActionSubscriptions).value else []) + [x])
      requires forall o: object :: o in old(Repr) && o != this ==> unchanged(o)
      requires x.Listening()
      ensures Valid()
    {
      var before := if old(asyncActionSubscriptions).Some? then old(asyncActionSubscriptions).value else [];
      forall i | 0 <= i < |before|
        ensures before[i].Listening()
      {
        assert old(before[i].Listening());
      }
      assert forall i :: 0 <= i < |before| ==> asyncActionSubscriptions.value[i] == before[i];
      forall s | s in submachines
        ensures SubValid(s)
      {
        assert old(SubValid(s));
        assert x !in submachines[s].Repr;
      }
      assert forall y :: y in issued ==> y == x || old(y in issued);
    }

    /** The subscription list, with `null` read as empty. */
    function SubscriptionList(): seq<Subscription>
      reads this
    {
      if asyncActionSubscriptions.Some? then asyncActionSubscriptions.value else []
    }

    /**
     * The subscription list holds one subscription per action of `actions`, in
     * order, each issued after `issued0` and listening to its action's success
     * and failure triggers; it is `null` when there is no action.
     */
    ghost predicate SubscribedFor(actions: seq<AsyncActionConfig>, issued0: set<Subscription>)
      reads this, issued
    {
      (asyncActionSubscriptions.None? <==> actions == []) &&
      |SubscriptionList()| == |actions| &&
      forall i :: 0 <= i < |actions| ==>
        SubscriptionList()[i] in issued && SubscriptionList()[i] !in issued0 &&
        SubscriptionList()[i].successListener == Some(actions[i].onSuccess) &&
        SubscriptionList()[i].failureListener == Some(actions[i].onFailure)
    }

    /** Subscriptions made for `actions` that are the whole list listen to their actions' triggers while the level is well formed. */
    lemma SubscribedByValid(actions: seq<AsyncActionConfig>, made: seq<Subscription>, issued0: set<Subscription>)
      requires Valid() && SubscriptionList() == made && |made| == |actions| && SubscriptionsFor(made, actions, issued0)
      requires asyncActionSubscriptions.None? <==> actions == []
      ensures SubscribedFor(actions, issued0)
    {
    }

    /**
     * `startAsyncActions`: starts the current state's asynchronous actions in
     * order; each adds one new subscription, listening to that action's
     * triggers, to the end of the list.
     */
    method StartAsyncActions(context: Context) returns (ghost made: seq<Subscription>)
      requires Valid() && currentState.Some?
      modifies this, env
      ensures Valid() && fresh(Repr - old(Repr))
      ensures currentState == old(currentState) && submachines == old(submachines) && timerIDs == old(timerIDs)
      ensures env.trace == old(env.trace) + AsyncStarts(currentState.value, AsyncActionsHere(), context)
      ensures env.nextTimerId == old(env.nextTimerId)
      ensures AsyncActionsHere() == [] ==> asyncActionSubscriptions == old(asyncActionSubscriptions) && issued == old(issued)
      ensures AsyncActionsHere() != [] ==> asyncActionSubscriptions.Some?
      ensures SubscriptionList() == old(SubscriptionList()) + made && |made| == |AsyncActionsHere()|
      ensures SubscriptionsFor(made, AsyncActionsHere(), old(issued))
      ensures forall k :: 0 <= k < |made| ==> made[k] in issued
      ensures ListeningTo(made, AsyncActionsHere())
    {
      var actions := AsyncActionsHere();
      ghost var before := SubscriptionList();
      made := [];
      var i := 0;
      while i < |actions|
        invariant 0 <= i <= |actions|
        invariant Valid() && fresh(Repr - old(Repr))
        invariant currentState == old(currentState) && submachines == old(submachines) && timerIDs == old(timerIDs)
        invariant env.nextTimerId == old(env.nextTimerId)
        invariant i == 0 ==> asyncActionSubscriptions == old(asyncActionSubscriptions) && issued == old(issued)
        invariant i > 0 ==> asyncActionSubscriptions.Some?
        invariant AsyncStarted(actions, i, context, before, made, old(issued), old(env.trace))
      {
        made := StartNextAsyncAction(actions, i, context, before, made, old(issued), old(env.trace));
        i := i + 1;
      }
      assert actions[..i] == actions;
      forall k | 0 <= k < |made|
        ensures made[k] in issued && made[k].Listening()
      {
        assert SubscriptionList()[|before| + k] == made[k];
      }
    }

    /**
     * The first `i` of `actions` have started: their invocations follow
     * `trace0`, and their subscriptions `made` follow `before` in the list.
     */
    ghost predicate AsyncStarted(actions: seq<AsyncActionConfig>, i: nat, context: Context, before: seq<Subscription>,
                                 made: seq<Subscription>, issued0: set<Subscription>, trace0: seq<Entry>)
      reads this, env
    {
      currentState.Some? && i <= |actions| && |made| == i &&
      env.trace == trace0 + AsyncStarts(currentState.value, actions[..i], context) &&
      SubscriptionList() == before + made && SubscriptionsFor(made, actions, issued0)
    }

    /** One step of `startAsyncActions`: the action at index `i` starts. */
    method StartNextAsyncAction(actions: seq<AsyncActionConfig>, i: nat, context: Context, ghost before: seq<Subscription>,
                                ghost made: seq<Subscription>, ghost issued0: set<Subscription>, ghost trace0: seq<Entry>)
      returns (ghost made': seq<Subscription>)
      requires Valid() && i < |actions| && AsyncStarted(actions, i, context, before, made, issued0, trace0)
      modifies this, env
      ensures Valid() && fresh(Repr - old(Repr))
      ensures currentState == old(currentState) && submachines == old(submachines) && timerIDs == old(timerIDs)
      ensures env.nextTimerId == old(env.nextTimerId) && asyncActionSubscriptions.Some?
      ensures AsyncStarted(actions, i + 1, context, before, made', issued0, trace0)
    {
      ghost var x := StartAsyncAction(actions[i], context);
      SubscriptionsForSnoc(made, actions, issued0, x);
      AppendSnoc(before, made, x);
      AsyncStartsSnoc(currentState.value, actions, i, context);
      made' := made + [x];
    }

    /** `startTimers`: one timer per configured timer, in order, when the current state has any. */
    method StartTimers()
      requires Valid() && currentState.Some?
      modifies this, env
      ensures Valid() && Repr == old(Repr)
      ensures currentState == old(currentState) && submachines == old(submachines)
      ensures asyncActionSubscriptions == old(asyncActionSubscriptions) && issued == old(issued)
      ensures env.trace == old(env.trace) + SetTimeouts(TimersHere(), old(env.nextTimerId))
      ensures env.nextTimerId == old(env.nextTimerId) + |TimersHere()|
      ensures timerIDs == if |TimersHere()| > 0 then Some(TimerIds(|TimersHere()|, old(env.nextTimerId))) else old(timerIDs)
    {
      var timers := TimersHere();
      if |timers| > 0 {
        var ids := [];
        var i := 0;
        while i < |timers|
          modifies env
          invariant 0 <= i <= |timers|
          invariant ids == TimerIds(i, old(env.nextTimerId))
          invariant env.trace == old(env.trace) + SetTimeouts(timers[..i], old(env.nextTimerId))
          invariant env.nextTimerId == old(env.nextTimerId) + i
        {
          var id := env.SetTimeout(timers[i].timeout);
          assert SetTimeouts(timers[..i + 1], old(env.nextTimerId))
            == SetTimeouts(timers[..i], old(env.nextTimerId)) + [Entry.SetTimeout(id, timers[i].timeout)];
          ids := ids + [id];
          i := i + 1;
        }
        assert timers[..i] == timers;
        label beforeSet:
        timerIDs := Some(ids);
        TimerHandlesKeepValid@beforeSet();
      }
    }

    /** The submachine configuration of the current state, if any. */
    function SubConfigHere(): Option<Config>
      reads this
      requires currentState.Some?
    {
      SubConfig(config, currentState.value)
    }

    /**
     * `startSubmachines`: when the current state has a submachine
     * configuration, creates the submachine on first entry only, and starts it.
     */
    method StartSubmachines() returns (error: Option<string>)
      requires Valid() && currentState.Some?
      requires currentState.value in submachines ==> submachines[currentState.value].currentState.None?
      modifies Repr, env
      ensures Valid() && fresh(Repr - old(Repr))
      ensures currentState == old(currentState) && timerIDs == old(timerIDs)
      ensures asyncActionSubscriptions == old(asyncActionSubscriptions) && issued == old(issued)
      ensures forall s :: s in old(submachines) ==> s in submachines && submachines[s] == old(submachines[s])
      ensures forall s :: s in submachines ==> s in old(submachines) || s == currentState.value
      ensures var e := if SubConfigHere().Some? then SubmachineStart(SubConfigHere().value, old(env.nextTimerId))
          else Effects([], None, old(env.nextTimerId), None);
        env.trace == old(env.trace) + e.trace && env.nextTimerId == e.next && error == e.error &&
        Abstract() == Some(Run(currentState.value, timerIDs, e.run))
      decreases config, 1
    {
      var s := currentState.value;
      if s !in config.states || config.states[s].submachine.None? {
        return None;
      }
      if s !in submachines {
        error := CreateSubmachine();
        if error.Some? {
          return;
        }
      }
      error := StartCurrentSubmachine();
    }

    /** `this.submachines[this.currentState].start()` on the stopped submachine of the current state. */
    method StartCurrentSubmachine() returns (error: Option<string>)
      requires Valid() && currentState.Some? && currentState.value in submachines
      requires submachines[currentState.value].currentState.None?
      modifies Repr, env
      ensures Valid() && fresh(Repr - old(Repr))
      ensures currentState == old(currentState) && timerIDs == old(timerIDs) && submachines == old(submachines)
      ensures asyncActionSubscriptions == old(asyncActionSubscriptions) && issued == old(issued)
      ensures SubConfigHere().Some?
      ensures var e := SubmachineStart(SubConfigHere().value, old(env.nextTimerId));
        env.trace == old(env.trace) + e.trace && env.nextTimerId == e.next && error == e.error &&
        Abstract() == Some(Run(currentState.value, timerIDs, e.run))
      decreases config, 0
    {
      var s := currentState.value;
      var m := submachines[s];
      assert SubValid(s);
      assert m.config == SubConfigHere().value && m.Abstract() == None;
      label beforeStart:
      error := m.Start();
      Repr := Repr + m.Repr;
      SubmachineStepKeepsValid@beforeStart(s);
    }

    /** `submachines[currentState] = new StateMachine(stateConfig.submachine, this)`, which may throw. */
    method CreateSubmachine() returns (error: Option<string>)
      requires Valid() && currentState.Some? && SubConfigHere().Some? && currentState.value !in submachines
      modifies this
      ensures Valid() && fresh(Repr - old(Repr))
      ensures currentState == old(currentState) && timerIDs == old(timerIDs)
      ensures asyncActionSubscriptions == old(asyncActionSubscriptions) && issued == old(issued)
      ensures error == ConstructionError(ConfigObject(SubConfigHere().value))
      ensures error.Some? ==> submachines == old(submachines)
      ensures error.None? ==>
        currentState.value in submachines && submachines == old(submachines)[currentState.value := submachines[currentState.value]] &&
        submachines[currentState.value].currentState.None?
    {
      var s := currentState.value;
      var created, err := Create(ConfigObject(SubConfigHere().value), this, env);
      error := err;
      if err.Some? {
        return;
      }
      submachines := submachines[s := created];
      Repr := Repr + created.Repr;
      assert SubValid(s);
      forall t | t in submachines && t != s
        ensures SubValid(t) && submachines[t].Repr !! created.Repr
      {
        assert old(SubValid(t));
      }
    }

    /** The enter hooks, the entry actions of the entered state, then the state-change hooks if the state changes. */
    method EnterHooks(state: StateId, context: Context)
      modifies env
      ensures env.trace == old(env.trace) + EnterHookCalls(config, currentState, state, context)
      ensures env.nextTimerId == old(env.nextTimerId)
    {
      env.Call(StateEnterHook, config.stateEnterHooks, AtState(state, context));
      if state in config.states {
        env.Call(EntryAction, config.states[state].entryActions, AtState(state, context));
      }
      if currentState.Some? && currentState.value != state {
        env.Call(StateChangeHook, config.stateChangeHooks, Between(currentState.value, state, context));
      }
    }

    /**
     * `enterState`: the hooks and actions of entering, then the new current
     * state, then its asynchronous actions, its timers and its submachine.
     */
    method EnterState(state: StateId, context: Context) returns (error: Option<string>)
      requires Valid() && Exited()
      modifies Repr, env
      ensures Valid() && fresh(Repr - old(Repr))
      ensures forall s :: s in old(submachines) ==> s in submachines && submachines[s] == old(submachines[s])
      ensures var e := EnterEffects(config, old(currentState), state, context, old(env.nextTimerId));
        env.trace == old(env.trace) + e.trace && env.nextTimerId == e.next && Abstract() == e.run && error == e.error
      ensures SubscribedFor(AsyncActionsAt(state), old(issued))
      decreases config, 3
    {
      EnterHooks(state, context);
      label beforeSet:
      currentState := Some(state);
      NewStateKeepsValid@beforeSet(state);
      ghost var made;
      error, made := StartActivities(context);
      SubscribedByValid(AsyncActionsAt(state), made, old(issued));
      EnterEffectsSplit(config, old(currentState), state, context, old(env.nextTimerId));
      AppendTwo(old(env.trace), EnterHookCalls(config, old(currentState), state, context),
        StartedEffects(config, state, context, old(env.nextTimerId)).trace);
    }

    /** Setting the current state of a level whose activities are all stopped keeps it well formed and stopped. */
    twostate lemma NewStateKeepsValid(state: StateId)
      requires old(Valid()) && old(Exited())
      requires currentState == Some(state)
      requires submachines == old(submachines) && timerIDs == old(timerIDs) && issued == old(issued)
      requires asyncActionSubscriptions == old(asyncActionSubscriptions) && Repr == old(Repr)
      requires forall o: object :: o in old(Repr) && o != this ==> unchanged(o)
      ensures Valid() && Exited()
    {
      forall s | s in submachines
        ensures SubValid(s) && submachines[s].currentState.None?
      {
        assert old(SubValid(s));
        assert old(submachines[s].currentState.None?);
        assert old(submachines[s].Valid());
      }
      forall x | x in issued
        ensures x.Cancelled()
      {
        assert old(x.Cancelled());
      }
    }

    /** The second half of `enterState`: the current state's asynchronous actions, timers and submachine. */
    method StartActivities(context: Context) returns (error: Option<string>, ghost made: seq<Subscription>)
      requires Valid() && Exited() && currentState.Some?
      modifies Repr, env
      ensures Valid() && fresh(Repr - old(Repr))
      ensures forall s :: s in old(submachines) ==> s in submachines && submachines[s] == old(submachines[s])
      ensures currentState == old(currentState)
      ensures var e := StartedEffects(config, currentState.value, context, old(env.nextTimerId));
        env.trace == old(env.trace) + e.trace && env.nextTimerId == e.next && Abstract() == e.run && error == e.error
      ensures asyncActionSubscriptions.None? <==> AsyncActionsHere() == []
      ensures SubscriptionList() == made && |made| == |AsyncActionsHere()| && SubscriptionsFor(made, AsyncActionsHere(), old(issued))
      decreases config, 2, 1
    {
      ghost var trace0 := env.trace;
      made := StartAsyncActions(context);
      ghost var starts := AsyncStarts(currentState.value, AsyncActionsHere(), context);
      ghost var rest := TimersAndSubmachineEffects(config, currentState.value, old(env.nextTimerId));
      error := StartTimersAndSubmachines();
      AppendTwo(trace0, starts, rest.trace);
    }

    /** The timers and then the submachine of the current state, at a level with no timer and no started submachine. */
    method StartTimersAndSubmachines() returns (error: Option<string>)
      requires Valid() && currentState.Some? && timerIDs.None?
      requires currentState.value in submachines ==> submachines[currentState.value].currentState.None?
      modifies Repr, env
      ensures Valid() && fresh(Repr - old(Repr))
      ensures forall s :: s in old(submachines) ==> s in submachines && submachines[s] == old(submachines[s])
      ensures currentState == old(currentState) && asyncActionSubscriptions == old(asyncActionSubscriptions) && issued == old(issued)
      ensures var e := TimersAndSubmachineEffects(config, currentState.value, old(env.nextTimerId));
        env.trace == old(env.trace) + e.trace && env.nextTimerId == e.next && Abstract() == e.run && error == e.error
      decreases config, 2, 0
    {
      ghost var trace0 := env.trace;
      ghost var next0 := env.nextTimerId;
      ghost var timers := TimersHere();
      StartTimers();
      error := StartSubmachines();
      AppendTwo(trace0, SetTimeouts(timers, next0), env.trace[|trace0| + |SetTimeouts(timers, next0)|..]);
    }

    /** `start()`: enters the initial state with an empty context, only when stopped. */
    method Start() returns (error: Option<string>)
      requires Valid()
      modifies Repr, env
      ensures Valid() && fresh(Repr - old(Repr))
      ensures forall s :: s in old(submachines) ==> s in submachines && submachines[s] == old(submachines[s])
      ensures var e := EngineSemantics.Start(config, old(Abstract()), old(env.nextTimerId));
        env.trace == old(env.trace) + e.trace && env.nextTimerId == e.next && Abstract() == e.run && error == e.error
      ensures old(currentState).None? ==> SubscribedFor(AsyncActionsAt(config.initialState.value), old(issued))
      decreases config, 4
    {
      if currentState.None? {
        error := EnterState(config.initialState.value, EmptyContext);
      } else {
        error := None;
      }
    }

    // ------------------------------------------------------------ transitions and events

    /** The transition hooks, then the transition's own actions, both with the current and the next state. */
    method TransitionHooks(t: TransitionConfig, nextState: StateId, context: Context)
      requires currentState.Some?
      modifies env
      ensures env.trace == old(env.trace) + Invocations(TransitionHook, config.transitionHooks, Between(currentState.value, nextState, context))
        + Invocations(TransitionAction, t.actions, Between(currentState.value, nextState, context))
      ensures env.nextTimerId == old(env.nextTimerId)
    {
      env.Call(TransitionHook, config.transitionHooks, Between(currentState.value, nextState, context));
      env.Call(TransitionAction, t.actions, Between(currentState.value, nextState, context));
    }

    /**
     * `executeTransition`: unless the transition is internal, exits the current
     * state; runs the transition hooks and actions; unless internal, enters the
     * target (the current state when the target is `null`).
     */
    method ExecuteTransition(t: TransitionConfig, context: Context) returns (error: Option<string>)
      requires Valid() && currentState.Some?
      modifies Repr, env
      ensures Valid() && fresh(Repr - old(Repr))
      ensures forall s :: s in old(submachines) ==> s in submachines && submachines[s] == old(submachines[s])
      ensures var e := TransitionEffects(config, old(Abstract()).value, t, context, old(env.nextTimerId));
        env.trace == old(env.trace) + e.trace && env.nextTimerId == e.next && Abstract() == e.run && error == e.error
      decreases config, 5
    {
      ghost var run := Abstract().value;
      ghost var trace0 := env.trace;
      ghost var next0 := env.nextTimerId;
      var nextState := if t.targetState.Some? then t.targetState.value else currentState.value;
      ghost var hooks := Invocations(TransitionHook, config.transitionHooks, Between(run.state, nextState, context))
        + Invocations(TransitionAction, t.actions, Between(run.state, nextState, context));
      if t.isInternal {
        TransitionHooks(t, nextState, context);
        error := None;
      } else {
        LeaveState(t, nextState, context);
        ghost var trace2 := env.trace;
        error := EnterState(nextState, context);
        ghost var e := EnterEffects(config, Some(run.state), nextState, context, next0);
        assert env.trace == trace2 + e.trace;
        AppendThree(trace0, ExitEffects(config, run, context), hooks, e.trace);
        assert TransitionEffects(config, run, t, context, next0) ==
          Effects(ExitEffects(config, run, context) + hooks + e.trace, e.run, e.next, e.error);
      }
    }

    /** The part of an external `executeTransition` before the target is entered: the exit, then the transition hooks and actions. */
    method LeaveState(t: TransitionConfig, nextState: StateId, context: Context)
      requires Valid() && currentState.Some?
      modifies Repr, env
      ensures Valid() && Repr == old(Repr) && Exited()
      ensures currentState == old(currentState) && submachines == old(submachines)
      ensures env.trace == old(env.trace) + ExitEffects(config, old(Abstract()).value, context)
        + (Invocations(TransitionHook, config.transitionHooks, Between(currentState.value, nextState, context))
           + Invocations(TransitionAction, t.actions, Between(currentState.value, nextState, context)))
      ensures env.nextTimerId == old(env.nextTimerId)
      decreases config, 3
    {
      ExitState(context);
      TransitionHooks(t, nextState, context);
    }

    /** `handleUnhandledEvent`: the unhandled-event hooks when there are any, otherwise the error it throws. */
    method HandleUnhandledEvent(context: Context) returns (error: Option<string>)
      requires Valid()
      modifies env
      ensures var e := UnhandledEffects(config, Abstract(), context, old(env.nextTimerId));
        env.trace == old(env.trace) + e.trace && env.nextTimerId == e.next && error == e.error
    {
      if |config.unhandledEventHooks| > 0 {
        env.Call(UnhandledEventHook, config.unhandledEventHooks, ForEvent(context.event, currentState, context));
        error := None;
      } else {
        error := Some(Errors.UnhandledEventMessage(ShowEvent(context.event), ShowState(currentState)));
      }
    }

    /**
     * `internalHandle`: offers the event to the submachine of the current
     * state first; if that does not take it, to this level's own transitions;
     * a level without a parent reports an event nobody takes as unhandled.
     */
    method InternalHandle(event: Option<EventId>, eventPayload: Option<Value>) returns (handled: bool, error: Option<string>)
      requires Valid()
      modifies Repr, env
      ensures Valid() && fresh(Repr - old(Repr))
      ensures var h := HandleEffects(config, old(Abstract()), parent == null, event, eventPayload, old(env.nextTimerId));
        handled == h.handled && error == h.effects.error &&
        env.trace == old(env.trace) + h.effects.trace && env.nextTimerId == h.effects.next && Abstract() == h.effects.run
      decreases config, 8
    {
      if currentState.Some? && currentState.value in submachines {
        handled, error := OfferToSubmachine(event, eventPayload);
        if handled || error.Some? {
          return;
        }
      }
      handled, error := HandleHere(event, eventPayload);
    }

    /**
     * The first part of `internalHandle`: the submachine of the current state
     * gets the event. When it neither takes the event nor throws, nothing has
     * changed and this level's own handling decides.
     */
    method OfferToSubmachine(event: Option<EventId>, eventPayload: Option<Value>) returns (handled: bool, error: Option<string>)
      requires Valid() && currentState.Some? && currentState.value in submachines
      modifies Repr, env
      ensures Valid() && fresh(Repr - old(Repr))
      ensures var h := HandleEffects(config, old(Abstract()), parent == null, event, eventPayload, old(env.nextTimerId));
        if handled || error.Some? then
          handled == h.handled && error == h.effects.error &&
          env.trace == old(env.trace) + h.effects.trace && env.nextTimerId == h.effects.next && Abstract() == h.effects.run
        else
          env.trace == old(env.trace) && env.nextTimerId == old(env.nextTimerId) && Abstract() == old(Abstract()) &&
          h == OwnHandling(config, old(Abstract()), parent == null, event, eventPayload, old(env.nextTimerId))
      decreases config, 7
    {
      ghost var run := Abstract().value;
      HandleEffectsAtSubmachine(config, run, SubConfigHere().value, parent == null, event, eventPayload, env.nextTimerId);
      handled, error := SubmachineInternalHandle(event, eventPayload);
    }

    /** `submachine.internalHandle(event, eventPayload)` on the submachine of the current state. */
    method SubmachineInternalHandle(event: Option<EventId>, eventPayload: Option<Value>) returns (handled: bool, error: Option<string>)
      requires Valid() && currentState.Some? && currentState.value in submachines
      modifies Repr, env
      ensures Valid() && fresh(Repr - old(Repr))
      ensures currentState == old(currentState) && timerIDs == old(timerIDs)
      ensures SubConfigHere().Some? && old(Abstract()).Some?
      ensures var hs := HandleEffects(SubConfigHere().value, old(Abstract()).value.active, false, event, eventPayload, old(env.nextTimerId));
        handled == hs.handled && error == hs.effects.error &&
        env.trace == old(env.trace) + hs.effects.trace && env.nextTimerId == hs.effects.next &&
        Abstract() == Some(Run(currentState.value, timerIDs, hs.effects.run))
      decreases config, 0
    {
      var s := currentState.value;
      var m := submachines[s];
      assert SubValid(s);
      assert old(Abstract()).value.active == m.Abstract();
      assert SubConfigHere() == Some(m.config) && m.parent != null;
      ghost var hs := HandleEffects(m.config, m.Abstract(), false, event, eventPayload, env.nextTimerId);
      label beforeHandle:
      handled, error := m.InternalHandle(event, eventPayload);
      assert m.Abstract() == hs.effects.run;
      Repr := Repr + m.Repr;
      SubmachineStepKeepsValid@beforeHandle(s);
    }

    /** The part of `internalHandle` after the submachine declined: this level's transition, or the unhandled report. */
    method HandleHere(event: Option<EventId>, eventPayload: Option<Value>) returns (handled: bool, error: Option<string>)
      requires Valid()
      modifies Repr, env
      ensures Valid() && fresh(Repr - old(Repr))
      ensures var h := OwnHandling(config, old(Abstract()), parent == null, event, eventPayload, old(env.nextTimerId));
        handled == h.handled && error == h.effects.error &&
        env.trace == old(env.trace) + h.effects.trace && env.nextTimerId == h.effects.next && Abstract() == h.effects.run
      decreases config, 6
    {
      var context := EventContext(event, eventPayload);
      var t := GetTransitionForEvent(context);
      if t.Some? {
        error := ExecuteTransition(t.value, context);
        return true, error;
      }
      error := None;
      if parent == null {
        error := HandleUnhandledEvent(context);
      }
      handled := false;
    }

    /** `handle` on a machine without a parent: the dispatcher is idle, so the event is handled at once. */
    method Handle(event: Option<EventId>, eventPayload: Option<Value>) returns (error: Option<string>)
      requires Valid() && parent == null
      modifies Repr, env
      ensures Valid() && fresh(Repr - old(Repr))
      ensures var h := HandleEffects(config, old(Abstract()), true, event, eventPayload, old(env.nextTimerId));
        error == h.effects.error &&
        env.trace == old(env.trace) + h.effects.trace && env.nextTimerId == h.effects.next && Abstract() == h.effects.run
    {
      var handled;
      handled, error := InternalHandle(event, eventPayload);
    }

    /** `executeTrigger`: takes the first eligible transition of the trigger, if any. */
    method ExecuteTrigger(transitions: seq<TransitionConfig>, context: Context) returns (error: Option<string>)
      requires Valid() && currentState.Some?
      modifies Repr, env
      ensures Valid() && fresh(Repr - old(Repr))
      ensures var e := TriggerEffects(config, old(Abstract()).value, transitions, context, old(env.nextTimerId));
        env.trace == old(env.trace) + e.trace && env.nextTimerId == e.next && Abstract() == e.run && error == e.error
    {
      var t := SelectTransition(transitions, context);
      if t.Some? {
        error := ExecuteTransition(t.value, context);
      } else {
        error := None;
      }
    }

    /** `handleTimeout`: the timer's trigger with an empty context. */
    method HandleTimeout(timer: TimerConfig) returns (error: Option<string>)
      requires Valid() && currentState.Some?
      modifies Repr, env
      ensures Valid() && fresh(Repr - old(Repr))
      ensures var e := TriggerEffects(config, old(Abstract()).value, timer.transitions, EmptyContext, old(env.nextTimerId));
        env.trace == old(env.trace) + e.trace && env.nextTimerId == e.next && Abstract() == e.run && error == e.error
    {
      error := ExecuteTrigger(timer.transitions, EmptyContext);
    }

    /** `handleAsyncActionSuccess`: the success trigger with the result in the context. */
    method HandleAsyncActionSuccess(trigger: TriggerConfig, result: Value) returns (error: Option<string>)
      requires Valid() && currentState.Some?
      modifies Repr, env
      ensures Valid() && fresh(Repr - old(Repr))
      ensures var e := TriggerEffects(config, old(Abstract()).value, trigger.transitions, SuccessContext(result), old(env.nextTimerId));
        env.trace == old(env.trace) + e.trace && env.nextTimerId == e.next && Abstract() == e.run && error == e.error
    {
      error := ExecuteTrigger(trigger.transitions, SuccessContext(result));
    }

    /** `handleAsyncActionFailure`: the failure trigger with the error in the context. */
    method HandleAsyncActionFailure(trigger: TriggerConfig, reason: Value) returns (error: Option<string>)
      requires Valid() && currentState.Some?
      modifies Repr, env
      ensures Valid() && fresh(Repr - old(Repr))
      ensures var e := TriggerEffects(config, old(Abstract()).value, trigger.transitions, FailureContext(reason), old(env.nextTimerId));
        env.trace == old(env.trace) + e.trace && env.nextTimerId == e.next && Abstract() == e.run && error == e.error
    {
      error := ExecuteTrigger(trigger.transitions, FailureContext(reason));
    }

    /**
     * The promise of an asynchronous action started at this level settles: the
     * subscription forwards to the success or failure handler while it is not
     * cancelled, and a cancelled one changes nothing.
     */
    method SettleAsyncAction(x: Subscription, settlement: Settlement) returns (error: Option<string>)
      requires Valid() && x in issued
      modifies Repr, env
      ensures Valid() && fresh(Repr - old(Repr))
      ensures (if settlement.Fulfilled? then old(x.successListener).None? else old(x.failureListener).None?) ==>
        error.None? && env.trace == old(env.trace) && env.nextTimerId == old(env.nextTimerId) && Abstract() == old(Abstract())
      ensures settlement.Fulfilled? && old(x.successListener).Some? ==>
        old(currentState).Some? &&
        var e := TriggerEffects(config, old(Abstract()).value, old(x.successListener).value.transitions,
          SuccessContext(settlement.result), old(env.nextTimerId));
        env.trace == old(env.trace) + e.trace && env.nextTimerId == e.next && Abstract() == e.run && error == e.error
      ensures settlement.Rejected? && old(x.failureListener).Some? ==>
        old(currentState).Some? &&
        var e := TriggerEffects(config, old(Abstract()).value, old(x.failureListener).value.transitions,
          FailureContext(settlement.error), old(env.nextTimerId));
        env.trace == old(env.trace) + e.trace && env.nextTimerId == e.next && Abstract() == e.run && error == e.error
    {
      var call;
      if settlement.Fulfilled? {
        call := x.OnSuccess(settlement.result);
      } else {
        call := x.OnFailure(settlement.error);
      }
      match call
      case None =>
        error := None;
      case Some(SuccessCall(trigger, result)) =>
        error := HandleAsyncActionSuccess(trigger, result);
      case Some(FailureCall(trigger, reason)) =>
        error := HandleAsyncActionFailure(trigger, reason);
    }
  }
}
