/** Properties of the engine's semantics that hold for every configuration. */
module EngineProperties {
  import opened Wrappers
  import opened Values
  import opened EngineConfig
  import opened EngineSemantics

  /** A level with a parent that does not take an event does nothing at all: no call, no change, no throw. */
  lemma {:induction false} SubLevelSilentUnlessHandled(cfg: Config, run: Option<Run>, event: Option<EventId>, eventPayload: Option<Value>, next: TimerId)
    ensures !HandleEffects(cfg, run, false, event, eventPayload, next).handled ==>
      HandleEffects(cfg, run, false, event, eventPayload, next).effects == Effects([], run, next, None)
    decreases cfg
  {
    if run.Some? && run.value.active.Some? && SubConfig(cfg, run.value.state).Some? {
      SubLevelSilentUnlessHandled(SubConfig(cfg, run.value.state).value, run.value.active, event, eventPayload, next);
      var sub := HandleEffects(SubConfig(cfg, run.value.state).value, run.value.active, false, event, eventPayload, next);
      if !sub.handled {
        assert sub.effects.error.None?;
      }
    }
  }

  /** `internalHandle` reports the event taken exactly when `canHandle` says it can be. */
  lemma {:induction false} HandledIffCanHandle(cfg: Config, run: Option<Run>, isRoot: bool, event: Option<EventId>, eventPayload: Option<Value>, next: TimerId)
    ensures HandleEffects(cfg, run, isRoot, event, eventPayload, next).handled == CanHandle(cfg, run, event, eventPayload)
    decreases cfg
  {
    if run.Some? && run.value.active.Some? && SubConfig(cfg, run.value.state).Some? {
      var c := SubConfig(cfg, run.value.state).value;
      HandledIffCanHandle(c, run.value.active, false, event, eventPayload, next);
      SubLevelSilentUnlessHandled(c, run.value.active, event, eventPayload, next);
    }
  }

  /**
   * The started submachine that can take an event takes it: this level's own
   * transitions are not consulted and its own fields do not change.
   */
  lemma HandledInnermostFirst(cfg: Config, run: Run, isRoot: bool, event: Option<EventId>, eventPayload: Option<Value>, next: TimerId)
    requires run.active.Some? && SubConfig(cfg, run.state).Some?
    requires CanHandle(SubConfig(cfg, run.state).value, run.active, event, eventPayload)
    ensures var h := HandleEffects(cfg, Some(run), isRoot, event, eventPayload, next);
      var sub := HandleEffects(SubConfig(cfg, run.state).value, run.active, false, event, eventPayload, next);
      h.handled && h.effects == Lift(run, sub.effects)
  {
    HandledIffCanHandle(SubConfig(cfg, run.state).value, run.active, false, event, eventPayload, next);
  }

  /**
   * An event no level can take: a level with a parent does nothing; the root
   * calls its unhandled-event hooks if it has any, and otherwise throws
   * `Unhandled event '<e>' in state '<s>'.`, leaving everything as it was.
   */
  lemma UnhandledOnlyAtRoot(cfg: Config, run: Option<Run>, isRoot: bool, event: Option<EventId>, eventPayload: Option<Value>, next: TimerId)
    requires !CanHandle(cfg, run, event, eventPayload)
    ensures var h := HandleEffects(cfg, run, isRoot, event, eventPayload, next);
      !h.handled && h.effects.run == run && h.effects.next == next &&
      (!isRoot ==> h.effects.trace == [] && h.effects.error.None?) &&
      (isRoot ==> h.effects == UnhandledEffects(cfg, run, EventContext(event, eventPayload), next))
  {
    HandledIffCanHandle(cfg, run, isRoot, event, eventPayload, next);
    SubLevelSilentUnlessHandled(cfg, run, event, eventPayload, next);
    if run.Some? && run.value.active.Some? && SubConfig(cfg, run.value.state).Some? {
      var c := SubConfig(cfg, run.value.state).value;
      HandledIffCanHandle(c, run.value.active, false, event, eventPayload, next);
      SubLevelSilentUnlessHandled(c, run.value.active, event, eventPayload, next);
    }
  }

  /** A taken event leaves the level started; `start` on a started level does nothing. */
  lemma HandledLeavesStarted(cfg: Config, run: Option<Run>, isRoot: bool, event: Option<EventId>, eventPayload: Option<Value>, next: TimerId)
    requires HandleEffects(cfg, run, isRoot, event, eventPayload, next).handled
    ensures run.Some?
    ensures HandleEffects(cfg, run, isRoot, event, eventPayload, next).effects.run.Some?
  {
    HandledIffCanHandle(cfg, run, isRoot, event, eventPayload, next);
  }

  /** `start` twice is `start` once. */
  lemma StartIsIdempotent(cfg: Config, next: TimerId)
    requires cfg.initialState.Some?
    ensures var first := Start(cfg, None, next);
      Start(cfg, first.run, first.next) == Effects([], first.run, first.next, None)
  {
  }

  /** `stop` ends stopped and then does nothing more. */
  lemma StopThenStop(cfg: Config, run: Option<Run>, next: TimerId)
    ensures Stop(cfg, run, next).run.None?
    ensures Stop(cfg, None, next) == Effects([], None, next, None)
  {
  }

  /** A stopped level handles nothing. */
  lemma StoppedCannotHandle(cfg: Config, event: Option<EventId>, eventPayload: Option<Value>)
    ensures !CanHandle(cfg, None, event, eventPayload)
  {
  }

  /**
   * An internal transition neither exits nor enters: the running state, the
   * timers and the submachines stay as they were, and the only calls are the
   * transition hooks and the transition's actions, both with the current and
   * the next state.
   */
  lemma InternalTransitionKeepsState(cfg: Config, run: Run, t: TransitionConfig, ctx: Context, next: TimerId)
    requires t.isInternal
    ensures var e := TransitionEffects(cfg, run, t, ctx, next);
      e.run == Some(run) && e.next == next && e.error.None? &&
      e.trace == Invocations(TransitionHook, cfg.transitionHooks, Between(run.state, NextState(t, run.state), ctx))
        + Invocations(TransitionAction, t.actions, Between(run.state, NextState(t, run.state), ctx))
  {
  }

  lemma NoStateChangeConcat(a: seq<Entry>, b: seq<Entry>)
    requires NoStateChange(a) && NoStateChange(b)
    ensures NoStateChange(a + b)
  {
    forall i | 0 <= i < |a + b|
      ensures !((a + b)[i].Invoke? && (a + b)[i].kind == StateChangeHook)
    {
      if i >= |a| { assert (a + b)[i] == b[i - |a|]; }
    }
  }

  lemma NoStateChangeInvocations(kind: HookKind, labels: seq<Label>, args: Args)
    requires kind != StateChangeHook
    ensures NoStateChange(Invocations(kind, labels, args))
  {
  }

  /** Exiting never runs a state-change hook, at any level. */
  lemma {:induction false} ExitMakesNoStateChange(cfg: Config, run: Run, ctx: Context)
    ensures NoStateChange(ExitEffects(cfg, run, ctx))
    decreases run
  {
    var sub := StopActive(cfg, run);
    if run.active.Some? && SubConfig(cfg, run.state).Some? {
      ExitMakesNoStateChange(SubConfig(cfg, run.state).value, run.active.value, EmptyContext);
    }
    var actions := if run.state in cfg.states then Invocations(ExitAction, cfg.states[run.state].exitActions, AtState(run.state, ctx)) else [];
    NoStateChangeInvocations(StateExitHook, cfg.stateExitHooks, AtState(run.state, ctx));
    if run.state in cfg.states {
      NoStateChangeInvocations(ExitAction, cfg.states[run.state].exitActions, AtState(run.state, ctx));
    }
    NoStateChangeConcat(sub, ClearTimeouts(run.timerIDs));
    NoStateChangeConcat(sub + ClearTimeouts(run.timerIDs), Invocations(StateExitHook, cfg.stateExitHooks, AtState(run.state, ctx)));
    NoStateChangeConcat(sub + ClearTimeouts(run.timerIDs) + Invocations(StateExitHook, cfg.stateExitHooks, AtState(run.state, ctx)), actions);
  }

  /**
   * Entering a state from no state or from itself runs no state-change hook,
   * at any level: a submachine always starts from no state.
   */
  lemma {:induction false} EnterSameMakesNoStateChange(cfg: Config, previous: Option<StateId>, state: StateId, ctx: Context, next: TimerId)
    requires previous.None? || previous == Some(state)
    ensures NoStateChange(EnterEffects(cfg, previous, state, ctx, next).trace)
    decreases cfg
  {
    var own := Invocations(StateEnterHook, cfg.stateEnterHooks, AtState(state, ctx))
      + (if state in cfg.states then Invocations(EntryAction, cfg.states[state].entryActions, AtState(state, ctx)) else [])
      + [];
    NoStateChangeInvocations(StateEnterHook, cfg.stateEnterHooks, AtState(state, ctx));
    if state in cfg.states {
      var sc := cfg.states[state];
      NoStateChangeInvocations(EntryAction, sc.entryActions, AtState(state, ctx));
      NoStateChangeConcat(Invocations(StateEnterHook, cfg.stateEnterHooks, AtState(state, ctx)), Invocations(EntryAction, sc.entryActions, AtState(state, ctx)));
      assert own == Invocations(StateEnterHook, cfg.stateEnterHooks, AtState(state, ctx)) + Invocations(EntryAction, sc.entryActions, AtState(state, ctx));
      NoStateChangeConcat(own, AsyncStarts(state, sc.asyncActions, ctx));
      NoStateChangeConcat(own + AsyncStarts(state, sc.asyncActions, ctx), SetTimeouts(sc.timers, next));
      if sc.submachine.Some? {
        var c := sc.submachine.value;
        var afterTimers := next + |sc.timers|;
        if c.initialState.Some? {
          assert SubmachineStart(c, afterTimers) == EnterEffects(c, None, c.initialState.value, EmptyContext, afterTimers);
          EnterSameMakesNoStateChange(c, None, c.initialState.value, EmptyContext, afterTimers);
        }
        NoStateChangeConcat(own + AsyncStarts(state, sc.asyncActions, ctx) + SetTimeouts(sc.timers, next), SubmachineStart(c, afterTimers).trace);
      }
    } else {
      assert own == Invocations(StateEnterHook, cfg.stateEnterHooks, AtState(state, ctx)) + [];
    }
  }

  /** Starting a machine never runs a state-change hook. */
  lemma StartMakesNoStateChange(cfg: Config, next: TimerId)
    requires cfg.initialState.Some?
    ensures NoStateChange(Start(cfg, None, next).trace)
  {
    EnterSameMakesNoStateChange(cfg, None, cfg.initialState.value, EmptyContext, next);
  }

  /** A self transition (target `null`) exits and re-enters the state but runs no state-change hook. */
  lemma SelfTransitionMakesNoStateChange(cfg: Config, run: Run, t: TransitionConfig, ctx: Context, next: TimerId)
    requires t.targetState.None?
    ensures NoStateChange(TransitionEffects(cfg, run, t, ctx, next).trace)
    ensures !t.isInternal ==> TransitionEffects(cfg, run, t, ctx, next).run.value.state == run.state
  {
    var hooks := Invocations(TransitionHook, cfg.transitionHooks, Between(run.state, run.state, ctx))
      + Invocations(TransitionAction, t.actions, Between(run.state, run.state, ctx));
    NoStateChangeInvocations(TransitionHook, cfg.transitionHooks, Between(run.state, run.state, ctx));
    NoStateChangeInvocations(TransitionAction, t.actions, Between(run.state, run.state, ctx));
    NoStateChangeConcat(Invocations(TransitionHook, cfg.transitionHooks, Between(run.state, run.state, ctx)),
      Invocations(TransitionAction, t.actions, Between(run.state, run.state, ctx)));
    if !t.isInternal {
      ExitMakesNoStateChange(cfg, run, ctx);
      EnterSameMakesNoStateChange(cfg, Some(run.state), run.state, ctx, next);
      NoStateChangeConcat(ExitEffects(cfg, run, ctx), hooks);
      NoStateChangeConcat(ExitEffects(cfg, run, ctx) + hooks, EnterEffects(cfg, Some(run.state), run.state, ctx, next).trace);
    }
  }

  /** A transition to a different state runs every state-change hook with the old and the new state. */
  lemma ChangeOfStateRunsChangeHooks(cfg: Config, run: Run, t: TransitionConfig, ctx: Context, next: TimerId)
    requires !t.isInternal && NextState(t, run.state) != run.state
    ensures forall h :: h in cfg.stateChangeHooks ==>
      Invoke(StateChangeHook, h, Between(run.state, NextState(t, run.state), ctx)) in TransitionEffects(cfg, run, t, ctx, next).trace
  {
    var target := NextState(t, run.state);
    var change := Invocations(StateChangeHook, cfg.stateChangeHooks, Between(run.state, target, ctx));
    var e := EnterEffects(cfg, Some(run.state), target, ctx, next);
    var own := Invocations(StateEnterHook, cfg.stateEnterHooks, AtState(target, ctx))
      + (if target in cfg.states then Invocations(EntryAction, cfg.states[target].entryActions, AtState(target, ctx)) else [])
      + change;
    assert own <= e.trace;
    forall h | h in cfg.stateChangeHooks
      ensures Invoke(StateChangeHook, h, Between(run.state, target, ctx)) in TransitionEffects(cfg, run, t, ctx, next).trace
    {
      var i :| 0 <= i < |cfg.stateChangeHooks| && cfg.stateChangeHooks[i] == h;
      assert change[i] == Invoke(StateChangeHook, h, Between(run.state, target, ctx));
      assert own[|own| - |change| + i] == change[i];
      assert e.trace[|own| - |change| + i] == change[i];
      assert Invoke(StateChangeHook, h, Between(run.state, target, ctx)) in e.trace;
    }
  }

  lemma InLeftOf<T>(x: T, a: seq<T>, b: seq<T>)
    requires x in a
    ensures x in a + b
  {
    var k :| 0 <= k < |a| && a[k] == x;
    assert (a + b)[k] == x;
  }

  lemma InRightOf<T>(x: T, a: seq<T>, b: seq<T>)
    requires x in b
    ensures x in a + b
  {
    var k :| 0 <= k < |b| && b[k] == x;
    assert (a + b)[|a| + k] == x;
  }

  /** The handles a `Some` list of timer handles holds. */
  function HandleSet(ids: Option<seq<TimerId>>): set<TimerId> {
    if ids.Some? then set i | 0 <= i < |ids.value| :: ids.value[i] else {}
  }

  lemma ClearsEveryHandle(ids: Option<seq<TimerId>>)
    ensures forall id :: id in HandleSet(ids) ==> ClearTimeout(id) in ClearTimeouts(ids)
  {
    forall id | id in HandleSet(ids)
      ensures ClearTimeout(id) in ClearTimeouts(ids)
    {
      var i :| 0 <= i < |ids.value| && ids.value[i] == id;
      assert ClearTimeouts(ids)[i] == ClearTimeout(id);
    }
  }

  /** Exiting a level clears every timer of that level and of every started level below it. */
  lemma {:induction false} ExitClearsEveryTimer(cfg: Config, run: Run, ctx: Context)
    requires Fits(cfg, run)
    ensures forall id :: id in AllTimers(run) ==> ClearTimeout(id) in ExitEffects(cfg, run, ctx)
    decreases run
  {
    var sub := StopActive(cfg, run);
    var clears := ClearTimeouts(run.timerIDs);
    var rest := Invocations(StateExitHook, cfg.stateExitHooks, AtState(run.state, ctx))
      + (if run.state in cfg.states then Invocations(ExitAction, cfg.states[run.state].exitActions, AtState(run.state, ctx)) else []);
    assert ExitEffects(cfg, run, ctx) == (sub + clears) + rest;
    assert AllTimers(run) == HandleSet(run.timerIDs) + (if run.active.Some? then AllTimers(run.active.value) else {});
    ClearsEveryHandle(run.timerIDs);
    if run.active.Some? {
      ExitClearsEveryTimer(SubConfig(cfg, run.state).value, run.active.value, EmptyContext);
    }
    forall id | id in AllTimers(run)
      ensures ClearTimeout(id) in (sub + clears) + rest
    {
      if id in HandleSet(run.timerIDs) {
        InRightOf(ClearTimeout(id), sub, clears);
      } else {
        InLeftOf(ClearTimeout(id), sub, clears);
      }
      InLeftOf(ClearTimeout(id), sub + clears, rest);
    }
  }

  /**
   * Entering allocates timer handles from `next` upward: every handle the
   * entered levels hold lies in `[next, e.next)`.
   */
  lemma {:induction false} EnterAllocatesFreshTimers(cfg: Config, previous: Option<StateId>, state: StateId, ctx: Context, next: TimerId)
    ensures var e := EnterEffects(cfg, previous, state, ctx, next);
      next <= e.next && forall id :: id in AllTimers(e.run.value) ==> next <= id < e.next
    decreases cfg
  {
    var e := EnterEffects(cfg, previous, state, ctx, next);
    if state in cfg.states {
      var sc := cfg.states[state];
      var timerIDs := if |sc.timers| > 0 then Some(TimerIds(|sc.timers|, next)) else None;
      var afterTimers := next + |sc.timers|;
      assert forall id :: id in HandleSet(timerIDs) ==> next <= id < afterTimers;
      if sc.submachine.Some? {
        var c := sc.submachine.value;
        var sub := SubmachineStart(c, afterTimers);
        assert e.run.value == Run(state, timerIDs, sub.run) && e.next == sub.next;
        if c.initialState.Some? {
          assert sub == Start(c, None, afterTimers);
          assert sub == EnterEffects(c, None, c.initialState.value, EmptyContext, afterTimers);
          EnterAllocatesFreshTimers(c, None, c.initialState.value, EmptyContext, afterTimers);
        }
        assert AllTimers(e.run.value) == HandleSet(timerIDs) + (if sub.run.Some? then AllTimers(sub.run.value) else {});
      } else {
        assert AllTimers(e.run.value) == HandleSet(timerIDs);
      }
    }
  }

  /** The entered levels have the configurations their runs need. */
  lemma {:induction false} EnterFits(cfg: Config, previous: Option<StateId>, state: StateId, ctx: Context, next: TimerId)
    ensures Fits(cfg, EnterEffects(cfg, previous, state, ctx, next).run.value)
    decreases cfg
  {
    if state in cfg.states {
      var sc := cfg.states[state];
      if sc.submachine.Some? && sc.submachine.value.initialState.Some? {
        var c := sc.submachine.value;
        var afterTimers := next + |sc.timers|;
        assert SubmachineStart(c, afterTimers) == EnterEffects(c, None, c.initialState.value, EmptyContext, afterTimers);
        EnterFits(c, None, c.initialState.value, EmptyContext, afterTimers);
      }
    }
  }

  /** Every call a predicate over lists of calls speaks of is made with one of two contexts. */
  predicate ContextsAmong(t: seq<Entry>, a: Context, b: Context) {
    forall i :: 0 <= i < |t| ==> t[i].Invoke? ==> t[i].args.context == a || t[i].args.context == b
  }

  lemma ContextsConcat(s: seq<Entry>, t: seq<Entry>, a: Context, b: Context)
    requires ContextsAmong(s, a, b) && ContextsAmong(t, a, b)
    ensures ContextsAmong(s + t, a, b)
  {
    forall i | 0 <= i < |s + t| && (s + t)[i].Invoke?
      ensures (s + t)[i].args.context == a || (s + t)[i].args.context == b
    {
      if i >= |s| { assert (s + t)[i] == t[i - |s|]; }
    }
  }

  /** The calls of the submachine started when `state` is entered (`startSubmachines`), if it has one. */
  function SubmachineEntryTrace(cfg: Config, state: StateId, next: TimerId): seq<Entry> {
    if state in cfg.states && cfg.states[state].submachine.Some? then
      SubmachineStart(cfg.states[state].submachine.value, next + |cfg.states[state].timers|).trace
    else []
  }

  /** The calls entering `state` makes itself: hooks, entry actions, change hooks, asynchronous actions and timers. */
  function EntryOwnTrace(cfg: Config, previous: Option<StateId>, state: StateId, ctx: Context, next: TimerId): seq<Entry> {
    EnterHookCalls(cfg, previous, state, ctx)
      + (if state in cfg.states then AsyncStarts(state, cfg.states[state].asyncActions, ctx) + SetTimeouts(cfg.states[state].timers, next) else [])
  }

  /** Entering is its own calls, all with the entering context, followed by the submachine's. */
  lemma EnterTraceSplits(cfg: Config, previous: Option<StateId>, state: StateId, ctx: Context, next: TimerId)
    ensures EnterEffects(cfg, previous, state, ctx, next).trace ==
      EntryOwnTrace(cfg, previous, state, ctx, next) + SubmachineEntryTrace(cfg, state, next)
    ensures ContextsAmong(EntryOwnTrace(cfg, previous, state, ctx, next), ctx, ctx)
  {
    var own := EnterHookCalls(cfg, previous, state, ctx);
    assert ContextsAmong(own, ctx, ctx);
    if state in cfg.states {
      var sc := cfg.states[state];
      var a := AsyncStarts(state, sc.asyncActions, ctx);
      var t := SetTimeouts(sc.timers, next);
      assert own + a + t == own + (a + t);
      assert ContextsAmong(a + t, ctx, ctx);
      ContextsConcat(own, a + t, ctx, ctx);
    }
  }

  /**
   * A submachine is started with a context of its own: entering a state makes
   * its own calls with the entering context, and they are followed by the
   * calls of the submachine it starts, which all carry the empty context
   * (the submachine's `start()` creates it, and so do its own submachines).
   */
  lemma {:induction false} SubmachinesGetEmptyContexts(cfg: Config, previous: Option<StateId>, state: StateId, ctx: Context, next: TimerId)
    ensures var t := EnterEffects(cfg, previous, state, ctx, next).trace;
      var sub := SubmachineEntryTrace(cfg, state, next);
      |sub| <= |t| && t[|t| - |sub|..] == sub &&
      ContextsAmong(t[..|t| - |sub|], ctx, ctx) && ContextsAmong(sub, EmptyContext, EmptyContext)
    decreases cfg
  {
    var t := EnterEffects(cfg, previous, state, ctx, next).trace;
    var own := EntryOwnTrace(cfg, previous, state, ctx, next);
    var sub := SubmachineEntryTrace(cfg, state, next);
    EnterTraceSplits(cfg, previous, state, ctx, next);
    assert t[..|t| - |sub|] == own && t[|t| - |sub|..] == sub;
    if state in cfg.states && cfg.states[state].submachine.Some? && cfg.states[state].submachine.value.initialState.Some? {
      var c := cfg.states[state].submachine.value;
      var n := next + |cfg.states[state].timers|;
      assert SubmachineStart(c, n) == Start(c, None, n);
      assert sub == EnterEffects(c, None, c.initialState.value, EmptyContext, n).trace;
      EnterTraceSplits(c, None, c.initialState.value, EmptyContext, n);
      SubmachinesGetEmptyContexts(c, None, c.initialState.value, EmptyContext, n);
      ContextsConcat(EntryOwnTrace(c, None, c.initialState.value, EmptyContext, n),
        SubmachineEntryTrace(c, c.initialState.value, n), EmptyContext, EmptyContext);
    }
  }
}
