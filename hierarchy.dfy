/**
 * Model of src/core/HierarchicalStateMachine.js: a facade over the chain of
 * state machines that runs from the root through each level's current
 * submachine. The levels belong to another generation of the engine than
 * the one in engine.dfy; the facade only needs three things of each: its
 * current state, its submachine and its answer to `canHandle`. So a level is
 * modelled as an abstract record, addressed by an identity.
 */
module Hierarchy {
  import opened Wrappers
  import opened Values
  import opened EngineConfig

  type LevelId = nat

  /** What the facade sees of one `StateMachine` level. */
  datatype Level = Level(
    currentState: Option<StateId>,
    submachine: Option<LevelId>,
    canHandle: (Option<EventId>, Option<Value>) -> bool)

  /** Every level object, by identity. */
  type Levels = map<LevelId, Level>

  /** `new HierarchicalStateMachine(rootStateMachine, currentStateMachine, taskScheduler)`; the scheduler becomes direct calls. */
  datatype Facade = Facade(root: LevelId, current: LevelId)

  /** The foreign call that `handle` ends with. */
  datatype Call = HandleAt(level: LevelId) | UnhandledAt(level: LevelId)

  // ---------------------------------------------------------------- the chain

  /** The chain that starts at `id`, following `getSubmachine()` at most `fuel` times. */
  function Chain(levels: Levels, id: LevelId, fuel: nat): Option<seq<LevelId>>
    decreases fuel
  {
    if id !in levels then None
    else match levels[id].submachine
      case None => Some([id])
      case Some(s) =>
        if fuel == 0 then None
        else match Chain(levels, s, fuel - 1)
          case None => None
          case Some(c) => Some([id] + c)
  }

  /** `c` starts at `root`, each level's submachine is the next level, and the last level has none. */
  predicate IsChain(levels: Levels, c: seq<LevelId>, root: LevelId) {
    |c| > 0 && c[0] == root &&
    (forall i :: 0 <= i < |c| ==> c[i] in levels) &&
    (forall i :: 0 <= i < |c| - 1 ==> levels[c[i]].submachine == Some(c[i + 1])) &&
    levels[c[|c| - 1]].submachine.None?
  }

  lemma {:induction false} ChainIsChain(levels: Levels, id: LevelId, fuel: nat)
    requires Chain(levels, id, fuel).Some?
    ensures IsChain(levels, Chain(levels, id, fuel).value, id)
    decreases fuel
  {
    if levels[id].submachine.Some? {
      ChainIsChain(levels, levels[id].submachine.value, fuel - 1);
    }
  }

  /** Two chains from one root agree at every index both reach, and they end at the same index. */
  lemma {:induction false} ChainsAgree(levels: Levels, c: seq<LevelId>, d: seq<LevelId>, root: LevelId, i: nat)
    requires IsChain(levels, c, root) && IsChain(levels, d, root)
    requires i < |c| && i < |d|
    ensures c[i] == d[i]
    ensures i == |c| - 1 <==> i == |d| - 1
  {
    if i > 0 {
      ChainsAgree(levels, c, d, root, i - 1);
      assert levels[c[i - 1]].submachine == Some(c[i]) && levels[d[i - 1]].submachine == Some(d[i]);
    }
    assert i < |c| - 1 ==> levels[c[i]].submachine == Some(c[i + 1]);
    assert i < |d| - 1 ==> levels[d[i]].submachine == Some(d[i + 1]);
  }

  /** Following the submachines from one root gives one chain only. */
  lemma IsChainUnique(levels: Levels, c: seq<LevelId>, d: seq<LevelId>, root: LevelId)
    requires IsChain(levels, c, root) && IsChain(levels, d, root)
    ensures c == d
  {
    var n := if |c| < |d| then |c| else |d|;
    ChainsAgree(levels, c, d, root, n - 1);
    assert |c| == |d|;
    forall i | 0 <= i < |c|
      ensures c[i] == d[i]
    {
      ChainsAgree(levels, c, d, root, i);
    }
  }

  /** The walk from `root` ends: on a cycle of submachines `getStateMachines` would never return. */
  ghost predicate Finite(levels: Levels, root: LevelId) {
    exists fuel: nat :: Chain(levels, root, fuel).Some?
  }

  /** The chain from `root`. */
  ghost function TheChain(levels: Levels, root: LevelId): (c: seq<LevelId>)
    requires Finite(levels, root)
    ensures IsChain(levels, c, root)
  {
    var fuel: nat :| Chain(levels, root, fuel).Some?;
    ChainIsChain(levels, root, fuel);
    Chain(levels, root, fuel).value
  }

  // ---------------------------------------------------------------- the facade

  /** `getStateMachines`: the root, then each submachine in turn, until a level has none. */
  method GetStateMachines(levels: Levels, f: Facade) returns (stateMachines: seq<LevelId>)
    requires Finite(levels, f.root)
    ensures stateMachines == TheChain(levels, f.root)
  {
    ghost var fuel0: nat :| Chain(levels, f.root, fuel0).Some?;
    ghost var whole := Chain(levels, f.root, fuel0).value;
    ghost var fuel := fuel0;
    stateMachines := [];
    var stateMachine := f.root;
    while true
      invariant Chain(levels, stateMachine, fuel).Some?
      invariant stateMachines + Chain(levels, stateMachine, fuel).value == whole
      decreases fuel
    {
      stateMachines := stateMachines + [stateMachine];
      var next := levels[stateMachine].submachine;
      if next.None? {
        break;
      }
      stateMachine := next.value;
      fuel := fuel - 1;
    }
    ChainIsChain(levels, f.root, fuel0);
    IsChainUnique(levels, whole, TheChain(levels, f.root), f.root);
  }

  /** `getStateHierarchy`: the current state of each level of the chain, outermost first. */
  method GetStateHierarchy(levels: Levels, f: Facade) returns (hierarchy: seq<Option<StateId>>)
    requires Finite(levels, f.root)
    ensures var c := TheChain(levels, f.root);
      |hierarchy| == |c| && forall i :: 0 <= i < |c| ==> hierarchy[i] == levels[c[i]].currentState
  {
    var stateMachines := GetStateMachines(levels, f);
    hierarchy := seq(|stateMachines|, i requires 0 <= i < |stateMachines| => levels[stateMachines[i]].currentState);
  }

  /** `getCurrentState`: the state of the facade's own level. */
  function GetCurrentState(levels: Levels, f: Facade): Option<StateId>
    requires f.current in levels
  {
    levels[f.current].currentState
  }

  /** `getSubmachine`: a facade over the current level's submachine, with the same root; none when there is no submachine. */
  function GetSubmachine(levels: Levels, f: Facade): (r: Option<Facade>)
    requires f.current in levels
    ensures r.None? <==> levels[f.current].submachine.None?
    ensures r.Some? ==> r.value.root == f.root && Some(r.value.current) == levels[f.current].submachine
  {
    match levels[f.current].submachine
    case None => None
    case Some(s) => Some(Facade(f.root, s))
  }

  /** The index of the innermost level of `c` that can handle the event. */
  function Innermost(levels: Levels, c: seq<LevelId>, event: Option<EventId>, eventPayload: Option<Value>): (r: Option<nat>)
    requires forall i :: 0 <= i < |c| ==> c[i] in levels
    ensures r.Some? ==>
      r.value < |c| && levels[c[r.value]].canHandle(event, eventPayload) &&
      forall j :: r.value < j < |c| ==> !levels[c[j]].canHandle(event, eventPayload)
    ensures r.None? <==> forall j :: 0 <= j < |c| ==> !levels[c[j]].canHandle(event, eventPayload)
    decreases |c|
  {
    if |c| == 0 then None
    else if levels[c[|c| - 1]].canHandle(event, eventPayload) then Some(|c| - 1)
    else Innermost(levels, c[..|c| - 1], event, eventPayload)
  }

  /** `canHandle`: asks the levels innermost first and stops at the first that can. */
  method CanHandle(levels: Levels, f: Facade, event: Option<EventId>, eventPayload: Option<Value>) returns (r: bool)
    requires Finite(levels, f.root)
    ensures r == Innermost(levels, TheChain(levels, f.root), event, eventPayload).Some?
    ensures r <==> exists i :: 0 <= i < |TheChain(levels, f.root)| && levels[TheChain(levels, f.root)[i]].canHandle(event, eventPayload)
  {
    var stateMachines := GetStateMachines(levels, f);
    var i := |stateMachines| - 1;
    while i >= 0
      invariant -1 <= i < |stateMachines|
      invariant forall j :: i < j < |stateMachines| ==> !levels[stateMachines[j]].canHandle(event, eventPayload)
    {
      if levels[stateMachines[i]].canHandle(event, eventPayload) {
        return true;
      }
      i := i - 1;
    }
    return false;
  }

  /**
   * `handle`: the innermost level that can handle the event handles it, and
   * no outer level is asked; when no level can, the facade's own level
   * reports the event as unhandled.
   */
  method Handle(levels: Levels, f: Facade, event: Option<EventId>, eventPayload: Option<Value>) returns (call: Call)
    requires Finite(levels, f.root)
    ensures var c := TheChain(levels, f.root);
      match Innermost(levels, c, event, eventPayload)
      case Some(i) => call == HandleAt(c[i])
      case None => call == UnhandledAt(f.current)
  {
    var stateMachines := GetStateMachines(levels, f);
    var i := |stateMachines| - 1;
    while i >= 0
      invariant -1 <= i < |stateMachines|
      invariant forall j :: i < j < |stateMachines| ==> !levels[stateMachines[j]].canHandle(event, eventPayload)
    {
      if levels[stateMachines[i]].canHandle(event, eventPayload) {
        return HandleAt(stateMachines[i]);
      }
      i := i - 1;
    }
    return UnhandledAt(f.current);
  }

  // ---------------------------------------------------------------- properties

  /** The facade reached by `k` calls of `getSubmachine`. */
  function Descend(levels: Levels, f: Facade, k: nat): Option<Facade>
    decreases k
  {
    if k == 0 then Some(f)
    else match Descend(levels, f, k - 1)
      case None => None
      case Some(g) => if g.current in levels then GetSubmachine(levels, g) else None
  }

  /**
   * Starting from the root's facade, `k` calls of `getSubmachine` reach the
   * facade of the `k`-th level of the chain, whose current state is the
   * `k`-th entry of the hierarchy; one call past the last level gives none.
   */
  lemma {:induction false} DescendFollowsChain(levels: Levels, root: LevelId, k: nat)
    requires Finite(levels, root)
    requires k <= |TheChain(levels, root)|
    ensures var c := TheChain(levels, root);
      if k < |c| then Descend(levels, Facade(root, root), k) == Some(Facade(root, c[k])) &&
        GetCurrentState(levels, Descend(levels, Facade(root, root), k).value) == levels[c[k]].currentState
      else Descend(levels, Facade(root, root), k) == None
  {
    var c := TheChain(levels, root);
    if k > 0 {
      DescendFollowsChain(levels, root, k - 1);
      assert Descend(levels, Facade(root, root), k - 1) == Some(Facade(root, c[k - 1]));
      if k < |c| {
        assert levels[c[k - 1]].submachine == Some(c[k]);
      }
    }
  }

  /**
   * A nested facade walks the same chain as the root's: a level above the
   * facade's own that can handle the event still makes `canHandle` true,
   * and `handle` goes to it when no deeper level can.
   */
  lemma NestedFacadeConsultsAncestors(levels: Levels, f: Facade, i: nat, event: Option<EventId>, eventPayload: Option<Value>)
    requires Finite(levels, f.root)
    requires i < |TheChain(levels, f.root)| && levels[TheChain(levels, f.root)[i]].canHandle(event, eventPayload)
    ensures var r := Innermost(levels, TheChain(levels, f.root), event, eventPayload);
      r.Some? && i <= r.value
  {
  }
}
