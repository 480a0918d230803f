/**
 * Model of src/core/Dispatcher.js: a synchronous run-to-completion event
 * queue. The handler is foreign code; it is modelled as a step that, for each
 * event, dispatches further events (re-entrantly) and may then throw.
 */
module Dispatching {
  import opened Wrappers
  import opened Values

  const BusyMessage := "Operation cannot be executed because another operation is in progress."

  /** One entry of `eventQueue`: `{ event, eventPayload }`. */
  datatype Queued = Queued(event: Value, eventPayload: Value)

  /** What a foreign call does: the events it dispatches, in order, then possibly a throw. */
  datatype Step = Step(raised: seq<Queued>, error: Option<string>)

  /** The operation handed to `execute`: a call of the handler, or any other operation. */
  datatype Operation = HandlerCall(q: Queued) | Other(effect: Step)

  /** The handler calls made while draining, and how `execute` ends. */
  datatype Drain = Drain(handled: seq<Queued>, outcome: Outcome, finished: bool)

  /**
   * Draining `q` with at most `fuel` handler calls: the head is handled, the
   * events it raises go to the back, and a throw stops the drain.
   */
  function RunQueue(handler: Queued -> Step, q: seq<Queued>, fuel: nat): (d: Drain)
    ensures d.finished && q != [] ==> fuel > 0
    decreases fuel
  {
    if q == [] then Drain([], Returned, true)
    else if fuel == 0 then Drain([], Returned, false)
    else
      var s := handler(q[0]);
      if s.error.Some? then Drain([q[0]], Threw(s.error.value), true)
      else
        var rest := RunQueue(handler, q[1..] + s.raised, fuel - 1);
        Drain([q[0]] + rest.handled, rest.outcome, rest.finished)
  }

  /** The events with which `op` leaves the queue, or the error it throws. */
  function Effect(handler: Queued -> Step, op: Operation): Step {
    match op
    case HandlerCall(q) => handler(q)
    case Other(s) => s
  }

  /** The operation's own handler call, if it is one. */
  function OwnCall(op: Operation): seq<Queued> {
    if op.HandlerCall? then [op.q] else []
  }

  /** The cascade started by `op` ends: JavaScript's drain loop would otherwise never return. */
  ghost predicate Terminates(handler: Queued -> Step, op: Operation) {
    var s := Effect(handler, op);
    s.error.Some? || exists fuel: nat :: RunQueue(handler, s.raised, fuel).finished
  }

  /** Some amount of fuel with which draining `q` finishes. */
  ghost function FuelFor(handler: Queued -> Step, q: seq<Queued>): (fuel: nat)
    requires exists fuel: nat :: RunQueue(handler, q, fuel).finished
    ensures RunQueue(handler, q, fuel).finished
  {
    var fuel: nat :| RunQueue(handler, q, fuel).finished; fuel
  }

  /** The whole run of `op`: every handler call, in order, and the outcome. */
  ghost function Run(handler: Queued -> Step, op: Operation): (d: Drain)
    requires Terminates(handler, op)
  {
    var s := Effect(handler, op);
    if s.error.Some? then Drain(OwnCall(op), Threw(s.error.value), true)
    else
      var d := RunQueue(handler, s.raised, FuelFor(handler, s.raised));
      Drain(OwnCall(op) + d.handled, d.outcome, true)
  }

  /** `Run` agrees with a drain on any fuel that finishes. */
  lemma RunIsAnyFinishingDrain(handler: Queued -> Step, op: Operation, fuel: nat)
    requires Effect(handler, op).error.None?
    requires RunQueue(handler, Effect(handler, op).raised, fuel).finished
    ensures Terminates(handler, op)
    ensures Run(handler, op).handled == OwnCall(op) + RunQueue(handler, Effect(handler, op).raised, fuel).handled
    ensures Run(handler, op).outcome == RunQueue(handler, Effect(handler, op).raised, fuel).outcome
  {
    var q := Effect(handler, op).raised;
    RunQueueFuelIrrelevant(handler, q, fuel, FuelFor(handler, q));
  }

  /** Once a drain finishes, more fuel gives the same drain. */
  lemma {:induction false} RunQueueMoreFuel(handler: Queued -> Step, q: seq<Queued>, n: nat, m: nat)
    requires RunQueue(handler, q, n).finished && n <= m
    ensures RunQueue(handler, q, m) == RunQueue(handler, q, n)
    decreases n
  {
    if q != [] {
      var s := handler(q[0]);
      if s.error.None? {
        RunQueueMoreFuel(handler, q[1..] + s.raised, n - 1, m - 1);
      }
    }
  }

  /** Two finishing amounts of fuel give the same drain. */
  lemma RunQueueFuelIrrelevant(handler: Queued -> Step, q: seq<Queued>, n: nat, m: nat)
    requires RunQueue(handler, q, n).finished && RunQueue(handler, q, m).finished
    ensures RunQueue(handler, q, m) == RunQueue(handler, q, n)
  {
    if n <= m { RunQueueMoreFuel(handler, q, n, m); } else { RunQueueMoreFuel(handler, q, m, n); }
  }

  /**
   * FIFO: when a drain returns normally, the events already queued are the first
   * ones handled, in queue order; whatever they raise is handled after them.
   */
  lemma {:induction false} QueuedEventsHandledFirst(handler: Queued -> Step, q: seq<Queued>, fuel: nat)
    requires RunQueue(handler, q, fuel).finished && RunQueue(handler, q, fuel).outcome == Returned
    ensures |q| <= |RunQueue(handler, q, fuel).handled|
    ensures RunQueue(handler, q, fuel).handled[..|q|] == q
    decreases fuel
  {
    if q != [] {
      var s := handler(q[0]);
      var q' := q[1..] + s.raised;
      QueuedEventsHandledFirst(handler, q', fuel - 1);
      var rest := RunQueue(handler, q', fuel - 1).handled;
      assert rest[..|q'|] == q';
      assert rest[..|q| - 1] == q'[..|q| - 1] == q[1..];
    }
  }

  /** A throwing handler call is the last one: the events still queued are never handled. */
  lemma {:induction false} ThrowEndsDrain(handler: Queued -> Step, q: seq<Queued>, fuel: nat)
    requires q != [] && fuel > 0 && handler(q[0]).error.Some?
    ensures RunQueue(handler, q, fuel) == Drain([q[0]], Threw(handler(q[0]).error.value), true)
  {
  }

  class Dispatcher {
    /** The foreign handler, as the step it takes for each event. */
    const handler: Queued -> Step
    var isBusy: bool
    var eventQueue: seq<Queued>
    /** Every call of `handler` so far, in order. */
    var calls: seq<Queued>

    /** Outside an operation the queue is empty. */
    ghost predicate Valid()
      reads this
    {
      !isBusy ==> eventQueue == []
    }

    constructor (handler: Queued -> Step)
      ensures Valid() && this.handler == handler
      ensures !isBusy && eventQueue == [] && calls == []
    {
      this.handler := handler;
      isBusy := false;
      eventQueue := [];
      calls := [];
    }

    /**
     * While idle, runs the handler for the event at once inside `execute`;
     * while busy, only appends the event to the queue and calls nothing.
     */
    method Dispatch(event: Value, eventPayload: Value) returns (r: Outcome)
      requires Valid()
      requires !isBusy ==> Terminates(handler, HandlerCall(Queued(event, eventPayload)))
      modifies this
      ensures Valid()
      ensures old(isBusy) ==>
        isBusy && r == Returned && calls == old(calls) && eventQueue == old(eventQueue) + [Queued(event, eventPayload)]
      ensures !old(isBusy) ==>
        !isBusy && eventQueue == [] &&
        calls == old(calls) + Run(handler, HandlerCall(Queued(event, eventPayload))).handled &&
        r == Run(handler, HandlerCall(Queued(event, eventPayload))).outcome
      decreases if isBusy then 0 else 4, 0
    {
      if !isBusy {
        r := Execute(HandlerCall(Queued(event, eventPayload)));
      } else {
        eventQueue := eventQueue + [Queued(event, eventPayload)];
        r := Returned;
      }
    }

    /** The events a foreign call dispatches while the dispatcher is busy. */
    method DispatchAll(events: seq<Queued>)
      requires Valid() && isBusy
      modifies this
      ensures Valid() && isBusy && calls == old(calls)
      ensures eventQueue == old(eventQueue) + events
      decreases 1, |events|
    {
      var i := 0;
      while i < |events|
        invariant 0 <= i <= |events|
        invariant isBusy && calls == old(calls)
        invariant eventQueue == old(eventQueue) + events[..i]
      {
        var _ := Dispatch(events[i].event, events[i].eventPayload);
        i := i + 1;
      }
    }

    /** The drain loop of `execute`: handles queued events in FIFO order until the queue is empty or a handler throws. */
    method DrainQueue(ghost fuel: nat) returns (r: Outcome)
      requires Valid() && isBusy && RunQueue(handler, eventQueue, fuel).finished
      modifies this
      ensures Valid() && isBusy
      ensures calls == old(calls) + RunQueue(handler, old(eventQueue), fuel).handled
      ensures r == RunQueue(handler, old(eventQueue), fuel).outcome
      decreases 2, 0
    {
      ghost var total := RunQueue(handler, eventQueue, fuel);
      ghost var f := fuel;
      r := Returned;
      while |eventQueue| > 0
        invariant isBusy
        invariant RunQueue(handler, eventQueue, f).finished
        invariant calls + RunQueue(handler, eventQueue, f).handled == old(calls) + total.handled
        invariant RunQueue(handler, eventQueue, f).outcome == total.outcome
        decreases f
      {
        var next := eventQueue[0];
        eventQueue := eventQueue[1..];
        var t := handler(next);
        calls := calls + [next];
        DispatchAll(t.raised);
        if t.error.Some? {
          r := Threw(t.error.value);
          break;
        }
        f := f - 1;
      }
    }

    /** The `try` block of `execute`: the operation itself, then the drain of everything it queued. */
    method Perform(op: Operation) returns (r: Outcome)
      requires isBusy && eventQueue == [] && Terminates(handler, op)
      modifies this
      ensures Valid() && isBusy
      ensures calls == old(calls) + Run(handler, op).handled && r == Run(handler, op).outcome
      decreases 2, 1
    {
      var s := Effect(handler, op);
      calls := calls + OwnCall(op);
      DispatchAll(s.raised);
      assert eventQueue == s.raised;
      ghost var calls1 := calls;
      if s.error.Some? {
        r := Threw(s.error.value);
      } else {
        ghost var fuel := FuelFor(handler, s.raised);
        ghost var d := RunQueue(handler, s.raised, fuel);
        assert Run(handler, op) == Drain(OwnCall(op) + d.handled, d.outcome, true);
        r := DrainQueue(fuel);
        assert calls == calls1 + d.handled;
      }
    }

    /**
     * Refuses to start while busy, changing nothing. Otherwise marks the
     * dispatcher busy, runs the operation, then handles queued events in FIFO
     * order (including events queued while draining) until the queue is empty
     * or a handler throws; in every case it ends idle with an empty queue.
     */
    method Execute(op: Operation) returns (r: Outcome)
      requires Valid()
      requires !isBusy ==> Terminates(handler, op)
      modifies this
      ensures Valid()
      ensures old(isBusy) ==>
        r == Threw(BusyMessage) && isBusy && eventQueue == old(eventQueue) && calls == old(calls)
      ensures !old(isBusy) ==>
        !isBusy && eventQueue == [] && calls == old(calls) + Run(handler, op).handled && r == Run(handler, op).outcome
      decreases 3, 0
    {
      if isBusy {
        return Threw(BusyMessage);
      }
      isBusy := true;
      r := Perform(op);
      // clean up
      if |eventQueue| > 0 {
        eventQueue := [];
      }
      isBusy := false;
    }
  }
}
