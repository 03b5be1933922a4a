/**
 What becomes of a key that is left alone. From any reachable world, once nobody changes the key's objects and
 no API call for it faults, a fixed number of the operator's steps leaves nothing to write. From then on the
 objects stay as they are; the key goes idle if it was deleted or the conclusion is success, and is retried for
 ever if not.
 */
module Settling {
  import opened Wrappers
  import opened Objects
  import opened Children
  import opened Conditions
  import opened Operator
  import opened StepFacts
  import opened Convergence
  import opened WriteBound

  /** Nothing is out of date, and what is in flight agrees with the store. */
  predicate Resting(cfg: Config, key: Key, c: Cell) { Potential(cfg, key, c) == 0 }

  /** The operator's steps until the key rests: the rest of what is in flight, and a whole reconciliation if that is out of step. */
  function Owed(cfg: Config, key: Key, c: Cell): nat {
    if Resting(cfg, key, c) then 0
    else if !InSync(cfg, key, c) then StepsLeft(c.local) + 7
    else if c.local.None? then 7
    else StepsLeft(c.local)
  }

  lemma OwedBound(cfg: Config, key: Key, c: Cell)
    ensures Owed(cfg, key, c) <= 12
  {
    StepsLeftBound(c.local);
    if !InSync(cfg, key, c) { OutOfStepInFlight(cfg, key, c); }
  }

  lemma StepsLeftBound(l: Option<Local>)
    ensures StepsLeft(l) <= 6 && (l.Some? && !l.value.Popped? ==> StepsLeft(l) <= 5)
  {
  }

  lemma OwedQueue(cfg: Config, key: Key, c: Cell, notified: bool)
    ensures Owed(cfg, key, Enqueue(c, notified)) == Owed(cfg, key, c)
  {
    QueueIrrelevant(cfg, key, c, notified);
  }

  /** A key that is idle, unqueued and reachable is at rest. */
  lemma IdleRests(cfg: Config, key: Key, c: Cell)
    requires QuietInv(cfg, key, c) && c.local.None? && !c.queued
    ensures Resting(cfg, key, c)
  {
    if c.ms.Some? { ConvergedIffRested(cfg, key, c); }
  }

  lemma OwedInFlight(cfg: Config, key: Key, c: Cell, stamp: nat, now: int)
    requires c.local.Some? && !Resting(cfg, key, c)
    ensures Owed(cfg, key, OperatorStep(cfg, key, c, stamp, None, now).cell) < Owed(cfg, key, c)
  {
    StepsRunDown(cfg, key, c, stamp, None, now);
    if InSync(cfg, key, c) { OperatorRetires(cfg, key, c, stamp, now); }
  }

  lemma OwedIdle(cfg: Config, key: Key, c: Cell, stamp: nat, now: int)
    requires QuietInv(cfg, key, c) && c.local.None? && !Resting(cfg, key, c)
    ensures Owed(cfg, key, OperatorStep(cfg, key, c, stamp, None, now).cell) < Owed(cfg, key, c)
  {
    if !c.queued { IdleRests(cfg, key, c); }
  }

  /** The operator's own steps in a run. */
  function Operates(es: seq<Event>, key: Key): nat {
    if es == [] then 0 else Operates(es[..|es| - 1], key) + Bit(Own(es[|es| - 1], key))
  }

  predicate Own(e: Event, key: Key) { e.Operate? && e.key == key }

  /** An undisturbing event that is not the key's own step can only enqueue. */
  lemma OthersEnqueue(cfg: Config, w: World, e: Event, key: Key)
    requires !Disturbs(e, key) && !Own(e, key)
    ensures At(Step(cfg, w, e), key) == At(w, key).(queued := At(Step(cfg, w, e), key).queued)
    ensures At(w, key).queued ==> At(Step(cfg, w, e), key).queued
  {
    StepAt(cfg, w, e, key);
  }

  lemma OwnNext(cfg: Config, w: World, e: Event, key: Key)
    requires Own(e, key)
    ensures At(Step(cfg, w, e), key) == NextCell(cfg, e, At(w, key), w.clock)
  {
    StepAt(cfg, w, e, key);
  }

  lemma OwedRequeued(cfg: Config, key: Key, c: Cell, next: Cell)
    requires next == c.(queued := next.queued) && (c.queued ==> next.queued)
    ensures Owed(cfg, key, next) == Owed(cfg, key, c)
  {
    assert next == Enqueue(c, next.queued);
    OwedQueue(cfg, key, c, next.queued);
  }

  lemma OwnOwed(cfg: Config, e: Event, c: Cell, clock: nat, next: Cell)
    requires e.Operate? && e.fault.None? && QuietInv(cfg, e.key, c) && !Resting(cfg, e.key, c)
    requires next == NextCell(cfg, e, c, clock)
    ensures Owed(cfg, e.key, next) < Owed(cfg, e.key, c)
  {
    var r := OperatorStep(cfg, e.key, c, clock, None, e.now);
    if c.local.Some? {
      OwedInFlight(cfg, e.key, c, clock, e.now);
    } else {
      OwedIdle(cfg, e.key, c, clock, e.now);
    }
    OwedQueue(cfg, e.key, r.cell, e.key in Notified(e.key, c, r.cell));
  }

  /** An undisturbing event never adds to what is owed, and the operator's own takes one off. */
  lemma StepOwed(cfg: Config, w: World, e: Event, key: Key)
    requires WorldInv(cfg, w) && !Disturbs(e, key)
    ensures var owed, next := Owed(cfg, key, At(w, key)), Owed(cfg, key, At(Step(cfg, w, e), key));
      next <= owed && (Own(e, key) ==> next == 0 || next < owed)
  {
    var c, next := At(w, key), At(Step(cfg, w, e), key);
    if !Own(e, key) {
      OthersEnqueue(cfg, w, e, key);
      OwedRequeued(cfg, key, c, next);
    } else if Resting(cfg, key, c) {
      RestKept(cfg, w, e, key);
    } else {
      OwnNext(cfg, w, e, key);
      assert CellInv(cfg, key, c, w.clock);
      OwnOwed(cfg, e, c, w.clock, next);
    }
  }

  lemma {:induction false} RunOwed(cfg: Config, w: World, es: seq<Event>, key: Key)
    requires WorldInv(cfg, w) && Disturbances(es, key) == 0
    ensures var owed, next := Owed(cfg, key, At(w, key)), Owed(cfg, key, At(Run(cfg, w, es), key));
      next == 0 || next + Operates(es, key) <= owed
    decreases |es|
  {
    if es != [] {
      var init, e := es[..|es| - 1], es[|es| - 1];
      RunOwed(cfg, w, init, key);
      RunKept(cfg, w, init);
      StepOwed(cfg, Run(cfg, w, init), e, key);
    }
  }

  // ----- At rest

  /** The key's objects. */
  predicate SameObjects(a: Cell, b: Cell) { a.ms == b.ms && a.deployment == b.deployment && a.service == b.service }

  lemma RestKept(cfg: Config, w: World, e: Event, key: Key)
    requires !Disturbs(e, key) && Resting(cfg, key, At(w, key))
    ensures Resting(cfg, key, At(Step(cfg, w, e), key))
    ensures e.key == key ==> !EffectOf(cfg, e, At(w, key), w.clock).wrote
  {
    StepPotential(cfg, w, e, key);
  }

  lemma StepRests(cfg: Config, w: World, e: Event, key: Key)
    requires !Disturbs(e, key) && Resting(cfg, key, At(w, key))
    ensures Resting(cfg, key, At(Step(cfg, w, e), key)) && SameObjects(At(w, key), At(Step(cfg, w, e), key))
  {
    RestKept(cfg, w, e, key);
    if Own(e, key) {
      OwnNext(cfg, w, e, key);
      SilentStep(cfg, key, At(w, key), w.clock, e.fault, e.now);
    } else {
      OthersEnqueue(cfg, w, e, key);
    }
  }

  lemma {:induction false} RunRests(cfg: Config, w: World, es: seq<Event>, key: Key)
    requires Disturbances(es, key) == 0 && Resting(cfg, key, At(w, key))
    ensures Resting(cfg, key, At(Run(cfg, w, es), key)) && SameObjects(At(w, key), At(Run(cfg, w, es), key))
    ensures Writes(cfg, w, es, key) == 0
    decreases |es|
  {
    WritesBounded(cfg, w, es, key);
    if es != [] {
      RunRests(cfg, w, es[..|es| - 1], key);
      StepRests(cfg, Run(cfg, w, es[..|es| - 1]), es[|es| - 1], key);
    }
  }

  // ----- Going idle

  /** The ManagedService is gone, or the conclusion for it is success. */
  predicate Succeeds(cfg: Config, key: Key, c: Cell) {
    c.ms.Some? ==> PlanOf(cfg, key, c.ms.value, c.deployment, c.service).Succeed?
  }

  /** Somebody other than the key's own reconciliation enqueues the key. */
  predicate Wakes(cfg: Config, w: World, e: Event, key: Key) {
    !Own(e, key) && !At(w, key).queued && At(Step(cfg, w, e), key).queued
  }

  predicate Unwoken(cfg: Config, w: World, es: seq<Event>, key: Key)
    decreases |es|
  {
    es == [] || (Unwoken(cfg, w, es[..|es| - 1], key) && !Wakes(cfg, Run(cfg, w, es[..|es| - 1]), es[|es| - 1], key))
  }

  /** The operator's steps until the key is idle and unqueued, if nobody wakes it. */
  function Left(c: Cell): nat { StepsLeft(c.local) + (if c.queued then 7 else 0) }

  lemma LeftDrops(cfg: Config, key: Key, c: Cell, stamp: nat, now: int)
    requires Resting(cfg, key, c) && Succeeds(cfg, key, c)
    ensures var r := OperatorStep(cfg, key, c, stamp, None, now);
      !r.wrote && (Left(r.cell) == 0 || Left(r.cell) < Left(c))
  {
    OperatorRetires(cfg, key, c, stamp, now);
    if c.local.Some? {
      StepsRunDown(cfg, key, c, stamp, None, now);
      OperatorStepCases(cfg, key, c, stamp, None, now);
      KeepsQueue(cfg, key, c, stamp, now, OperatorStep(cfg, key, c, stamp, None, now));
    }
  }

  /** A reconciliation that is going to succeed does not put its key back. */
  lemma KeepsQueue(cfg: Config, key: Key, c: Cell, stamp: nat, now: int, r: Effect)
    requires c.local.Some? && InSync(cfg, key, c) && Succeeds(cfg, key, c)
    requires r == OperatorStep(cfg, key, c, stamp, None, now) && OperatorOutcome(cfg, key, c, stamp, None, now, r)
    ensures r.cell.queued == c.queued
  {
  }

  /** The key's own step, which writes nothing and so notifies nobody. */
  lemma OperatorLeft(cfg: Config, e: Event, c: Cell, stamp: nat, next: Cell)
    requires e.Operate? && e.fault.None? && next == NextCell(cfg, e, c, stamp)
    requires Resting(cfg, e.key, c) && Succeeds(cfg, e.key, c)
    ensures Left(next) == 0 || Left(next) < Left(c)
  {
    LeftDrops(cfg, e.key, c, stamp, e.now);
    SilentStep(cfg, e.key, c, stamp, None, e.now);
    var r := OperatorStep(cfg, e.key, c, stamp, None, e.now);
    assert Notified(e.key, c, r.cell) == {};
  }

  lemma StepLeft(cfg: Config, w: World, e: Event, key: Key)
    requires !Disturbs(e, key) && !Wakes(cfg, w, e, key)
    requires Resting(cfg, key, At(w, key)) && Succeeds(cfg, key, At(w, key))
    ensures var left, next := Left(At(w, key)), Left(At(Step(cfg, w, e), key));
      next <= left && (Own(e, key) ==> next == 0 || next < left)
  {
    var c, next := At(w, key), At(Step(cfg, w, e), key);
    if Own(e, key) {
      OwnNext(cfg, w, e, key);
      OperatorLeft(cfg, e, c, w.clock, next);
    } else {
      OthersEnqueue(cfg, w, e, key);
      AsleepLeft(c, next);
    }
  }

  lemma AsleepLeft(c: Cell, next: Cell)
    requires next.local == c.local && (next.queued ==> c.queued)
    ensures Left(next) <= Left(c)
  {
  }

  lemma {:induction false} RunLeft(cfg: Config, w: World, es: seq<Event>, key: Key)
    requires Disturbances(es, key) == 0 && Unwoken(cfg, w, es, key)
    requires Resting(cfg, key, At(w, key)) && Succeeds(cfg, key, At(w, key))
    ensures var left, next := Left(At(w, key)), Left(At(Run(cfg, w, es), key));
      next == 0 || next + Operates(es, key) <= left
    decreases |es|
  {
    if es != [] {
      var init := es[..|es| - 1];
      RunLeft(cfg, w, init, key);
      RunRests(cfg, w, init, key);
      StepLeft(cfg, Run(cfg, w, init), es[|es| - 1], key);
    }
  }

  // ----- The whole story

  /**
   From any reachable world: after a run that leaves the key alone and lets the operator take twelve steps for
   it, nothing more is written in any continuation that leaves it alone, and its objects stay as they are.
   */
  lemma LeftAloneSettles(cfg: Config, start: World, past: seq<Event>, es: seq<Event>, more: seq<Event>, key: Key)
    requires Started(start) && Disturbances(es, key) == 0 && Operates(es, key) >= 12 && Disturbances(more, key) == 0
    ensures var settled := Run(cfg, Run(cfg, start, past), es);
      && Writes(cfg, settled, more, key) == 0
      && SameObjects(At(settled, key), At(Run(cfg, settled, more), key))
  {
    var settled := Run(cfg, Run(cfg, start, past), es);
    SettledRests(cfg, start, past, es, key);
    RunRests(cfg, settled, more, key);
  }

  lemma SettledRests(cfg: Config, start: World, past: seq<Event>, es: seq<Event>, key: Key)
    requires Started(start) && Disturbances(es, key) == 0 && Operates(es, key) >= 12
    ensures Resting(cfg, key, At(Run(cfg, Run(cfg, start, past), es), key))
  {
    var w := Run(cfg, start, past);
    StartedInv(cfg, start);
    RunKept(cfg, start, past);
    OwedBound(cfg, key, At(w, key));
    RunOwed(cfg, w, es, key);
  }

  /**
   If then nobody wakes the key and the operator takes thirteen more steps for it, the key is idle and
   unqueued exactly when its ManagedService is gone or its conclusion is success. Otherwise it is still queued
   or in flight: the lasting error is retried for ever, and writes nothing.
   */
  lemma LeftAloneIdles(cfg: Config, start: World, past: seq<Event>, es: seq<Event>, more: seq<Event>, key: Key)
    requires Started(start) && Disturbances(es, key) == 0 && Operates(es, key) >= 12
    requires Disturbances(more, key) == 0 && Operates(more, key) >= 13
    requires Unwoken(cfg, Run(cfg, Run(cfg, start, past), es), more, key)
    ensures var c := At(Run(cfg, Run(cfg, Run(cfg, start, past), es), more), key);
      c.local.None? && !c.queued <==> Succeeds(cfg, key, c)
  {
    var settled := Run(cfg, Run(cfg, start, past), es);
    SettledRests(cfg, start, past, es, key);
    RunRests(cfg, settled, more, key);
    StartedInv(cfg, start);
    RunKept(cfg, start, past);
    RunKept(cfg, Run(cfg, start, past), es);
    IdlesFrom(cfg, settled, more, key);
  }

  lemma IdlesFrom(cfg: Config, w: World, more: seq<Event>, key: Key)
    requires WorldInv(cfg, w) && Resting(cfg, key, At(w, key))
    requires Disturbances(more, key) == 0 && Operates(more, key) >= 13 && Unwoken(cfg, w, more, key)
    ensures var c := At(Run(cfg, w, more), key);
      c.local.None? && !c.queued <==> Succeeds(cfg, key, c)
  {
    RunRests(cfg, w, more, key);
    RunKept(cfg, w, more);
    var end := Run(cfg, w, more);
    assert CellInv(cfg, key, At(end, key), end.clock);
    IdleSucceeds(cfg, key, At(end, key));
    if Succeeds(cfg, key, At(end, key)) {
      SameConclusion(cfg, key, At(w, key), At(end, key));
      LeftBound(At(w, key));
      RunLeft(cfg, w, more, key);
    }
  }

  lemma LeftBound(c: Cell)
    ensures Left(c) <= 13 && (Left(c) == 0 <==> c.local.None? && !c.queued)
  {
    StepsLeftBound(c.local);
  }

  lemma SameConclusion(cfg: Config, key: Key, a: Cell, b: Cell)
    requires SameObjects(a, b)
    ensures Succeeds(cfg, key, a) == Succeeds(cfg, key, b)
  {
  }

  lemma IdleSucceeds(cfg: Config, key: Key, c: Cell)
    requires QuietInv(cfg, key, c)
    ensures c.local.None? && !c.queued ==> Succeeds(cfg, key, c)
  {
    if c.ms.Some? { ConvergedIffRested(cfg, key, c); }
  }
}
