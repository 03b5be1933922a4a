/** Reconciliations are neither lost nor counted twice (internal/controller/managedservice_controller.go, lines 66-79). */
module Outcomes {
  import opened Wrappers
  import opened Objects
  import opened Operator
  import Children
  import Conditions
  import StepFacts

  /** Whether an event takes its key off the queue. */
  predicate Begins(w: World, e: Event) { e.Operate? && e.key in w.queue && e.key !in w.locals }

  function Begun(cfg: Children.Config, w: World, es: seq<Event>): nat
    decreases |es|
  {
    if es == [] then 0
    else Begun(cfg, w, es[..|es| - 1]) + Bit(Begins(Run(cfg, w, es[..|es| - 1]), es[|es| - 1]))
  }

  /** An outcome is counted exactly when a reconciliation leaves its key; only a pop brings one to it. */
  predicate Kept(e: Event, c: Cell, r: Effect) {
    && (r.outcome.Some? <==> c.local.Some? && r.cell.local.None?)
    && (c.local.None? && r.cell.local.Some? <==> e.Operate? && c.queued && c.local.None?)
    && (r.outcome.Some? ==> r.outcome.value in {Success, Error})
  }

  lemma OutcomeCases(cfg: Children.Config, e: Event, c: Cell, stamp: nat)
    ensures Kept(e, c, EffectOf(cfg, e, c, stamp))
  {
    match e
    case Environment(_, change) => StepFacts.ChangedCases(c, change, stamp);
    case Operate(key, fault, now) =>
      StepFacts.OperatorStepCases(cfg, key, c, stamp, fault, now);
      OperatorKept(cfg, e, c, stamp, OperatorStep(cfg, key, c, stamp, fault, now));
  }

  lemma OperatorKept(cfg: Children.Config, e: Event, c: Cell, stamp: nat, r: Effect)
    requires e.Operate? && StepFacts.OperatorOutcome(cfg, e.key, c, stamp, e.fault, e.now, r)
    ensures Kept(e, c, r)
  {
    match c.local
    case Some(WriteStatus(ms, plan)) => StatusOutcomes(e.key, c, ms, plan, e.fault, e.now);
    case _ =>
  }

  lemma StatusOutcomes(key: Key, c: Cell, ms: ManagedService, plan: Conditions.Plan, fault: Option<Fault>, now: int)
    ensures var r := StatusStep(key, c, ms, plan, fault, now);
      r.cell.local.None? && r.outcome.Some? && r.outcome.value in {Success, Error}
  {
  }

  lemma DropSize<V>(m: map<Key, V>, key: Key)
    ensures |m - {key}| == |m| - Bit(key in m)
  {
    if key in m {
      assert m.Keys == (m - {key}).Keys + {key};
    } else {
      assert m - {key} == m;
    }
  }

  lemma StoreSize<V>(m: map<Key, V>, key: Key, value: Option<V>)
    ensures |Store(m, key, value)| == |m| - Bit(key in m) + Bit(value.Some?)
  {
    DropSize(m, key);
    if value.Some? {
      assert m[key := value.value].Keys == m.Keys + {key};
    }
  }

  lemma StepConserves(cfg: Children.Config, w: World, e: Event)
    ensures var t := Step(cfg, w, e);
      |t.outcomes| + |t.locals| == |w.outcomes| + |w.locals| + Bit(Begins(w, e))
  {
    var c := At(w, e.key);
    OutcomeCases(cfg, e, c, w.clock);
    StoreSize(w.locals, e.key, EffectOf(cfg, e, c, w.clock).cell.local);
  }

  /** Every reconciliation begun is in flight or has counted one outcome. */
  lemma {:induction false} OutcomesConserved(cfg: Children.Config, w: World, es: seq<Event>)
    ensures var t := Run(cfg, w, es);
      |t.outcomes| + |t.locals| == |w.outcomes| + |w.locals| + Begun(cfg, w, es)
    decreases |es|
  {
    if es != [] {
      OutcomesConserved(cfg, w, es[..|es| - 1]);
      StepConserves(cfg, Run(cfg, w, es[..|es| - 1]), es[|es| - 1]);
    }
  }
}
