/**
 Level-triggered convergence: in every reachable state, a live ManagedService whose key is neither
 queued nor being reconciled is a fixed point of Reconcile.
 */
module Convergence {
  import opened Wrappers
  import opened Objects
  import opened Children
  import opened Conditions
  import opened Operator
  import opened StepFacts
  import Image
  import MergePatch

  // ----- The claim

  predicate DeploymentAt(cfg: Config, key: Key, ms: ManagedService, d: Option<Deployment>, readyReplicas: int) {
    d.Some? && DeploymentSettled(cfg, key, ms, d.value) && d.value.readyReplicas == readyReplicas
  }

  predicate ServiceAt(key: Key, ms: ManagedService, s: Option<Service>) {
    s.Some? && ServiceSettled(key, ms, s.value)
  }

  /** Nothing is left to do for the key: gate open, children as wanted, status as computed. */
  predicate Converged(cfg: Config, key: Key, c: Cell) {
    && c.ms.Some?
    && Image.Immutable(cfg.image)
    && c.deployment.Some?
    && DeploymentAt(cfg, key, c.ms.value, c.deployment, c.deployment.value.readyReplicas)
    && ServiceAt(key, c.ms.value, c.service)
    && StatusSettled(key, c.ms.value, Succeed(c.deployment.value.readyReplicas))
  }

  // ----- Resource versions name contents

  /** What is stored is older than the clock and names at most one controller. */
  predicate StoredInv(c: Cell, clock: nat) {
    && (c.deployment.Some? ==> c.deployment.value.resourceVersion < clock && OneController(c.deployment.value.owners))
    && (c.service.Some? ==> c.service.value.resourceVersion < clock && OneController(c.service.value.owners))
  }

  /** A stored object with the version that was read is the object that was read. */
  predicate SeenInv(c: Cell, clock: nat) {
    match c.local
    case Some(WriteDeployment(_, Some(d))) =>
      && d.resourceVersion < clock
      && (c.deployment.Some? && c.deployment.value.resourceVersion == d.resourceVersion ==> c.deployment.value == d)
    case Some(WriteService(_, _, Some(s))) =>
      && s.resourceVersion < clock
      && (c.service.Some? && c.service.value.resourceVersion == s.resourceVersion ==> c.service.value == s)
    case _ => true
  }

  // ----- What an unqueued key guarantees at each stage

  predicate QuietInv(cfg: Config, key: Key, c: Cell) {
    !c.queued ==>
      match c.local
      case None => c.ms.Some? ==> Converged(cfg, key, c)
      case Some(Popped) => true
      case Some(ReadDeployment(ms)) => c.ms == Some(ms) && Image.Immutable(cfg.image)
      case Some(WriteDeployment(ms, seen)) =>
        && c.ms == Some(ms) && Image.Immutable(cfg.image)
        && (seen.Some? && DeploymentSettled(cfg, key, ms, seen.value) ==> c.deployment == seen)
      case Some(ReadService(ms, n)) =>
        c.ms == Some(ms) && Image.Immutable(cfg.image) && DeploymentAt(cfg, key, ms, c.deployment, n)
      case Some(WriteService(ms, n, seen)) =>
        && c.ms == Some(ms) && Image.Immutable(cfg.image) && DeploymentAt(cfg, key, ms, c.deployment, n)
        && (seen.Some? && ServiceSettled(key, ms, seen.value) ==> c.service == seen)
      case Some(WriteStatus(ms, Succeed(n))) =>
        && c.ms == Some(ms) && Image.Immutable(cfg.image) && DeploymentAt(cfg, key, ms, c.deployment, n)
        && ServiceAt(key, ms, c.service)
      case Some(WriteStatus(ms, Degrade(_, _))) => c.ms == Some(ms)
  }

  predicate CellInv(cfg: Config, key: Key, c: Cell, clock: nat) {
    StoredInv(c, clock) && SeenInv(c, clock) && QuietInv(cfg, key, c)
  }

  // ----- Every step keeps the invariant

  /** What a step may leave stored: untouched children, or admitted ones under a fresh version. */
  predicate Fresh(c: Cell, after: Cell, stamp: nat) {
    && (after.deployment.Some? && after.deployment != c.deployment ==>
          after.deployment.value.resourceVersion == stamp && OneController(after.deployment.value.owners))
    && (after.service.Some? && after.service != c.service ==>
          after.service.value.resourceVersion == stamp && OneController(after.service.value.owners))
  }

  lemma OperatorFresh(cfg: Config, key: Key, c: Cell, stamp: nat, fault: Option<Fault>, now: int, r: Effect)
    requires OperatorOutcome(cfg, key, c, stamp, fault, now, r)
    ensures Fresh(c, r.cell, stamp)
  {
  }

  lemma ForeignFresh(c: Cell, after: Cell, stamp: nat)
    requires StoredInv(c, stamp) && ForeignOutcome(c, after, stamp)
    ensures Fresh(c, after, stamp)
  {
  }

  lemma StoredKept(c: Cell, after: Cell, clock: nat, notified: bool)
    requires StoredInv(c, clock) && Fresh(c, after, clock)
    ensures StoredInv(Enqueue(after, notified), clock + 1)
  {
  }

  /** The read copy stays what it was while the stored object can only move to fresh versions. */
  lemma SeenKeptByOthers(c: Cell, after: Cell, clock: nat, notified: bool)
    requires SeenInv(c, clock) && Fresh(c, after, clock) && after.local == c.local
    ensures SeenInv(Enqueue(after, notified), clock + 1)
  {
  }

  lemma SeenKeptByOperator(
    cfg: Config, key: Key, c: Cell, stamp: nat, fault: Option<Fault>, now: int, r: Effect, notified: bool)
    requires StoredInv(c, stamp) && OperatorOutcome(cfg, key, c, stamp, fault, now, r)
    ensures SeenInv(Enqueue(r.cell, notified), stamp + 1)
  {
    if c.local.Some? && c.local.value.WriteStatus? {
      assert r.cell.local.None?;
    }
  }

  /** A change by someone else either leaves an unqueued key's guarantees alone or enqueues the key. */
  lemma QuietKeptByOthers(cfg: Config, key: Key, c: Cell, after: Cell)
    requires QuietInv(cfg, key, c)
    requires after.local == c.local && (c.queued ==> after.queued)
    ensures QuietInv(cfg, key, Enqueue(after, key in Notified(key, c, after)))
  {
    if !c.queued && key !in Notified(key, c, after) {
      assert after.ms == c.ms;
      match c.local {
        case None =>
          if c.ms.Some? {
            SettledOwners(c.deployment.value.owners, key, c.ms.value.uid);
            SettledOwners(c.service.value.owners, key, c.ms.value.uid);
          }
        case Some(WriteDeployment(ms, seen)) =>
          if seen.Some? && DeploymentSettled(cfg, key, ms, seen.value) {
            SettledOwners(seen.value.owners, key, ms.uid);
          }
        case Some(ReadService(ms, n)) =>
          SettledOwners(c.deployment.value.owners, key, ms.uid);
        case Some(WriteService(ms, n, seen)) =>
          SettledOwners(c.deployment.value.owners, key, ms.uid);
          if seen.Some? && ServiceSettled(key, ms, seen.value) {
            SettledOwners(seen.value.owners, key, ms.uid);
          }
        case Some(WriteStatus(ms, Succeed(n))) =>
          SettledOwners(c.deployment.value.owners, key, ms.uid);
          SettledOwners(c.service.value.owners, key, ms.uid);
        case _ =>
      }
    }
  }

  lemma QuietAfterDeployment(cfg: Config, key: Key, c: Cell, ms: ManagedService, seen: Option<Deployment>, stamp: nat, r: Effect)
    requires c.local == Some(WriteDeployment(ms, seen)) && QuietInv(cfg, key, c)
    requires DeploymentOutcome(cfg, key, c, ms, seen, stamp, r)
    ensures QuietInv(cfg, key, Enqueue(r.cell, key in Notified(key, c, r.cell)))
  {
  }

  lemma QuietAfterService(cfg: Config, key: Key, c: Cell, ms: ManagedService, n: int, seen: Option<Service>, stamp: nat, r: Effect)
    requires c.local == Some(WriteService(ms, n, seen)) && QuietInv(cfg, key, c)
    requires ServiceOutcome(key, c, ms, n, seen, stamp, r)
    ensures QuietInv(cfg, key, Enqueue(r.cell, key in Notified(key, c, r.cell)))
  {
  }

  lemma QuietAfterStatus(cfg: Config, key: Key, c: Cell, ms: ManagedService, plan: Plan, fault: Option<Fault>, now: int)
    requires c.local == Some(WriteStatus(ms, plan)) && QuietInv(cfg, key, c)
    ensures var r := StatusStep(key, c, ms, plan, fault, now);
            QuietInv(cfg, key, Enqueue(r.cell, key in Notified(key, c, r.cell)))
  {
    SettledAtAnyTime(key, ms, plan, now);
  }

  lemma QuietKeptByOperator(cfg: Config, key: Key, c: Cell, stamp: nat, fault: Option<Fault>, now: int, r: Effect)
    requires QuietInv(cfg, key, c) && OperatorOutcome(cfg, key, c, stamp, fault, now, r)
    ensures QuietInv(cfg, key, Enqueue(r.cell, key in Notified(key, c, r.cell)))
  {
    match c.local
    case Some(WriteDeployment(ms, seen)) => QuietAfterDeployment(cfg, key, c, ms, seen, stamp, r);
    case Some(WriteService(ms, n, seen)) => QuietAfterService(cfg, key, c, ms, n, seen, stamp, r);
    case Some(WriteStatus(ms, plan)) => QuietAfterStatus(cfg, key, c, ms, plan, fault, now);
    case _ =>
  }

  lemma CellKept(cfg: Config, e: Event, c: Cell, clock: nat)
    requires CellInv(cfg, e.key, c, clock)
    ensures CellInv(cfg, e.key, NextCell(cfg, e, c, clock), clock + 1)
  {
    var r := EffectOf(cfg, e, c, clock);
    var notified := e.key in Notified(e.key, c, r.cell);
    if e.Environment? {
      ChangedCases(c, e.change, clock);
      ForeignFresh(c, r.cell, clock);
      SeenKeptByOthers(c, r.cell, clock, notified);
      QuietKeptByOthers(cfg, e.key, c, r.cell);
    } else {
      OperatorStepCases(cfg, e.key, c, clock, e.fault, e.now);
      OperatorFresh(cfg, e.key, c, clock, e.fault, e.now, r);
      SeenKeptByOperator(cfg, e.key, c, clock, e.fault, e.now, r, notified);
      QuietKeptByOperator(cfg, e.key, c, clock, e.fault, e.now, r);
    }
    StoredKept(c, r.cell, clock, notified);
  }

  // ----- Runs

  ghost predicate WorldInv(cfg: Config, w: World) {
    forall key: Key :: CellInv(cfg, key, At(w, key), w.clock)
  }

  /** The operator starts with nothing in flight and every live key queued; children are arbitrary. */
  ghost predicate Started(w: World) {
    forall key: Key ::
      var c := At(w, key);
      c.local.None? && (c.ms.Some? ==> c.queued) && StoredInv(c, w.clock)
  }

  lemma StepKept(cfg: Config, w: World, e: Event)
    requires WorldInv(cfg, w)
    ensures WorldInv(cfg, Step(cfg, w, e))
  {
    forall key: Key ensures CellInv(cfg, key, At(Step(cfg, w, e), key), w.clock + 1) {
      assert CellInv(cfg, key, At(w, key), w.clock);
      StepAt(cfg, w, e, key);
      if key == e.key {
        CellKept(cfg, e, At(w, key), w.clock);
      } else {
        ElsewhereKept(cfg, key, At(w, key), At(Step(cfg, w, e), key), w.clock);
      }
    }
  }

  lemma ElsewhereKept(cfg: Config, key: Key, c: Cell, after: Cell, clock: nat)
    requires CellInv(cfg, key, c, clock)
    requires after == Enqueue(c, false) || after == Enqueue(c, true)
    ensures CellInv(cfg, key, after, clock + 1)
  {
  }

  lemma {:induction false} RunKept(cfg: Config, w: World, es: seq<Event>)
    requires WorldInv(cfg, w)
    ensures WorldInv(cfg, Run(cfg, w, es))
  {
    if es != [] {
      RunKept(cfg, w, es[..|es| - 1]);
      StepKept(cfg, Run(cfg, w, es[..|es| - 1]), es[|es| - 1]);
    }
  }

  lemma StartedInv(cfg: Config, w: World)
    requires Started(w)
    ensures WorldInv(cfg, w)
  {
    forall key: Key ensures CellInv(cfg, key, At(w, key), w.clock) {
      assert At(w, key).local.None?;
    }
  }

  /** Quiescence means converged. */
  lemma QuiescentConverged(cfg: Config, w: World, es: seq<Event>, key: Key)
    requires Started(w)
    ensures var c := At(Run(cfg, w, es), key);
            c.ms.Some? && !c.queued && c.local.None? ==> Converged(cfg, key, c)
  {
    StartedInv(cfg, w);
    RunKept(cfg, w, es);
    assert CellInv(cfg, key, At(Run(cfg, w, es), key), Run(cfg, w, es).clock);
  }

  /** A Degraded status is never final: the key is queued or being reconciled. */
  lemma DegradedRetries(cfg: Config, w: World, es: seq<Event>, key: Key)
    requires Started(w)
    ensures var c := At(Run(cfg, w, es), key);
            c.ms.Some? && StatusOf(c.ms.value.status.conditions, DEGRADED) == Some(True) ==> c.queued || c.local.Some?
  {
    QuiescentConverged(cfg, w, es, key);
    var c := At(Run(cfg, w, es), key);
    if c.ms.Some? && !c.queued && c.local.None? { ConvergedNotDegraded(cfg, key, c); }
  }

  lemma ConvergedNotDegraded(cfg: Config, key: Key, c: Cell)
    requires Converged(cfg, key, c)
    ensures StatusOf(c.ms.value.status.conditions, DEGRADED) == Some(False)
  {
    SettledReads(key, c.ms.value, Succeed(c.deployment.value.readyReplicas), 2);
  }
}
