/**
 The operator does not chase its own writes. `Pending` counts the objects of a key that are out of date;
 an undisturbed reconciliation writes exactly those, and a run writes at most six objects per
 disturbance, however often a deterministic error is retried.
 */
module WriteBound {
  import opened Wrappers
  import opened Objects
  import opened Children
  import opened Conditions
  import opened Operator
  import opened StepFacts
  import opened Convergence
  import Image

  // ----- What an undisturbed reconciliation would conclude

  /** The error that the Deployment half would meet, if any. */
  function DeploymentVerdict(cfg: Config, key: Key, ms: ManagedService, d: Option<Deployment>): Option<ApiError> {
    match MutateDeployment(cfg, key, ms, DeploymentBase(d))
    case Err(e) => Some(e)
    case Ok(wanted) =>
      if d == Some(wanted) then None
      else
        match SubmitDeployment(d, d, wanted, 0)
        case Ok(_) => None
        case Err(e) => Some(e)
  }

  function ServiceVerdict(key: Key, ms: ManagedService, s: Option<Service>): Option<ApiError> {
    match MutateService(key, ms, ServiceBase(s))
    case Err(e) => Some(e)
    case Ok(wanted) =>
      if s == Some(wanted) then None
      else
        match SubmitService(s, s, wanted, 0)
        case Ok(_) => None
        case Err(e) => Some(e)
  }

  predicate DeploymentStale(cfg: Config, key: Key, ms: ManagedService, d: Option<Deployment>) {
    d.None? || !DeploymentSettled(cfg, key, ms, d.value)
  }

  predicate ServiceStale(key: Key, ms: ManagedService, s: Option<Service>) {
    s.None? || !ServiceSettled(key, ms, s.value)
  }

  /** The status an undisturbed reconciliation would arrive at. */
  function PlanOf(cfg: Config, key: Key, ms: ManagedService, d: Option<Deployment>, s: Option<Service>): Plan {
    match Image.ValidateImmutableImage(cfg.image)
    case Err(e) => Degrade(TEMPLATE_INVALID, ImageText(e))
    case Ok(_) =>
      match DeploymentVerdict(cfg, key, ms, d)
      case Some(e) => Degrade(DEPLOYMENT_FAILED, DeploymentText(e))
      case None =>
        match ServiceVerdict(key, ms, s)
        case Some(e) => Degrade(SERVICE_FAILED, ServiceText(e))
        case None => Succeed(DeploymentBase(d).readyReplicas)
  }

  /** Out-of-date children that an undisturbed reconciliation would get to write. */
  function PendingChildren(cfg: Config, key: Key, ms: ManagedService, d: Option<Deployment>, s: Option<Service>): nat {
    if !Image.Immutable(cfg.image) || DeploymentVerdict(cfg, key, ms, d).Some? then 0
    else
      Bit(DeploymentStale(cfg, key, ms, d))
      + Bit(ServiceVerdict(key, ms, s).None? && ServiceStale(key, ms, s))
  }

  function Pending(cfg: Config, key: Key, c: Cell): (n: nat)
    ensures n <= 3
  {
    match c.ms
    case None => 0
    case Some(ms) =>
      PendingChildren(cfg, key, ms, c.deployment, c.service)
      + Bit(!StatusSettled(key, ms, PlanOf(cfg, key, ms, c.deployment, c.service)))
  }

  // ----- The reconciliation in flight agrees with what is stored

  predicate InSync(cfg: Config, key: Key, c: Cell) {
    match c.local
    case None => true
    case Some(Popped) => true
    case Some(ReadDeployment(ms)) => c.ms == Some(ms) && Image.Immutable(cfg.image)
    case Some(WriteDeployment(ms, seen)) => c.ms == Some(ms) && Image.Immutable(cfg.image) && seen == c.deployment
    case Some(ReadService(ms, n)) =>
      c.ms == Some(ms) && Image.Immutable(cfg.image) && DeploymentAt(cfg, key, ms, c.deployment, n)
    case Some(WriteService(ms, n, seen)) =>
      && c.ms == Some(ms) && Image.Immutable(cfg.image) && DeploymentAt(cfg, key, ms, c.deployment, n)
      && seen == c.service
    case Some(WriteStatus(ms, plan)) =>
      && c.ms == Some(ms)
      && plan == PlanOf(cfg, key, ms, c.deployment, c.service)
      && PendingChildren(cfg, key, ms, c.deployment, c.service) == 0
  }

  /** Writes that a reconciliation out of step may still make. */
  function Remaining(l: Option<Local>): nat {
    match l
    case None => 0
    case Some(Popped) => 0
    case Some(ReadDeployment(_)) => 3
    case Some(WriteDeployment(_, _)) => 3
    case Some(ReadService(_, _)) => 2
    case Some(WriteService(_, _, _)) => 2
    case Some(WriteStatus(_, _)) => 1
  }

  function Potential(cfg: Config, key: Key, c: Cell): (n: nat)
    ensures n <= 6
  {
    if InSync(cfg, key, c) then Pending(cfg, key, c) else 3 + Remaining(c.local)
  }

  // ----- In step: every write retires exactly one pending object

  predicate Retires(cfg: Config, key: Key, c: Cell, r: Effect) {
    && InSync(cfg, key, r.cell)
    && Bit(r.wrote) + Pending(cfg, key, r.cell) == Pending(cfg, key, c)
    && (c.local.Some? && r.cell.local.None? ==> Pending(cfg, key, r.cell) == 0)
    && SamePlan(cfg, key, c, r.cell)
  }

  /** The conclusion does not change while the operator works towards it. */
  predicate SamePlan(cfg: Config, key: Key, c: Cell, after: Cell) {
    match (c.ms, after.ms)
    case (Some(a), Some(b)) =>
      PlanOf(cfg, key, b, after.deployment, after.service) == PlanOf(cfg, key, a, c.deployment, c.service)
    case (None, None) => true
    case _ => false
  }

  /** A settled Deployment raises no error. */
  lemma SettledVerdict(cfg: Config, key: Key, ms: ManagedService, d: Deployment)
    requires DeploymentSettled(cfg, key, ms, d)
    ensures DeploymentVerdict(cfg, key, ms, Some(d)).None? && !DeploymentStale(cfg, key, ms, Some(d))
  {
  }

  lemma SettledServiceVerdict(key: Key, ms: ManagedService, s: Service)
    requires ServiceSettled(key, ms, s)
    ensures ServiceVerdict(key, ms, Some(s)).None? && !ServiceStale(key, ms, Some(s))
  {
  }

  /** The step follows the verdict. */
  lemma DeploymentFollowsVerdict(cfg: Config, key: Key, c: Cell, ms: ManagedService, stamp: nat)
    ensures var r := DeploymentStep(cfg, key, c, ms, c.deployment, stamp, None);
      match DeploymentVerdict(cfg, key, ms, c.deployment)
      case Some(e) => r == Goto(c, DeploymentFailed(ms, e))
      case None => r.cell.local.Some? && r.cell.local.value.ReadService? && (r.wrote <==> DeploymentStale(cfg, key, ms, c.deployment))
  {
  }

  lemma ServiceFollowsVerdict(key: Key, c: Cell, ms: ManagedService, n: int, stamp: nat)
    ensures var r := ServiceStep(key, c, ms, n, c.service, stamp, None);
      match ServiceVerdict(key, ms, c.service)
      case Some(e) => r == Goto(c, ServiceFailed(ms, e))
      case None => r.cell.local == Some(WriteStatus(ms, Succeed(n))) && (r.wrote <==> ServiceStale(key, ms, c.service))
  {
  }

  lemma DeploymentRetires(cfg: Config, key: Key, c: Cell, ms: ManagedService, stamp: nat)
    requires c.local == Some(WriteDeployment(ms, c.deployment)) && InSync(cfg, key, c)
    ensures Retires(cfg, key, c, DeploymentStep(cfg, key, c, ms, c.deployment, stamp, None))
  {
    var r := DeploymentStep(cfg, key, c, ms, c.deployment, stamp, None);
    DeploymentFollowsVerdict(cfg, key, c, ms, stamp);
    DeploymentStepCases(cfg, key, c, ms, c.deployment, stamp, None);
    DeploymentRetiresCore(cfg, key, c, ms, stamp, r);
  }

  lemma DeploymentRetiresCore(cfg: Config, key: Key, c: Cell, ms: ManagedService, stamp: nat, r: Effect)
    requires c.local == Some(WriteDeployment(ms, c.deployment)) && InSync(cfg, key, c)
    requires DeploymentOutcome(cfg, key, c, ms, c.deployment, stamp, r)
    requires match DeploymentVerdict(cfg, key, ms, c.deployment)
             case Some(e) => r == Goto(c, DeploymentFailed(ms, e))
             case None => r.cell.local.Some? && r.cell.local.value.ReadService? && (r.wrote <==> DeploymentStale(cfg, key, ms, c.deployment))
    ensures Retires(cfg, key, c, r)
  {
    if DeploymentVerdict(cfg, key, ms, c.deployment).None? {
      SettledVerdict(cfg, key, ms, r.cell.deployment.value);
      assert PlanOf(cfg, key, ms, c.deployment, c.service) == PlanOf(cfg, key, ms, r.cell.deployment, c.service);
    }
  }

  lemma ServiceRetires(cfg: Config, key: Key, c: Cell, ms: ManagedService, n: int, stamp: nat)
    requires c.local == Some(WriteService(ms, n, c.service)) && InSync(cfg, key, c)
    ensures Retires(cfg, key, c, ServiceStep(key, c, ms, n, c.service, stamp, None))
  {
    var r := ServiceStep(key, c, ms, n, c.service, stamp, None);
    ServiceFollowsVerdict(key, c, ms, n, stamp);
    ServiceStepCases(key, c, ms, n, c.service, stamp, None);
    SettledVerdict(cfg, key, ms, c.deployment.value);
    ServiceRetiresCore(cfg, key, c, ms, n, stamp, r);
  }

  lemma ServiceRetiresCore(cfg: Config, key: Key, c: Cell, ms: ManagedService, n: int, stamp: nat, r: Effect)
    requires c.local == Some(WriteService(ms, n, c.service)) && InSync(cfg, key, c)
    requires DeploymentVerdict(cfg, key, ms, c.deployment).None? && !DeploymentStale(cfg, key, ms, c.deployment)
    requires ServiceOutcome(key, c, ms, n, c.service, stamp, r)
    requires match ServiceVerdict(key, ms, c.service)
             case Some(e) => r == Goto(c, ServiceFailed(ms, e))
             case None => r.cell.local == Some(WriteStatus(ms, Succeed(n))) && (r.wrote <==> ServiceStale(key, ms, c.service))
    ensures Retires(cfg, key, c, r)
  {
    if ServiceVerdict(key, ms, c.service).None? {
      SettledServiceVerdict(key, ms, r.cell.service.value);
      assert PlanOf(cfg, key, ms, c.deployment, c.service) == PlanOf(cfg, key, ms, c.deployment, r.cell.service);
    }
  }

  lemma MutationIgnoresStatus(cfg: Config, key: Key, ms: ManagedService, status: Status, d: Deployment, s: Service)
    ensures MutateDeployment(cfg, key, ms.(status := status), d) == MutateDeployment(cfg, key, ms, d)
    ensures MutateService(key, ms.(status := status), s) == MutateService(key, ms, s)
  {
    assert ms.(status := status).CurrentSpec() == ms.CurrentSpec();
  }

  lemma DeploymentIgnoresStatus(cfg: Config, key: Key, ms: ManagedService, status: Status, d: Option<Deployment>)
    ensures DeploymentVerdict(cfg, key, ms.(status := status), d) == DeploymentVerdict(cfg, key, ms, d)
    ensures DeploymentStale(cfg, key, ms.(status := status), d) == DeploymentStale(cfg, key, ms, d)
  {
    MutationIgnoresStatus(cfg, key, ms, status, DeploymentBase(d), BLANK_SERVICE);
  }

  lemma ServiceIgnoresStatus(cfg: Config, key: Key, ms: ManagedService, status: Status, s: Option<Service>)
    ensures ServiceVerdict(key, ms.(status := status), s) == ServiceVerdict(key, ms, s)
    ensures ServiceStale(key, ms.(status := status), s) == ServiceStale(key, ms, s)
  {
    MutationIgnoresStatus(cfg, key, ms, status, BLANK_DEPLOYMENT, ServiceBase(s));
  }

  /** The verdicts look at the UID and the spec, not at the status. */
  lemma VerdictsIgnoreStatus(cfg: Config, key: Key, ms: ManagedService, status: Status, d: Option<Deployment>, s: Option<Service>)
    ensures var other := ms.(status := status);
      && PlanOf(cfg, key, other, d, s) == PlanOf(cfg, key, ms, d, s)
      && PendingChildren(cfg, key, other, d, s) == PendingChildren(cfg, key, ms, d, s)
  {
    DeploymentIgnoresStatus(cfg, key, ms, status, d);
    ServiceIgnoresStatus(cfg, key, ms, status, s);
  }

  /** With the children done and the computed status stored, nothing is pending. */
  lemma StatusStoredRests(cfg: Config, key: Key, c: Cell, ms: ManagedService, plan: Plan)
    requires c.ms == Some(ms) && plan == PlanOf(cfg, key, ms, c.deployment, c.service)
    requires PendingChildren(cfg, key, ms, c.deployment, c.service) == 0
    requires StatusSettled(key, ms, plan)
    ensures Pending(cfg, key, c) == 0
  {
  }

  lemma StatusRetires(cfg: Config, key: Key, c: Cell, ms: ManagedService, plan: Plan, now: int)
    requires c.local == Some(WriteStatus(ms, plan)) && InSync(cfg, key, c)
    ensures Retires(cfg, key, c, StatusStep(key, c, ms, plan, None, now))
  {
    var after := StatusFor(key, ms, plan, now);
    var r := StatusStep(key, c, ms, plan, None, now);
    var stored := ms.(status := after);
    SettledAtAnyTime(key, ms, plan, now);
    StatusIdempotent(key, ms, plan, now);
    assert r.cell.ms == Some(stored) && r.cell.local.None?;
    assert r.wrote <==> !StatusSettled(key, ms, plan);
    VerdictsIgnoreStatus(cfg, key, ms, after, c.deployment, c.service);
    StatusStoredRests(cfg, key, r.cell, stored, plan);
  }

  /** A fault-free step of a reconciliation in step with the store stays in step and retires what it writes. */
  lemma OperatorRetires(cfg: Config, key: Key, c: Cell, stamp: nat, now: int)
    requires InSync(cfg, key, c)
    ensures Retires(cfg, key, c, OperatorStep(cfg, key, c, stamp, None, now))
  {
    match c.local
    case Some(WriteDeployment(ms, _)) => DeploymentRetires(cfg, key, c, ms, stamp);
    case Some(WriteService(ms, n, _)) => ServiceRetires(cfg, key, c, ms, n, stamp);
    case Some(WriteStatus(ms, plan)) => StatusRetires(cfg, key, c, ms, plan, now);
    case Some(Popped) => GateRetires(cfg, key, c, stamp, now);
    case _ =>
  }

  lemma GateRetires(cfg: Config, key: Key, c: Cell, stamp: nat, now: int)
    requires c.local == Some(Popped)
    ensures Retires(cfg, key, c, OperatorStep(cfg, key, c, stamp, None, now))
  {
  }

  // ----- Out of step: the remaining writes run down

  lemma OperatorRunsDown(cfg: Config, key: Key, c: Cell, stamp: nat, fault: Option<Fault>, now: int, r: Effect)
    requires OperatorOutcome(cfg, key, c, stamp, fault, now, r)
    ensures c.local.Some? && !c.local.value.Popped? ==> Bit(r.wrote) + Remaining(r.cell.local) <= Remaining(c.local)
    ensures r.wrote ==> Remaining(r.cell.local) <= 2
  {
  }

  lemma OutOfStepInFlight(cfg: Config, key: Key, c: Cell)
    requires !InSync(cfg, key, c)
    ensures c.local.Some? && !c.local.value.Popped? && Remaining(c.local) >= 1
  {
  }

  lemma OperatorPotential(cfg: Config, key: Key, c: Cell, stamp: nat, now: int)
    ensures var r := OperatorStep(cfg, key, c, stamp, None, now);
            Bit(r.wrote) + Potential(cfg, key, r.cell) <= Potential(cfg, key, c)
  {
    if InSync(cfg, key, c) {
      OperatorRetires(cfg, key, c, stamp, now);
    } else {
      OperatorStepCases(cfg, key, c, stamp, None, now);
      OutOfStepInFlight(cfg, key, c);
      OperatorRunsDown(cfg, key, c, stamp, None, now, OperatorStep(cfg, key, c, stamp, None, now));
    }
  }

  // ----- Runs

  /** A change of the key's objects by someone else, or an API fault met by its reconciliation. */
  predicate Disturbs(e: Event, key: Key) {
    e.key == key && (if e.Environment? then !e.change.Resync? else e.fault.Some?)
  }

  function Disturbances(es: seq<Event>, key: Key): nat {
    if es == [] then 0 else Disturbances(es[..|es| - 1], key) + Bit(Disturbs(es[|es| - 1], key))
  }

  /** Creates, updates and patches that reconciliations of the key get the server to store during a run. */
  function Writes(cfg: Config, w: World, es: seq<Event>, key: Key): nat
    decreases |es|
  {
    if es == [] then 0
    else
      var e, before := es[|es| - 1], Run(cfg, w, es[..|es| - 1]);
      Writes(cfg, w, es[..|es| - 1], key)
      + Bit(e.key == key && EffectOf(cfg, e, At(before, key), before.clock).wrote)
  }

  /** Enqueueing a key disturbs nothing. */
  lemma QueueIrrelevant(cfg: Config, key: Key, c: Cell, notified: bool)
    ensures Potential(cfg, key, Enqueue(c, notified)) == Potential(cfg, key, c)
    ensures InSync(cfg, key, Enqueue(c, notified)) == InSync(cfg, key, c)
    ensures Pending(cfg, key, Enqueue(c, notified)) == Pending(cfg, key, c)
  {
  }

  /** Whatever happens, one step leaves at most six writes made or to come. */
  lemma StepCapped(cfg: Config, e: Event, c: Cell, stamp: nat)
    ensures var r := EffectOf(cfg, e, c, stamp); Bit(r.wrote) + Potential(cfg, e.key, r.cell) <= 6
  {
    if e.Operate? {
      OperatorStepCases(cfg, e.key, c, stamp, e.fault, e.now);
      OperatorRunsDown(cfg, e.key, c, stamp, e.fault, e.now, OperatorStep(cfg, e.key, c, stamp, e.fault, e.now));
    }
  }

  lemma UndisturbedStep(cfg: Config, e: Event, c: Cell, stamp: nat)
    requires !Disturbs(e, e.key)
    ensures var r := EffectOf(cfg, e, c, stamp); Bit(r.wrote) + Potential(cfg, e.key, r.cell) <= Potential(cfg, e.key, c)
  {
    if e.Operate? {
      OperatorPotential(cfg, e.key, c, stamp, e.now);
    } else {
      QueueIrrelevant(cfg, e.key, c, true);
    }
  }

  lemma StepPotential(cfg: Config, w: World, e: Event, key: Key)
    ensures Bit(e.key == key && EffectOf(cfg, e, At(w, key), w.clock).wrote) + Potential(cfg, key, At(Step(cfg, w, e), key))
            <= Potential(cfg, key, At(w, key)) + 6 * Bit(Disturbs(e, key))
  {
    var c := At(w, key);
    StepAt(cfg, w, e, key);
    if e.key != key {
      QueueIrrelevant(cfg, key, c, true);
    } else {
      var r := EffectOf(cfg, e, c, w.clock);
      QueueIrrelevant(cfg, key, r.cell, key in Notified(key, c, r.cell));
      if Disturbs(e, key) {
        StepCapped(cfg, e, c, w.clock);
      } else {
        UndisturbedStep(cfg, e, c, w.clock);
      }
    }
  }

  /**
   Finitely many disturbances lead to finitely many writes, and to no more than six each: a run cannot
   write on its own account more than `Potential`, which is at most three when nothing is in flight.
   */
  lemma {:induction false} WritesBounded(cfg: Config, w: World, es: seq<Event>, key: Key)
    ensures Writes(cfg, w, es, key) + Potential(cfg, key, At(Run(cfg, w, es), key))
            <= Potential(cfg, key, At(w, key)) + 6 * Disturbances(es, key)
    ensures Writes(cfg, w, es, key) <= 6 * (Disturbances(es, key) + 1)
    ensures At(w, key).local.None? ==> Writes(cfg, w, es, key) <= 3 + 6 * Disturbances(es, key)
    decreases |es|
  {
    if es != [] {
      WritesBounded(cfg, w, es[..|es| - 1], key);
      StepPotential(cfg, Run(cfg, w, es[..|es| - 1]), es[|es| - 1], key);
    }
  }

  // ----- One reconciliation on an unchanged cluster

  /** Steps left in the longest continuation. */
  function StepsLeft(l: Option<Local>): nat {
    match l
    case None => 0
    case Some(Popped) => 6
    case Some(ReadDeployment(_)) => 5
    case Some(WriteDeployment(_, _)) => 4
    case Some(ReadService(_, _)) => 3
    case Some(WriteService(_, _, _)) => 2
    case Some(WriteStatus(_, _)) => 1
  }

  lemma StepsRunDown(cfg: Config, key: Key, c: Cell, stamp: nat, fault: Option<Fault>, now: int)
    requires c.local.Some?
    ensures StepsLeft(OperatorStep(cfg, key, c, stamp, fault, now).cell.local) < StepsLeft(c.local)
  {
    OperatorStepCases(cfg, key, c, stamp, fault, now);
  }

  /** The result of a reconciliation: the cell it leaves, and how many objects it wrote. */
  datatype Finished = Finished(cell: Cell, writes: nat)

  /** Runs the reconciliation in flight to its end, without faults or interference. */
  function Finish(cfg: Config, key: Key, c: Cell, stamp: nat, now: int): Finished
    decreases StepsLeft(c.local)
  {
    if c.local.None? then Finished(c, 0)
    else
      StepsRunDown(cfg, key, c, stamp, None, now);
      var r := OperatorStep(cfg, key, c, stamp, None, now);
      var f := Finish(cfg, key, r.cell, stamp + 1, now);
      f.(writes := f.writes + Bit(r.wrote))
  }

  /** One whole reconciliation of an idle key. */
  function ReconcileAlone(cfg: Config, key: Key, c: Cell, stamp: nat, now: int): Finished {
    Finish(cfg, key, c.(local := Some(Popped)), stamp, now)
  }

  /** From any stage in step with the store, finishing writes exactly the pending objects and leaves none. */
  lemma {:induction false} FinishRetires(cfg: Config, key: Key, c: Cell, stamp: nat, now: int)
    requires InSync(cfg, key, c)
    ensures var f := Finish(cfg, key, c, stamp, now);
      && f.cell.local.None?
      && f.writes + Pending(cfg, key, f.cell) == Pending(cfg, key, c)
      && (c.local.Some? ==> Pending(cfg, key, f.cell) == 0)
      && SamePlan(cfg, key, c, f.cell)
    decreases StepsLeft(c.local)
  {
    if c.local.Some? {
      StepsRunDown(cfg, key, c, stamp, None, now);
      OperatorRetires(cfg, key, c, stamp, now);
      FinishRetires(cfg, key, OperatorStep(cfg, key, c, stamp, None, now).cell, stamp + 1, now);
    }
  }

  /** A step that writes nothing leaves the key's objects as they are. */
  lemma SilentStep(cfg: Config, key: Key, c: Cell, stamp: nat, fault: Option<Fault>, now: int)
    ensures var r := OperatorStep(cfg, key, c, stamp, fault, now);
            !r.wrote ==> r.cell.ms == c.ms && r.cell.deployment == c.deployment && r.cell.service == c.service
  {
    OperatorStepCases(cfg, key, c, stamp, fault, now);
  }

  lemma {:induction false} SilentFinish(cfg: Config, key: Key, c: Cell, stamp: nat, now: int)
    ensures var f := Finish(cfg, key, c, stamp, now);
            f.writes == 0 ==> f.cell.ms == c.ms && f.cell.deployment == c.deployment && f.cell.service == c.service
    decreases StepsLeft(c.local)
  {
    if c.local.Some? {
      StepsRunDown(cfg, key, c, stamp, None, now);
      SilentStep(cfg, key, c, stamp, None, now);
      SilentFinish(cfg, key, OperatorStep(cfg, key, c, stamp, None, now).cell, stamp + 1, now);
    }
  }

  /** A key is converged exactly when nothing is pending and the conclusion is success. */
  lemma ConvergedIffRested(cfg: Config, key: Key, c: Cell)
    requires c.ms.Some?
    ensures Converged(cfg, key, c)
            <==> Pending(cfg, key, c) == 0 && PlanOf(cfg, key, c.ms.value, c.deployment, c.service).Succeed?
  {
    var ms := c.ms.value;
    if c.deployment.Some? && DeploymentSettled(cfg, key, ms, c.deployment.value) {
      SettledVerdict(cfg, key, ms, c.deployment.value);
    }
    if c.service.Some? && ServiceSettled(key, ms, c.service.value) {
      SettledServiceVerdict(key, ms, c.service.value);
    }
  }

  /**
   One undisturbed reconciliation of an idle key writes exactly its out-of-date objects; a second one
   writes nothing and leaves every object alone, whether the first succeeded or failed for a lasting reason.
   */
  lemma ReconcileTwice(cfg: Config, key: Key, c: Cell, stamp: nat, now: int, later: nat, thereafter: int)
    requires c.local.None?
    ensures var first := ReconcileAlone(cfg, key, c, stamp, now);
            var second := ReconcileAlone(cfg, key, first.cell, later, thereafter);
      && first.writes == Pending(cfg, key, c) && first.cell.local.None?
      && second.writes == 0
      && second.cell.ms == first.cell.ms
      && second.cell.deployment == first.cell.deployment
      && second.cell.service == first.cell.service
  {
    var popped := c.(local := Some(Popped));
    FinishRetires(cfg, key, popped, stamp, now);
    var first := ReconcileAlone(cfg, key, c, stamp, now);
    var again := first.cell.(local := Some(Popped));
    assert Pending(cfg, key, again) == Pending(cfg, key, first.cell) == 0;
    FinishRetires(cfg, key, again, later, thereafter);
    SilentFinish(cfg, key, again, later, thereafter);
  }

  /** Whatever the drift, one undisturbed reconciliation that meets no lasting error converges the key. */
  lemma ReconcileConverges(cfg: Config, key: Key, c: Cell, stamp: nat, now: int)
    requires c.local.None? && c.ms.Some?
    ensures var f := ReconcileAlone(cfg, key, c, stamp, now);
            Converged(cfg, key, f.cell) <==> PlanOf(cfg, key, c.ms.value, c.deployment, c.service).Succeed?
  {
    FinishRetires(cfg, key, c.(local := Some(Popped)), stamp, now);
    ConvergedIffRested(cfg, key, ReconcileAlone(cfg, key, c, stamp, now).cell);
  }
}
