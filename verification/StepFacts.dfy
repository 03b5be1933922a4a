/**
 What each step can do, in the form the run proofs use: the cases of the operator's next API call and of
 a change by someone else.
 */
module StepFacts {
  import opened Wrappers
  import opened Objects
  import opened Children
  import opened Conditions
  import opened Operator
  import Image

  /** A child that the closure would leave alone has this ManagedService as its controller, so its watch names the key. */
  lemma SettledOwners(owners: seq<OwnerRef>, key: Key, uid: nat)
    requires SetControllerReference(owners, key, uid) == Ok(owners)
    ensures ControlledBy(owners, key.name)
    ensures key in OwnerRequests(owners, key.namespace)
  {
    UpsertOwnerControllers(owners, ControllerRef(key, uid));
  }

  /** What the Deployment half of a reconciliation can do. */
  predicate DeploymentOutcome(cfg: Config, key: Key, c: Cell, ms: ManagedService, seen: Option<Deployment>, stamp: nat, r: Effect) {
    && r.cell == c.(deployment := r.cell.deployment, local := r.cell.local)
    && r.outcome.None? && r.counted == []
    && (!r.wrote ==> r.cell.deployment == c.deployment)
    && (r.wrote ==>
          && r.cell.deployment.Some?
          && var d := r.cell.deployment.value;
             && DeploymentSettled(cfg, key, ms, d)
             && Controllers(d.owners) == [ControllerRef(key, ms.uid)]
             && d.resourceVersion == stamp
             && (if seen.None? then c.deployment.None? && d.readyReplicas == 0
                 else c.deployment.Some? && c.deployment.value.resourceVersion == seen.value.resourceVersion
                      && d.readyReplicas == c.deployment.value.readyReplicas))
    && (match r.cell.local
        case Some(ReadService(m, n)) =>
          && m == ms
          && (if r.wrote then n == r.cell.deployment.value.readyReplicas
              else seen.Some? && DeploymentSettled(cfg, key, ms, seen.value) && n == seen.value.readyReplicas)
        case Some(WriteStatus(m, plan)) => m == ms && plan.Degrade?
        case _ => false)
  }

  predicate ServiceOutcome(key: Key, c: Cell, ms: ManagedService, n: int, seen: Option<Service>, stamp: nat, r: Effect) {
    && r.cell == c.(service := r.cell.service, local := r.cell.local)
    && r.outcome.None? && r.counted == []
    && (!r.wrote ==> r.cell.service == c.service)
    && (r.wrote ==>
          && r.cell.service.Some?
          && var s := r.cell.service.value;
             && ServiceSettled(key, ms, s)
             && Controllers(s.owners) == [ControllerRef(key, ms.uid)]
             && s.resourceVersion == stamp
             && (if seen.None? then c.service.None?
                 else c.service.Some? && c.service.value.resourceVersion == seen.value.resourceVersion))
    && (match r.cell.local
        case Some(WriteStatus(m, Succeed(k))) =>
          && m == ms && k == n
          && (r.wrote || (seen.Some? && ServiceSettled(key, ms, seen.value)))
        case Some(WriteStatus(m, Degrade(_, _))) => m == ms
        case _ => false)
  }

  /** A Deployment the server accepts: the closure's result with defaults filled in, under a fresh version. */
  lemma SubmittedDeployment(stored: Option<Deployment>, seen: Option<Deployment>, wanted: Deployment, stamp: nat)
    ensures var answer := SubmitDeployment(stored, seen, wanted, stamp);
      answer.Ok? ==>
        && OneController(wanted.owners)
        && answer.value.resourceVersion == stamp
        && answer.value == DefaultDeployment(wanted).(resourceVersion := stamp, readyReplicas := answer.value.readyReplicas)
        && (if seen.None? then stored.None? && answer.value.readyReplicas == 0
            else stored.Some? && stored.value.resourceVersion == wanted.resourceVersion
                 && answer.value.readyReplicas == stored.value.readyReplicas)
  {
  }

  lemma DeploymentStepCases(
    cfg: Config, key: Key, c: Cell, ms: ManagedService, seen: Option<Deployment>, stamp: nat, fault: Option<Fault>)
    ensures DeploymentOutcome(cfg, key, c, ms, seen, stamp, DeploymentStep(cfg, key, c, ms, seen, stamp, fault))
  {
    var base := DeploymentBase(seen);
    var mutated := MutateDeployment(cfg, key, ms, base);
    if mutated.Ok? && seen != Some(mutated.value) {
      SubmittedDeployment(c.deployment, seen, mutated.value, stamp);
      var answer := SubmitDeployment(c.deployment, seen, mutated.value, stamp);
      if answer.Ok? {
        StoredDeploymentSettled(cfg, key, ms, base, answer.value);
      }
    }
  }

  lemma SubmittedService(stored: Option<Service>, seen: Option<Service>, wanted: Service, stamp: nat)
    ensures var answer := SubmitService(stored, seen, wanted, stamp);
      answer.Ok? ==>
        && OneController(wanted.owners)
        && answer.value.resourceVersion == stamp
        && answer.value == DefaultService(wanted, stamp).(resourceVersion := stamp)
        && (if seen.None? then stored.None?
            else stored.Some? && stored.value.resourceVersion == wanted.resourceVersion)
  {
  }

  lemma ServiceStepCases(
    key: Key, c: Cell, ms: ManagedService, n: int, seen: Option<Service>, stamp: nat, fault: Option<Fault>)
    ensures ServiceOutcome(key, c, ms, n, seen, stamp, ServiceStep(key, c, ms, n, seen, stamp, fault))
  {
    var base := ServiceBase(seen);
    var mutated := MutateService(key, ms, base);
    if mutated.Ok? && seen != Some(mutated.value) {
      SubmittedService(c.service, seen, mutated.value, stamp);
      var answer := SubmitService(c.service, seen, mutated.value, stamp);
      if answer.Ok? {
        StoredServiceSettled(key, ms, base, answer.value, stamp);
      }
    }
  }

  /** What a change by someone else can do to the key's objects. */
  predicate ForeignOutcome(c: Cell, after: Cell, stamp: nat) {
    && after.local == c.local
    && (c.queued ==> after.queued)
    && (after.deployment.Some? && after.deployment != c.deployment ==>
          after.deployment.value.resourceVersion == stamp
          && (OneController(after.deployment.value.owners)
              || (c.deployment.Some? && after.deployment.value.owners == c.deployment.value.owners)))
    && (after.service.Some? && after.service != c.service ==>
          after.service.value.resourceVersion == stamp && OneController(after.service.value.owners))
  }

  lemma ChangedCases(c: Cell, change: ForeignChange, stamp: nat)
    ensures ForeignOutcome(c, Changed(c, change, stamp), stamp)
  {
  }

  /** A failed API call or closure turns the reconciliation towards a Degraded status. */
  predicate GivesUp(c: Cell, ms: ManagedService, r: Effect) {
    && r.cell == c.(local := r.cell.local)
    && r.outcome.None? && r.counted == [] && !r.wrote
    && (match r.cell.local
        case Some(WriteStatus(m, plan)) => m == ms && plan.Degrade?
        case _ => false)
  }

  /** All the operator can do next at a key, whatever the API answers. */
  predicate OperatorOutcome(cfg: Config, key: Key, c: Cell, stamp: nat, fault: Option<Fault>, now: int, r: Effect) {
    match c.local
    case None => r == if c.queued then Goto(c.(queued := false), Popped) else Quiet(c)
    case Some(Popped) =>
      || r == Return(c, Error)
      || (c.ms.None? && r == Return(c, Success))
      || (c.ms.Some? && r == Goto(c, Gate(cfg, c.ms.value)))
    case Some(ReadDeployment(ms)) => r == Goto(c, WriteDeployment(ms, c.deployment)) || GivesUp(c, ms, r)
    case Some(WriteDeployment(ms, seen)) => DeploymentOutcome(cfg, key, c, ms, seen, stamp, r)
    case Some(ReadService(ms, n)) => r == Goto(c, WriteService(ms, n, c.service)) || GivesUp(c, ms, r)
    case Some(WriteService(ms, n, seen)) => ServiceOutcome(key, c, ms, n, seen, stamp, r)
    case Some(WriteStatus(ms, plan)) => r == StatusStep(key, c, ms, plan, fault, now)
  }

  lemma OperatorStepCases(cfg: Config, key: Key, c: Cell, stamp: nat, fault: Option<Fault>, now: int)
    ensures OperatorOutcome(cfg, key, c, stamp, fault, now, OperatorStep(cfg, key, c, stamp, fault, now))
  {
    match c.local
    case Some(WriteDeployment(ms, seen)) => DeploymentStepCases(cfg, key, c, ms, seen, stamp, fault);
    case Some(WriteService(ms, n, seen)) => ServiceStepCases(key, c, ms, n, seen, stamp, fault);
    case _ =>
  }
}
