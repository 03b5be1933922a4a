/**
 What the conditions tell a user: in every state of every run, a stored list is one of a few tables of types,
 statuses, reasons and messages, and the one reason that blames the template is there exactly for a
 configured image that is not pinned (internal/controller/managedservice_status.go, lines 33-138, and
 managedservice_controller.go, lines 82-119).
 */
module Reasons {
  import opened Wrappers
  import opened Objects
  import opened Children
  import opened Conditions
  import opened Operator
  import opened StepFacts
  import opened Incarnations
  import Image
  import MergePatch

  // ----- The tables

  /** Everything of a condition but its generation and time. */
  predicate Says(c: Condition, kind: string, status: ConditionStatus, reason: string, message: string) {
    c.kind == kind && c.status == status && c.reason == reason && c.message == message
  }

  predicate SaysServing(cs: seq<Condition>) {
    && |cs| == 3
    && Says(cs[0], "Available", True, "WorkloadAvailable", "Deployment has the desired number of ready replicas")
    && Says(cs[1], "Progressing", False, "WorkloadAvailable", "Reconciliation succeeded")
    && Says(cs[2], "Degraded", False, "ReconciliationSucceeded", "Reconciliation succeeded")
  }

  predicate SaysWaiting(cs: seq<Condition>) {
    && |cs| == 3
    && Says(cs[0], "Available", False, "WorkloadProgressing", "Deployment is waiting for ready replicas")
    && Says(cs[1], "Progressing", True, "WorkloadProgressing", "Deployment is waiting for ready replicas")
    && Says(cs[2], "Degraded", False, "ReconciliationSucceeded", "Reconciliation succeeded")
  }

  predicate SaysFailed(cs: seq<Condition>, reason: string, message: string) {
    && |cs| == 3
    && Says(cs[0], "Available", False, "ReconciliationFailed", "Reconciliation failed")
    && Says(cs[1], "Progressing", False, "ReconciliationFailed", "Reconciliation failed")
    && Says(cs[2], "Degraded", True, reason, message)
  }

  ghost predicate Pinned(image: string) { exists repository, digest :: Image.IsPinned(image, repository, digest) }

  /** The image has a digest behind a repository, well-formed or not. */
  ghost predicate HasDigest(image: string) {
    exists i: nat :: i > 0 && Image.OccursAt(image, "@sha256:", i) && forall j: nat | j < i :: !Image.OccursAt(image, "@sha256:", j)
  }

  /** Why a reconciliation with this image can fail, and what it then says. */
  ghost predicate Cause(image: string, reason: string, message: string) {
    if Pinned(image) then
      || (reason == "DeploymentReconcileFailed" && "reconcile Deployment: " <= message)
      || (reason == "ServiceReconcileFailed" && "reconcile Service: " <= message)
    else
      && reason == "TemplateConfigurationInvalid"
      && message == if HasDigest(image) then "demo-http image contains an invalid sha256 digest"
                    else "demo-http image must use an immutable @sha256 digest"
  }

  ghost predicate Told(cfg: Config, cs: seq<Condition>) {
    || cs == []
    || (Pinned(cfg.image) && (SaysServing(cs) || SaysWaiting(cs)))
    || (exists reason, message :: Cause(cfg.image, reason, message) && SaysFailed(cs, reason, message))
  }

  // ----- Preservation

  ghost predicate Justified(cfg: Config, plan: Plan) {
    match plan
    case Succeed(_) => Pinned(cfg.image)
    case Degrade(reason, message) => Cause(cfg.image, reason, message)
  }

  ghost predicate ToldLocal(cfg: Config, l: Local) {
    match l
    case Popped => true
    case WriteStatus(ms, plan) => Told(cfg, ms.status.conditions) && Justified(cfg, plan)
    case _ => Told(cfg, l.ms.status.conditions) && Pinned(cfg.image)
  }

  ghost predicate ToldCell(cfg: Config, c: Cell) {
    && (c.ms.Some? ==> Told(cfg, c.ms.value.status.conditions))
    && (c.local.Some? ==> ToldLocal(cfg, c.local.value))
  }

  /** The gate goes on exactly with a pinned image. */
  lemma GateTold(cfg: Config, ms: ManagedService)
    requires Told(cfg, ms.status.conditions)
    ensures ToldLocal(cfg, Gate(cfg, ms))
    ensures Gate(cfg, ms).ReadDeployment? <==> Pinned(cfg.image)
  {
    Image.ImmutableIffPinned(cfg.image);
    MarkerTold(cfg.image);
  }

  lemma MarkerTold(image: string)
    ensures Image.ValidateImmutableImage(image) == Err(Image.NotPinned) <==> !HasDigest(image)
  {
    Image.IndexOfFirst(image, "@sha256:");
  }

  lemma DeploymentFailedTold(cfg: Config, ms: ManagedService, e: ApiError)
    requires Told(cfg, ms.status.conditions) && Pinned(cfg.image)
    ensures ToldLocal(cfg, DeploymentFailed(ms, e))
  {
  }

  lemma ServiceFailedTold(cfg: Config, ms: ManagedService, e: ApiError)
    requires Told(cfg, ms.status.conditions) && Pinned(cfg.image)
    ensures ToldLocal(cfg, ServiceFailed(ms, e))
  {
  }

  /** The two ways on from a Deployment: to the Service, or to a Degraded status. */
  lemma DeploymentStepGoes(
    cfg: Config, key: Key, c: Cell, ms: ManagedService, seen: Option<Deployment>, stamp: nat, fault: Option<Fault>)
    ensures var l := DeploymentStep(cfg, key, c, ms, seen, stamp, fault).cell.local;
      l.Some? && ((l.value.ReadService? && l.value.ms == ms) || exists e :: l.value == DeploymentFailed(ms, e))
  {
    var l := DeploymentStep(cfg, key, c, ms, seen, stamp, fault).cell.local;
    var mutated := MutateDeployment(cfg, key, ms, DeploymentBase(seen));
    if mutated.Err? {
      assert l == Some(DeploymentFailed(ms, mutated.error));
    } else if seen != Some(mutated.value) {
      var answer := SubmitDeployment(c.deployment, seen, mutated.value, stamp);
      if fault.Some? {
        assert l == Some(DeploymentFailed(ms, Failure(fault.value.text)));
      } else if answer.Err? {
        assert l == Some(DeploymentFailed(ms, answer.error));
      }
    }
  }

  lemma ServiceStepGoes(
    key: Key, c: Cell, ms: ManagedService, n: int, seen: Option<Service>, stamp: nat, fault: Option<Fault>)
    ensures var l := ServiceStep(key, c, ms, n, seen, stamp, fault).cell.local;
      l.Some? && (l.value == WriteStatus(ms, Succeed(n)) || exists e :: l.value == ServiceFailed(ms, e))
  {
  }

  lemma DeploymentStepTold(cfg: Config, ms: ManagedService, l: Local)
    requires Told(cfg, ms.status.conditions) && Pinned(cfg.image)
    requires (l.ReadService? && l.ms == ms) || exists e :: l == DeploymentFailed(ms, e)
    ensures ToldLocal(cfg, l)
  {
    if e :| l == DeploymentFailed(ms, e) { DeploymentFailedTold(cfg, ms, e); }
  }

  lemma ServiceStepTold(cfg: Config, ms: ManagedService, n: int, l: Local)
    requires Told(cfg, ms.status.conditions) && Pinned(cfg.image)
    requires l == WriteStatus(ms, Succeed(n)) || exists e :: l == ServiceFailed(ms, e)
    ensures ToldLocal(cfg, l)
  {
    if e :| l == ServiceFailed(ms, e) { ServiceFailedTold(cfg, ms, e); }
  }

  /** A justified plan writes one of the tables. */
  lemma PlanTold(cfg: Config, cs: seq<Condition>, spec: Spec, generation: int, plan: Plan, now: int)
    requires TriadOrEmpty(cs) && Justified(cfg, plan)
    ensures Told(cfg, UpsertAll(cs, Wanted(spec, generation, plan), now))
  {
    UpsertWanted(cs, spec, generation, plan, now);
    var r := UpsertAll(cs, Wanted(spec, generation, plan), now);
    if plan.Degrade? { assert SaysFailed(r, plan.reason, plan.message); }
  }

  lemma StatusStepTold(cfg: Config, key: Key, c: Cell, ms: ManagedService, plan: Plan, fault: Option<Fault>, now: int)
    requires ToldCell(cfg, c) && c.local == Some(WriteStatus(ms, plan)) && TriadOrEmpty(ms.status.conditions)
    ensures ToldCell(cfg, StatusStep(key, c, ms, plan, fault, now).cell)
  {
    PlanTold(cfg, ms.status.conditions, ms.CurrentSpec(), ms.Generation(), plan, now);
  }

  lemma OperatorTold(cfg: Config, key: Key, c: Cell, clock: nat, fault: Option<Fault>, now: int)
    requires IncarnationInv(c, clock) && ToldCell(cfg, c)
    ensures ToldCell(cfg, OperatorStep(cfg, key, c, clock, fault, now).cell)
  {
    match c.local
    case None =>
    case Some(Popped) => if c.ms.Some? { GateTold(cfg, c.ms.value); }
    case Some(ReadDeployment(ms)) => if fault.Some? { DeploymentFailedTold(cfg, ms, Failure(fault.value.text)); }
    case Some(WriteDeployment(ms, seen)) =>
      DeploymentStepGoes(cfg, key, c, ms, seen, clock, fault);
      DeploymentStepTold(cfg, ms, DeploymentStep(cfg, key, c, ms, seen, clock, fault).cell.local.value);
      DeploymentStepCases(cfg, key, c, ms, seen, clock, fault);
    case Some(ReadService(ms, n)) => if fault.Some? { ServiceFailedTold(cfg, ms, Failure(fault.value.text)); }
    case Some(WriteService(ms, n, seen)) =>
      ServiceStepGoes(key, c, ms, n, seen, clock, fault);
      ServiceStepTold(cfg, ms, n, ServiceStep(key, c, ms, n, seen, clock, fault).cell.local.value);
      ServiceStepCases(key, c, ms, n, seen, clock, fault);
    case Some(WriteStatus(ms, plan)) => StatusStepTold(cfg, key, c, ms, plan, fault, now);
  }

  lemma ForeignTold(cfg: Config, c: Cell, change: ForeignChange, stamp: nat)
    requires ToldCell(cfg, c)
    ensures ToldCell(cfg, Changed(c, change, stamp))
  {
  }

  ghost predicate TellsAll(cfg: Config, w: World) { forall key: Key :: ToldCell(cfg, At(w, key)) }

  /** Before anything is stored there is nothing to tell. */
  lemma NothingTold(cfg: Config, w: World)
    requires w.services == map[] && w.locals == map[]
    ensures IncarnationsInv(w) && TellsAll(cfg, w)
  {
  }

  lemma ToldNext(cfg: Config, e: Event, c: Cell, clock: nat)
    requires IncarnationInv(c, clock) && ToldCell(cfg, c)
    ensures ToldCell(cfg, NextCell(cfg, e, c, clock))
  {
    if e.Environment? { ForeignTold(cfg, c, e.change, clock); } else { OperatorTold(cfg, e.key, c, clock, e.fault, e.now); }
  }

  lemma ToldStep(cfg: Config, w: World, e: Event)
    requires IncarnationsInv(w) && TellsAll(cfg, w)
    ensures TellsAll(cfg, Step(cfg, w, e))
  {
    forall key: Key ensures ToldCell(cfg, At(Step(cfg, w, e), key)) {
      StepAt(cfg, w, e, key);
      assert ToldCell(cfg, At(w, key)) && IncarnationInv(At(w, key), w.clock);
      if key == e.key { ToldNext(cfg, e, At(w, key), w.clock); }
    }
  }

  lemma {:induction false} ToldThroughout(cfg: Config, w: World, es: seq<Event>)
    requires IncarnationsInv(w) && TellsAll(cfg, w)
    ensures TellsAll(cfg, Run(cfg, w, es))
    decreases |es|
  {
    if es != [] {
      ToldThroughout(cfg, w, es[..|es| - 1]);
      IncarnationsKept(cfg, w, es[..|es| - 1]);
      ToldStep(cfg, Run(cfg, w, es[..|es| - 1]), es[|es| - 1]);
    }
  }

  /**
   What a stored list of conditions tells about the configuration: with an unpinned image every written list
   blames the template; with a pinned one none does, and a Degraded one names the child that failed.
   */
  lemma ConditionsTell(cfg: Config, w: World, es: seq<Event>, key: Key)
    requires IncarnationsInv(w) && TellsAll(cfg, w)
    ensures var ms := At(Run(cfg, w, es), key).ms;
      ms.Some? && ms.value.status.conditions != [] ==>
        var cs := ms.value.status.conditions;
        && |cs| == 3
        && (cs[2].reason == "TemplateConfigurationInvalid" <==> !Pinned(cfg.image))
        && (cs[2].status == True <==> !SaysServing(cs) && !SaysWaiting(cs))
        && (cs[2].status == True <==> Cause(cfg.image, cs[2].reason, cs[2].message) && SaysFailed(cs, cs[2].reason, cs[2].message))
  {
    ToldThroughout(cfg, w, es);
    var c := At(Run(cfg, w, es), key);
    if c.ms.Some? {
      assert ToldCell(cfg, c);
      if c.ms.value.status.conditions != [] { ToldTells(cfg, c.ms.value.status.conditions); }
    }
  }

  lemma ToldTells(cfg: Config, cs: seq<Condition>)
    requires Told(cfg, cs) && cs != []
    ensures |cs| == 3
    ensures cs[2].reason == "TemplateConfigurationInvalid" <==> !Pinned(cfg.image)
    ensures cs[2].status == True <==> !SaysServing(cs) && !SaysWaiting(cs)
    ensures cs[2].status == True <==> Cause(cfg.image, cs[2].reason, cs[2].message) && SaysFailed(cs, cs[2].reason, cs[2].message)
  {
    ReasonsDiffer();
  }

  lemma ReasonsDiffer()
    ensures "TemplateConfigurationInvalid" !in {"DeploymentReconcileFailed", "ServiceReconcileFailed", "ReconciliationSucceeded"}
  {
    assert |"TemplateConfigurationInvalid"| == 28 && |"DeploymentReconcileFailed"| == 25;
    assert |"ServiceReconcileFailed"| == 22 && |"ReconciliationSucceeded"| == 23;
  }

  /** A Deployment that belongs to someone else is said to be the reason. */
  lemma OwnedElsewhereTold(cfg: Config, key: Key, c: Cell, ms: ManagedService, seen: Deployment, stamp: nat, fault: Option<Fault>)
    requires ControllerOf(seen.owners).Some? && !ControlledBy(seen.owners, key.name)
    ensures var r := DeploymentStep(cfg, key, c, ms, Some(seen), stamp, fault);
      && !r.wrote && r.cell == c.(local := r.cell.local)
      && r.cell.local.Some? && r.cell.local.value.WriteStatus? && r.cell.local.value.plan.Degrade?
      && r.cell.local.value.plan.reason == "DeploymentReconcileFailed"
      && "reconcile Deployment: " + "set Deployment controller reference: " <= r.cell.local.value.plan.message
  {
    var owner := ControllerOf(seen.owners).value;
    assert SetControllerReference(seen.owners, key, ms.uid) == Err(AlreadyOwned(owner));
    assert MutateDeployment(cfg, key, ms, seen) == Err(AlreadyOwned(owner));
    OwnedText(AlreadyOwned(owner));
  }

  lemma OwnedText(e: ApiError)
    requires e.AlreadyOwned?
    ensures "reconcile Deployment: " + "set Deployment controller reference: " <= DeploymentText(e)
    ensures "reconcile Service: " + "set Service controller reference: " <= ServiceText(e)
  {
    Associate("reconcile Deployment: ", "set Deployment controller reference: ", e.Text());
    Associate("reconcile Service: ", "set Service controller reference: ", e.Text());
  }

  lemma Associate(a: string, b: string, c: string)
    ensures a + b <= a + (b + c)
  {
    assert (a + b) + c == a + (b + c);
  }

  lemma ServiceOwnedElsewhereTold(key: Key, c: Cell, ms: ManagedService, n: int, seen: Service, stamp: nat, fault: Option<Fault>)
    requires ControllerOf(seen.owners).Some? && !ControlledBy(seen.owners, key.name)
    ensures var r := ServiceStep(key, c, ms, n, Some(seen), stamp, fault);
      && !r.wrote && r.cell == c.(local := r.cell.local)
      && r.cell.local.Some? && r.cell.local.value.WriteStatus? && r.cell.local.value.plan.Degrade?
      && r.cell.local.value.plan.reason == "ServiceReconcileFailed"
      && "reconcile Service: " + "set Service controller reference: " <= r.cell.local.value.plan.message
  {
    var owner := ControllerOf(seen.owners).value;
    assert SetControllerReference(seen.owners, key, ms.uid) == Err(AlreadyOwned(owner));
    assert MutateService(key, ms, seen) == Err(AlreadyOwned(owner));
    OwnedText(AlreadyOwned(owner));
  }
}
