/**
 What the operator may write: its own key's children only, never a child that somebody else controls,
 always under the incarnation it read, with every managed field as wanted, every unmanaged field as it
 was, and only digest-pinned images.
 */
module Safety {
  import opened Wrappers
  import opened Objects
  import opened Children
  import opened Conditions
  import opened Operator
  import opened StepFacts
  import opened Convergence
  import Image
  import Addresses
  import Workload

  // ----- What settled children look like

  /** Every field of the Deployment that the operator manages, given the ManagedService's spec. */
  predicate ManagedDeployment(cfg: Config, key: Key, spec: Spec, d: Deployment) {
    && d.labels == Labels(key, spec)
    && d.replicas == Some(DesiredReplicas(spec))
    && d.selector == LabelSelector(Selector(key), [])
    && d.templateLabels == PodLabels(key, spec)
    && d.podSpec == DesiredPodSpec(cfg, spec)
  }

  predicate ManagedKubeService(key: Key, spec: Spec, s: Service) {
    && s.labels == Labels(key, spec)
    && s.serviceType == "ClusterIP"
    && s.selector == Selector(key)
    && s.ports == DesiredPorts()
  }

  /** Every container of the Deployment runs a digest-pinned image. */
  predicate PinnedImages(d: Deployment) {
    forall i | 0 <= i < |d.podSpec.containers| :: Image.Immutable(d.podSpec.containers[i].image)
  }

  lemma SettledServiceManaged(key: Key, ms: ManagedService, s: Service)
    requires ServiceSettled(key, ms, s)
    ensures ManagedKubeService(key, ms.CurrentSpec(), s)
  {
  }

  lemma SettledManaged(cfg: Config, key: Key, ms: ManagedService, d: Deployment)
    requires DeploymentSettled(cfg, key, ms, d)
    ensures ManagedDeployment(cfg, key, ms.CurrentSpec(), d)
    ensures Image.Immutable(cfg.image) ==> PinnedImages(d)
  {
  }

  lemma SelectorInPodLabels(key: Key, spec: Spec)
    ensures forall name | name in Selector(key) ::
              name in PodLabels(key, spec) && PodLabels(key, spec)[name] == Selector(key)[name]
  {
    assert |NAME_LABEL| == 22 && |INSTANCE_LABEL| == 26;
    assert |MANAGED_BY_LABEL| == 28 && |TEMPLATE_LABEL| == 33 && |OTLP_CLIENT_LABEL| == 41;
    forall name | name in Selector(key)
      ensures name in PodLabels(key, spec) && PodLabels(key, spec)[name] == Selector(key)[name]
    {
      assert name == NAME_LABEL || name == INSTANCE_LABEL;
      assert name != MANAGED_BY_LABEL && name != TEMPLATE_LABEL && name != OTLP_CLIENT_LABEL;
    }
  }

  predicate Exposed(ports: seq<ContainerPort>, target: IntOrString) {
    exists j | 0 <= j < |ports| :: target == FromString(ports[j].name)
  }

  /** The Service of a settled pair selects the Deployment's pods and targets ports they expose. */
  lemma ServiceReachesPods(cfg: Config, key: Key, ms: ManagedService, d: Deployment, s: Service)
    requires DeploymentSettled(cfg, key, ms, d) && ServiceSettled(key, ms, s)
    ensures forall name | name in s.selector :: name in d.templateLabels && d.templateLabels[name] == s.selector[name]
    ensures forall name | name in d.selector.matchLabels ::
              name in d.templateLabels && d.templateLabels[name] == d.selector.matchLabels[name]
    ensures forall i | 0 <= i < |s.ports| :: Exposed(d.podSpec.containers[0].ports, s.ports[i].targetPort)
  {
    SelectorInPodLabels(key, ms.CurrentSpec());
    assert d.selector.matchLabels == Selector(key) == s.selector;
    assert d.templateLabels == PodLabels(key, ms.CurrentSpec());
    var ports := d.podSpec.containers[0].ports;
    forall i | 0 <= i < |s.ports| ensures Exposed(ports, s.ports[i].targetPort) {
      assert s.ports[i].targetPort == FromString(ports[i].name);
    }
  }

  // ----- One write

  /** The object is uncontrolled, or controlled by the key's ManagedService. */
  predicate NotOthers(owners: seq<OwnerRef>, key: Key) {
    ControllerOf(owners).None? || ControlledBy(owners, key.name)
  }

  predicate OtherOwnersKept(before: seq<OwnerRef>, after: seq<OwnerRef>, key: Key) {
    && |before| <= |after|
    && forall i | 0 <= i < |before| && !SameOwner(before[i], ControllerRef(key, 0)) :: after[i] == before[i]
  }

  /** The Deployment that replaces `before` when the operator, holding `ms`, writes. */
  predicate DeploymentWriteSafe(cfg: Config, key: Key, ms: ManagedService, before: Option<Deployment>, after: Deployment) {
    && Controllers(after.owners) == [ControllerRef(key, ms.uid)]
    && Workload.OwnedBy(after.owners, key, ms.uid)
    && ManagedDeployment(cfg, key, ms.CurrentSpec(), after)
    && Workload.Runs(cfg, key, ms.CurrentSpec(), after)
    && PinnedImages(after)
    && (before.None? ==> after.readyReplicas == 0)
    && (before.Some? ==>
          && NotOthers(before.value.owners, key)
          && OtherOwnersKept(before.value.owners, after.owners, key)
          && after.annotations == before.value.annotations
          && after.templateAnnotations == before.value.templateAnnotations
          && after.strategy == Or(before.value.strategy, "RollingUpdate")
          && after.selector == before.value.selector
          && after.readyReplicas == before.value.readyReplicas)
  }

  ghost predicate ServiceWriteSafe(key: Key, ms: ManagedService, before: Option<Service>, after: Service) {
    && Controllers(after.owners) == [ControllerRef(key, ms.uid)]
    && Workload.OwnedBy(after.owners, key, ms.uid)
    && ManagedKubeService(key, ms.CurrentSpec(), after)
    && Workload.LeadsAnywhere(key, ms.CurrentSpec(), after)
    && (before.Some? ==>
          && NotOthers(before.value.owners, key)
          && OtherOwnersKept(before.value.owners, after.owners, key)
          && after.annotations == before.value.annotations
          && after.sessionAffinity == Or(before.value.sessionAffinity, "None")
          && (before.value.clusterIP != Unset ==> after.clusterIP == before.value.clusterIP))
  }

  lemma SetControllerFrame(owners: seq<OwnerRef>, key: Key, uid: nat)
    ensures var r := SetControllerReference(owners, key, uid);
            r.Ok? ==> NotOthers(owners, key) && OtherOwnersKept(owners, r.value, key)
  {
    UpsertOwnerFrame(owners, ControllerRef(key, uid));
  }

  lemma DeploymentWrite(cfg: Config, key: Key, c: Cell, ms: ManagedService, seen: Option<Deployment>, stamp: nat, fault: Option<Fault>)
    requires c.local == Some(WriteDeployment(ms, seen)) && SeenInv(c, stamp) && Image.Immutable(cfg.image)
    ensures var r := DeploymentStep(cfg, key, c, ms, seen, stamp, fault);
            r.wrote ==> r.cell.deployment.Some? && DeploymentWriteSafe(cfg, key, ms, c.deployment, r.cell.deployment.value)
  {
    var r := DeploymentStep(cfg, key, c, ms, seen, stamp, fault);
    DeploymentStepCases(cfg, key, c, ms, seen, stamp, fault);
    if r.wrote {
      var base := DeploymentBase(seen);
      var wanted := MutateDeployment(cfg, key, ms, base).value;
      SettledManaged(cfg, key, ms, r.cell.deployment.value);
      Workload.SettledRuns(cfg, key, ms, r.cell.deployment.value);
      Workload.ControllerRefOwns(r.cell.deployment.value.owners, key, ms.uid);
      SetControllerFrame(base.owners, key, ms.uid);
      SubmittedDeployment(c.deployment, seen, wanted, stamp);
    }
  }

  lemma ServiceWrite(key: Key, c: Cell, ms: ManagedService, n: int, seen: Option<Service>, stamp: nat, fault: Option<Fault>)
    requires c.local == Some(WriteService(ms, n, seen)) && SeenInv(c, stamp)
    ensures var r := ServiceStep(key, c, ms, n, seen, stamp, fault);
            r.wrote ==> r.cell.service.Some? && ServiceWriteSafe(key, ms, c.service, r.cell.service.value)
  {
    var r := ServiceStep(key, c, ms, n, seen, stamp, fault);
    ServiceStepCases(key, c, ms, n, seen, stamp, fault);
    if r.wrote {
      var base := ServiceBase(seen);
      SettledServiceManaged(key, ms, r.cell.service.value);
      Workload.SettledLeads(key, ms, r.cell.service.value);
      Workload.ControllerRefOwns(r.cell.service.value.owners, key, ms.uid);
      SetControllerFrame(base.owners, key, ms.uid);
      SubmittedService(c.service, seen, MutateService(key, ms, base).value, stamp);
    }
  }

  // ----- One step

  /** The image gate was passed. */
  predicate GateInv(cfg: Config, c: Cell) {
    match c.local
    case Some(ReadDeployment(_)) => Image.Immutable(cfg.image)
    case Some(WriteDeployment(_, _)) => Image.Immutable(cfg.image)
    case Some(ReadService(_, _)) => Image.Immutable(cfg.image)
    case Some(WriteService(_, _, _)) => Image.Immutable(cfg.image)
    case _ => true
  }

  /** An operator step: what it changes among the key's objects, and whom it wakes. */
  ghost predicate StepSafe(cfg: Config, key: Key, c: Cell, after: Cell) {
    && (after.deployment != c.deployment ==>
          && c.local.Some? && c.local.value.WriteDeployment?
          && after.deployment.Some?
          && DeploymentWriteSafe(cfg, key, c.local.value.ms, c.deployment, after.deployment.value))
    && (after.service != c.service ==>
          && c.local.Some? && c.local.value.WriteService?
          && after.service.Some?
          && ServiceWriteSafe(key, c.local.value.ms, c.service, after.service.value))
    && (after.ms != c.ms ==>
          && c.local.Some? && c.local.value.WriteStatus?
          && c.ms.Some? && after.ms.Some?
          && after.ms.value == c.ms.value.(status := after.ms.value.status))
    && Notified(key, c, after) <= {key}
  }

  lemma WakesOwnKey(key: Key, before: seq<OwnerRef>, after: seq<OwnerRef>, uid: nat)
    requires NotOthers(before, key) && Controllers(after) == [ControllerRef(key, uid)]
    ensures OwnerRequests(before, key.namespace) <= {key} && OwnerRequests(after, key.namespace) <= {key}
  {
    assert key == Key(key.namespace, key.name);
  }

  lemma OperatorStepSafe(cfg: Config, key: Key, c: Cell, stamp: nat, fault: Option<Fault>, now: int)
    requires SeenInv(c, stamp) && GateInv(cfg, c)
    ensures StepSafe(cfg, key, c, OperatorStep(cfg, key, c, stamp, fault, now).cell)
  {
    OperatorStepCases(cfg, key, c, stamp, fault, now);
    var r := OperatorStep(cfg, key, c, stamp, fault, now);
    match c.local
    case Some(WriteDeployment(ms, seen)) =>
      DeploymentWrite(cfg, key, c, ms, seen, stamp, fault);
      DeploymentStepSafe(cfg, key, c, ms, seen, stamp, r);
    case Some(WriteService(ms, n, seen)) =>
      ServiceWrite(key, c, ms, n, seen, stamp, fault);
      ServiceStepSafe(cfg, key, c, ms, n, seen, stamp, r);
    case _ =>
  }

  lemma DeploymentStepSafe(cfg: Config, key: Key, c: Cell, ms: ManagedService, seen: Option<Deployment>, stamp: nat, r: Effect)
    requires c.local == Some(WriteDeployment(ms, seen)) && DeploymentOutcome(cfg, key, c, ms, seen, stamp, r)
    requires r.wrote ==> DeploymentWriteSafe(cfg, key, ms, c.deployment, r.cell.deployment.value)
    ensures StepSafe(cfg, key, c, r.cell)
  {
    if r.wrote {
      WakesOwnKey(key, DeploymentOwners(c.deployment), DeploymentOwners(r.cell.deployment), ms.uid);
    }
  }

  lemma ServiceStepSafe(
    cfg: Config, key: Key, c: Cell, ms: ManagedService, n: int, seen: Option<Service>, stamp: nat, r: Effect)
    requires c.local == Some(WriteService(ms, n, seen)) && ServiceOutcome(key, c, ms, n, seen, stamp, r)
    requires r.wrote ==> ServiceWriteSafe(key, ms, c.service, r.cell.service.value)
    ensures StepSafe(cfg, key, c, r.cell)
  {
    if r.wrote {
      WakesOwnKey(key, ServiceOwners(c.service), ServiceOwners(r.cell.service), ms.uid);
    }
  }

  // ----- Runs

  lemma GateKept(cfg: Config, e: Event, c: Cell, stamp: nat)
    requires GateInv(cfg, c)
    ensures GateInv(cfg, NextCell(cfg, e, c, stamp))
  {
    if e.Environment? {
      ChangedCases(c, e.change, stamp);
    } else {
      OperatorStepCases(cfg, e.key, c, stamp, e.fault, e.now);
      GateKeptCore(cfg, e.key, c, stamp, e.fault, e.now, OperatorStep(cfg, e.key, c, stamp, e.fault, e.now));
    }
  }

  lemma GateKeptCore(cfg: Config, key: Key, c: Cell, stamp: nat, fault: Option<Fault>, now: int, r: Effect)
    requires GateInv(cfg, c) && OperatorOutcome(cfg, key, c, stamp, fault, now, r)
    ensures GateInv(cfg, r.cell)
  {
  }

  ghost predicate GatesInv(cfg: Config, w: World) { forall key: Key :: GateInv(cfg, At(w, key)) }

  lemma {:induction false} GatesKept(cfg: Config, w: World, es: seq<Event>)
    requires GatesInv(cfg, w)
    ensures GatesInv(cfg, Run(cfg, w, es))
    decreases |es|
  {
    if es != [] {
      var before, e := Run(cfg, w, es[..|es| - 1]), es[|es| - 1];
      GatesKept(cfg, w, es[..|es| - 1]);
      forall key: Key ensures GateInv(cfg, At(Step(cfg, before, e), key)) {
        StepAt(cfg, before, e, key);
        assert GateInv(cfg, At(before, key));
        if key == e.key { GateKept(cfg, e, At(before, key), before.clock); }
      }
    }
  }

  /**
   Every operator step of every run: it touches only its own key's objects, wakes only its own key, and
   what it writes is safe.
   */
  lemma EveryStepSafe(cfg: Config, w: World, es: seq<Event>, i: nat)
    requires Started(w) && i < |es| && es[i].Operate?
    ensures var before, key := Run(cfg, w, es[..i]), es[i].key;
      && StepSafe(cfg, key, At(before, key), EffectOf(cfg, es[i], At(before, key), before.clock).cell)
      && forall other: Key | other != key :: At(Step(cfg, before, es[i]), other) == At(before, other)
  {
    var before, key := Run(cfg, w, es[..i]), es[i].key;
    StartedInv(cfg, w);
    RunKept(cfg, w, es[..i]);
    assert GatesInv(cfg, w) by {
      forall k: Key ensures GateInv(cfg, At(w, k)) { assert At(w, k).local.None?; }
    }
    GatesKept(cfg, w, es[..i]);
    assert CellInv(cfg, key, At(before, key), before.clock) && GateInv(cfg, At(before, key));
    OperatorStepSafe(cfg, key, At(before, key), before.clock, es[i].fault, es[i].now);
    forall other: Key | other != key ensures At(Step(cfg, before, es[i]), other) == At(before, other) {
      StepAt(cfg, before, es[i], other);
    }
  }

  /** In every reachable state every child has at most one controller. */
  lemma OneControllerAlways(cfg: Config, w: World, es: seq<Event>, key: Key)
    requires Started(w)
    ensures var c := At(Run(cfg, w, es), key);
            OneController(DeploymentOwners(c.deployment)) && OneController(ServiceOwners(c.service))
  {
    StartedInv(cfg, w);
    RunKept(cfg, w, es);
    assert CellInv(cfg, key, At(Run(cfg, w, es), key), Run(cfg, w, es).clock);
  }

  /**
   A live key that is idle and unqueued is served: its pods run the spec, its Service leads to them, and its
   endpoint names that Service.
   */
  lemma QuiescentServed(cfg: Config, w: World, es: seq<Event>, key: Key)
    requires Started(w)
    ensures var c := At(Run(cfg, w, es), key);
      c.ms.Some? && !c.queued && c.local.None? ==>
        && c.deployment.Some? && Workload.Runs(cfg, key, c.ms.value.CurrentSpec(), c.deployment.value)
        && c.service.Some? && Workload.LeadsAnywhere(key, c.ms.value.CurrentSpec(), c.service.value)
        && (Addresses.LabelKey(key) ==> Addresses.NamesService(c.ms.value.status.endpoint, key))
  {
    QuiescentConverged(cfg, w, es, key);
    var c := At(Run(cfg, w, es), key);
    if c.ms.Some? && !c.queued && c.local.None? {
      ConvergedServed(cfg, key, c);
      if Addresses.LabelKey(key) { ConvergedAddressed(cfg, key, c); }
    }
  }

  lemma ConvergedServed(cfg: Config, key: Key, c: Cell)
    requires Converged(cfg, key, c)
    ensures Workload.Runs(cfg, key, c.ms.value.CurrentSpec(), c.deployment.value)
    ensures Workload.LeadsAnywhere(key, c.ms.value.CurrentSpec(), c.service.value)
  {
    Workload.SettledRuns(cfg, key, c.ms.value, c.deployment.value);
    Workload.SettledLeads(key, c.ms.value, c.service.value);
  }

  lemma ConvergedAddressed(cfg: Config, key: Key, c: Cell)
    requires Converged(cfg, key, c) && Addresses.LabelKey(key)
    ensures Addresses.NamesService(c.ms.value.status.endpoint, key)
  {
    Addresses.EndpointNamesService(key, Endpoint(key));
  }
}
