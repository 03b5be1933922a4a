/**
 The operator in its own form: objects with fields, methods that change them step by step, early returns
 and a deferred metric. Before every API call the schedule lets others act and decides whether the call
 faults. The methods are proved to take exactly the steps of the Operator module, so everything proved
 about runs holds of them.
 */
module Reconciler {
  import opened Wrappers
  import opened Objects
  import opened Children
  import opened Conditions
  import opened Operator
  import StepFacts
  import opened StepForms
  import Addresses
  import Image
  import MergePatch
  import Workload

  /** What happens before an API call, and how the call fares. */
  datatype Turn = Turn(events: seq<Event>, fault: Option<Fault>, now: int)

  // ----- Metrics (managedservice_metrics.go, lines 107-153)

  class ManagedServiceMetrics {
    var reconciliations: multiset<Outcome>
    var durations: multiset<Outcome>
    var conditionTransitions: multiset<Series>

    constructor ()
      ensures reconciliations == multiset{} && durations == multiset{} && conditionTransitions == multiset{}
    {
      reconciliations, durations, conditionTransitions := multiset{}, multiset{}, multiset{};
    }

    /** One outcome per reconciliation, an error taking precedence over a requeue. */
    method ObserveReconciliation(requeueAfter: int, requeue: bool, failed: bool) returns (ghost outcome: Outcome)
      modifies this`reconciliations, this`durations
      ensures outcome == if failed then Error else if requeue || requeueAfter > 0 then Requeue else Success
      ensures reconciliations == old(reconciliations) + multiset{outcome}
      ensures durations == old(durations) + multiset{outcome}
    {
      var wantsRequeue := requeueAfter > 0;
      wantsRequeue := wantsRequeue || requeue;
      var name := Success;
      if failed {
        name := Error;
      } else if wantsRequeue {
        name := Requeue;
      }
      reconciliations := reconciliations + multiset{name};
      durations := durations + multiset{name};
      outcome := name;
    }

    /** One increment for every condition type whose status is new or different. */
    method ObserveConditionTransitions(before: seq<Condition>, after: seq<Condition>)
      modifies this`conditionTransitions
      ensures conditionTransitions == old(conditionTransitions) + multiset(Transitions(before, after))
    {
      var kinds := [AVAILABLE, PROGRESSING, DEGRADED];
      for i := 0 to |kinds|
        invariant conditionTransitions == old(conditionTransitions) + multiset(TransitionsOver(before, after, kinds[..i]))
      {
        var kind := kinds[i];
        var b, a := Find(before, kind), Find(after, kind);
        TransitionsSnoc(before, after, kinds, i);
        if a.None? || (b.Some? && b.value.status == a.value.status) {
          continue;
        }
        conditionTransitions := conditionTransitions + multiset{Series(kind, a.value.status)};
      }
      assert kinds[..3] == kinds;
      ThreeTransitions(before, after);
    }
  }

  function TransitionsOver(before: seq<Condition>, after: seq<Condition>, kinds: seq<string>): seq<Series> {
    if kinds == [] then []
    else TransitionsOver(before, after, kinds[..|kinds| - 1]) + Transition(before, after, kinds[|kinds| - 1])
  }

  lemma TransitionsSnoc(before: seq<Condition>, after: seq<Condition>, kinds: seq<string>, i: nat)
    requires i < |kinds|
    ensures var b, a := Find(before, kinds[i]), Find(after, kinds[i]);
      var sofar := multiset(TransitionsOver(before, after, kinds[..i]));
      multiset(TransitionsOver(before, after, kinds[..i + 1]))
      == if a.None? || (b.Some? && b.value.status == a.value.status) then sofar
         else sofar + multiset{Series(kinds[i], a.value.status)}
  {
    assert kinds[..i + 1][..i] == kinds[..i];
  }

  lemma ThreeTransitions(before: seq<Condition>, after: seq<Condition>)
    ensures TransitionsOver(before, after, [AVAILABLE, PROGRESSING, DEGRADED]) == Transitions(before, after)
  {
    var a, ap, apd := [AVAILABLE], [AVAILABLE, PROGRESSING], [AVAILABLE, PROGRESSING, DEGRADED];
    assert apd[..2] == ap && ap[..1] == a && a[..0] == [];
    assert TransitionsOver(before, after, a) == Transition(before, after, AVAILABLE);
  }

  // ----- The local copy of a ManagedService (managedservice_status.go, lines 43-163)

  class LocalCopy {
    const ms: ManagedService
    var observedGeneration: int
    var readyReplicas: int
    var endpoint: string
    var conditions: seq<Condition>

    function Current(): Status
      reads this
    {
      Status(observedGeneration, readyReplicas, endpoint, conditions)
    }

    constructor (ms: ManagedService)
      ensures this.ms == ms && Current() == ms.status
    {
      this.ms := ms;
      observedGeneration, readyReplicas := ms.status.observedGeneration, ms.status.readyReplicas;
      endpoint, conditions := ms.status.endpoint, ms.status.conditions;
    }

    /** The index of the first condition of that type. */
    method IndexOf(kind: string) returns (i: nat)
      ensures i <= |conditions| && (i < |conditions| ==> conditions[i].kind == kind)
      ensures forall j | 0 <= j < i :: conditions[j].kind != kind
    {
      i := 0;
      while i < |conditions| && conditions[i].kind != kind
        invariant i <= |conditions| && forall j | 0 <= j < i :: conditions[j].kind != kind
      {
        i := i + 1;
      }
    }

    method SetCondition(kind: string, status: ConditionStatus, reason: string, message: string, now: int)
      modifies this`conditions
      ensures conditions == Upsert(old(conditions), Condition(kind, status, reason, message, ms.Generation(), 0), now)
    {
      ghost var wanted := Condition(kind, status, reason, message, ms.Generation(), 0);
      var i := IndexOf(kind);
      UpsertAt(conditions, wanted, now, i);
      if i == |conditions| {
        conditions := conditions + [Condition(kind, status, reason, message, ms.Generation(), now)];
      } else {
        var current := conditions[i];
        if current.status != status {
          current := current.(status := status, lastTransitionTime := now);
        }
        current := current.(reason := reason, message := message, observedGeneration := ms.Generation());
        conditions := conditions[i := current];
      }
    }

    /** The status of a successful reconciliation. */
    method Succeed(key: Key, ready: int, now: int)
      requires Current() == ms.status
      modifies this
      ensures Current() == StatusFor(key, ms, Plan.Succeed(ready), now)
      ensures Addresses.LabelKey(key) ==> Addresses.NamesService(endpoint, key)
    {
      ghost var wanted := Wanted(ms.CurrentSpec(), ms.Generation(), Plan.Succeed(ready));
      ghost var was := conditions;
      observedGeneration := ms.Generation();
      readyReplicas := ready;
      endpoint := Endpoint(key);
      if Addresses.LabelKey(key) { Addresses.EndpointNamesService(key, endpoint); }
      if ready >= DesiredReplicas(ms.CurrentSpec()) {
        SetCondition(AVAILABLE, True, WORKLOAD_AVAILABLE, "Deployment has the desired number of ready replicas", now);
        SetCondition(PROGRESSING, False, WORKLOAD_AVAILABLE, "Reconciliation succeeded", now);
      } else {
        SetCondition(AVAILABLE, False, WORKLOAD_PROGRESSING, "Deployment is waiting for ready replicas", now);
        SetCondition(PROGRESSING, True, WORKLOAD_PROGRESSING, "Deployment is waiting for ready replicas", now);
      }
      SetCondition(DEGRADED, False, RECONCILIATION_SUCCEEDED, "Reconciliation succeeded", now);
      UpsertThree(was, wanted, now);
    }

    /** The status of a failed reconciliation. */
    method Degrade(key: Key, reason: string, message: string, now: int)
      requires Current() == ms.status
      modifies this
      ensures Current() == StatusFor(key, ms, Plan.Degrade(reason, message), now)
    {
      ghost var wanted := Wanted(ms.CurrentSpec(), ms.Generation(), Plan.Degrade(reason, message));
      ghost var was := conditions;
      observedGeneration := ms.Generation();
      readyReplicas := 0;
      endpoint := "";
      SetCondition(AVAILABLE, False, RECONCILIATION_FAILED, "Reconciliation failed", now);
      SetCondition(PROGRESSING, False, RECONCILIATION_FAILED, "Reconciliation failed", now);
      SetCondition(DEGRADED, True, reason, message, now);
      UpsertThree(was, wanted, now);
    }
  }

  /** An upsert rewrites the first condition of the type, or appends. */
  lemma {:induction false} UpsertAt(cs: seq<Condition>, c: Condition, now: int, i: nat)
    requires i <= |cs| && (i < |cs| ==> cs[i].kind == c.kind) && forall j | 0 <= j < i :: cs[j].kind != c.kind
    ensures Upsert(cs, c, now)
            == if i == |cs| then cs + [c.(lastTransitionTime := now)] else cs[i := Refresh(cs[i], c, now)]
  {
    if i > 0 {
      assert forall j | 0 <= j < i - 1 :: cs[1..][j].kind != c.kind;
      UpsertAt(cs[1..], c, now, i - 1);
      assert cs == [cs[0]] + cs[1..];
    } else if cs != [] {
      assert cs[0 := Refresh(cs[0], c, now)] == [Refresh(cs[0], c, now)] + cs[1..];
    }
  }

  // ----- The API server, as the operator's client sees it

  class Cluster {
    var services: map<Key, ManagedService>
    var deployments: map<Key, Deployment>
    var kubeServices: map<Key, Service>
    var queue: set<Key>
    var clock: nat

    /** The cluster's share of the world. */
    function Snapshot(): World
      reads this
    {
      World(services, deployments, kubeServices, queue, map[], clock, multiset{}, multiset{})
    }

    constructor (w: World)
      ensures Snapshot() == w.(locals := map[], transitions := multiset{}, outcomes := multiset{})
    {
      services, deployments, kubeServices := w.services, w.deployments, w.kubeServices;
      queue, clock := w.queue, w.clock;
    }

    /** Time passes without an API call. */
    method Tick()
      modifies this`clock
      ensures Snapshot() == Ticked(old(Snapshot()))
    {
      clock := clock + 1;
    }

    method GetManagedService(key: Key, fault: Option<Fault>) returns (r: Result<ManagedService, ApiError>)
      modifies this`clock
      ensures Snapshot() == Ticked(old(Snapshot()))
      ensures r == if fault.Some? then Err(Failure(fault.value.text))
                   else if key !in services then Err(NotFound) else Ok(services[key])
    {
      clock := clock + 1;
      if fault.Some? { return Err(Failure(fault.value.text)); }
      if key !in services { return Err(NotFound); }
      return Ok(services[key]);
    }

    method GetDeployment(key: Key, fault: Option<Fault>) returns (r: Result<Deployment, ApiError>)
      modifies this`clock
      ensures Snapshot() == Ticked(old(Snapshot()))
      ensures r == if fault.Some? then Err(Failure(fault.value.text))
                   else if key !in deployments then Err(NotFound) else Ok(deployments[key])
    {
      clock := clock + 1;
      if fault.Some? { return Err(Failure(fault.value.text)); }
      if key !in deployments { return Err(NotFound); }
      return Ok(deployments[key]);
    }

    method GetService(key: Key, fault: Option<Fault>) returns (r: Result<Service, ApiError>)
      modifies this`clock
      ensures Snapshot() == Ticked(old(Snapshot()))
      ensures r == if fault.Some? then Err(Failure(fault.value.text))
                   else if key !in kubeServices then Err(NotFound) else Ok(kubeServices[key])
    {
      clock := clock + 1;
      if fault.Some? { return Err(Failure(fault.value.text)); }
      if key !in kubeServices { return Err(NotFound); }
      return Ok(kubeServices[key]);
    }

    /** Create (nothing seen) or Update (of what was seen); the owners before and after are notified. */
    method SubmitDeployment(key: Key, seen: Option<Deployment>, wanted: Deployment, fault: Option<Fault>)
      returns (r: Result<Deployment, ApiError>)
      modifies this`deployments, this`queue, this`clock
      ensures var answer := Operator.SubmitDeployment(Lookup(old(deployments), key), seen, wanted, old(clock));
        && r == Told(answer, fault)
        && Snapshot() == Ticked(if Applied(answer, fault) then WithDeployment(old(Snapshot()), key, answer.value) else old(Snapshot()))
    {
      var stored := Lookup(deployments, key);
      var answer := Operator.SubmitDeployment(stored, seen, wanted, clock);
      if answer.Ok? && (fault.None? || fault.value.applied) {
        if stored != Some(answer.value) {
          queue := queue + OwnerRequests(DeploymentOwners(stored), key.namespace) + OwnerRequests(answer.value.owners, key.namespace);
        }
        deployments := deployments[key := answer.value];
      }
      clock := clock + 1;
      r := if fault.Some? then Err(Failure(fault.value.text)) else answer;
    }

    method SubmitService(key: Key, seen: Option<Service>, wanted: Service, fault: Option<Fault>)
      returns (r: Result<Service, ApiError>)
      modifies this`kubeServices, this`queue, this`clock
      ensures var answer := Operator.SubmitService(Lookup(old(kubeServices), key), seen, wanted, old(clock));
        && r == Told(answer, fault)
        && Snapshot() == Ticked(if Applied(answer, fault) then WithService(old(Snapshot()), key, answer.value) else old(Snapshot()))
    {
      var stored := Lookup(kubeServices, key);
      var answer := Operator.SubmitService(stored, seen, wanted, clock);
      if answer.Ok? && (fault.None? || fault.value.applied) {
        if stored != Some(answer.value) {
          queue := queue + OwnerRequests(ServiceOwners(stored), key.namespace) + OwnerRequests(answer.value.owners, key.namespace);
        }
        kubeServices := kubeServices[key := answer.value];
      }
      clock := clock + 1;
      r := if fault.Some? then Err(Failure(fault.value.text)) else answer;
    }

    /** The merge patch names the object only: it applies to whichever incarnation is stored. */
    method PatchStatus(key: Key, before: Status, after: Status, fault: Option<Fault>) returns (r: Result<ManagedService, ApiError>)
      modifies this`services, this`queue, this`clock
      ensures r == if fault.Some? then Err(Failure(fault.value.text))
                   else if key !in old(services) then Err(NotFound)
                   else Ok(old(services)[key].(status := MergePatch.Merge(old(services)[key].status, before, after)))
      ensures Snapshot() == Ticked(if r.Ok? then WithManagedService(old(Snapshot()), key, r.value) else old(Snapshot()))
    {
      clock := clock + 1;
      if fault.Some? { return Err(Failure(fault.value.text)); }
      if key !in services { return Err(NotFound); }
      var patched := services[key].(status := MergePatch.Merge(services[key].status, before, after));
      if services[key] != patched {
        queue := queue + {key};
      }
      services := services[key := patched];
      return Ok(patched);
    }
  }

  // ----- Runs as the reconciler records them

  /** Consecutive worlds, each the step of the one before under the event between them. */
  ghost predicate IsRun(step: (World, Event) -> World, history: seq<World>, trace: seq<Event>) {
    && |history| == |trace| + 1
    && forall i | 0 <= i < |trace| :: history[i + 1] == step(history[i], trace[i])
  }

  /** A recorded run is a run. */
  lemma {:induction false} RecordedRun(cfg: Config, step: (World, Event) -> World, history: seq<World>, trace: seq<Event>)
    requires StepsAs(cfg, step) && IsRun(step, history, trace)
    ensures history[|trace|] == Run(cfg, history[0], trace)
    decreases |trace|
  {
    if trace != [] {
      var n := |trace| - 1;
      RecordedRun(cfg, step, history[..n + 1], trace[..n]);
      assert step(history[n], trace[n]) == Step(cfg, history[n], trace[n]);
    }
  }

  /** A step that is not this key's own leaves its reconciliation where it is. */
  lemma OthersKeepLocal(cfg: Config, w: World, e: Event, key: Key)
    requires e.Operate? ==> e.key != key
    ensures Lookup(Step(cfg, w, e).locals, key) == Lookup(w.locals, key)
  {
    StepAt(cfg, w, e, key);
    if e.Environment? {
      StepFacts.ChangedCases(At(w, e.key), e.change, w.clock);
    }
  }

  /** The closure would leave alone what the server takes from it. */
  lemma AnswerSettled(
    cfg: Config, key: Key, ms: ManagedService, seen: Option<Deployment>, wanted: Deployment, stored: Option<Deployment>,
    stamp: nat)
    requires Ok(wanted) == MutateDeployment(cfg, key, ms, DeploymentBase(seen))
    ensures var answer := Operator.SubmitDeployment(stored, seen, wanted, stamp);
      answer.Ok? ==> DeploymentSettled(cfg, key, ms, answer.value)
  {
    var answer := Operator.SubmitDeployment(stored, seen, wanted, stamp);
    if answer.Ok? {
      StepFacts.SubmittedDeployment(stored, seen, wanted, stamp);
      StoredDeploymentSettled(cfg, key, ms, DeploymentBase(seen), answer.value);
    }
  }

  lemma ServiceAnswerSettled(
    key: Key, ms: ManagedService, seen: Option<Service>, wanted: Service, stored: Option<Service>, stamp: nat)
    requires Ok(wanted) == MutateService(key, ms, ServiceBase(seen))
    ensures var answer := Operator.SubmitService(stored, seen, wanted, stamp);
      answer.Ok? ==> ServiceSettled(key, ms, answer.value)
  {
    var answer := Operator.SubmitService(stored, seen, wanted, stamp);
    if answer.Ok? {
      StepFacts.SubmittedService(stored, seen, wanted, stamp);
      StoredServiceSettled(key, ms, ServiceBase(seen), answer.value, stamp);
    }
  }

  // ----- The reconciler (managedservice_controller.go, lines 66-122)

  class ManagedServiceReconciler {
    const cfg: Config
    const cluster: Cluster
    const metrics: ManagedServiceMetrics
    /** Who acts before each API call; nobody once it is used up. */
    var schedule: seq<Turn>
    /** Where the reconciliation of every key is. */
    var locals: map<Key, Local>
    /** The steps of the Operator module under `cfg`. */
    ghost const step: (World, Event) -> World
    ghost var history: seq<World>
    ghost var trace: seq<Event>

    function World(): World
      reads this, cluster, metrics
    {
      cluster.Snapshot().(
        locals := locals, transitions := metrics.conditionTransitions, outcomes := metrics.reconciliations)
    }

    ghost predicate Recorded()
      reads this
    {
      StepsAs(cfg, step) && IsRun(step, history, trace)
    }

    ghost predicate Valid()
      reads this, cluster, metrics
    {
      Recorded() && history[|trace|] == World()
    }

    /** The reconciliation of `key` has reached `l`. */
    predicate AtStage(key: Key, l: Local)
      reads this
    {
      key in locals && locals[key] == l
    }

    constructor (cfg: Config, w: World, schedule: seq<Turn>)
      requires w.transitions == multiset{} && w.outcomes == multiset{}
      ensures Valid() && fresh(cluster) && fresh(metrics)
      ensures World() == w && history == [w] && trace == [] && this.cfg == cfg
    {
      this.cfg := cfg;
      step := (w: World, e: Event) => Step(cfg, w, e);
      cluster := new Cluster(w);
      metrics := new ManagedServiceMetrics();
      this.schedule := schedule;
      locals := w.locals;
      history := [w];
      trace := [];
    }

    /** Records that the world has taken the step `e` from the last recorded one. */
    ghost method Record(e: Event)
      requires Recorded() && World() == step(history[|trace|], e)
      modifies this`history, this`trace
      ensures Valid()
      ensures history == old(history) + [World()] && trace == old(trace) + [e]
    {
      history := history + [World()];
      trace := trace + [e];
    }

    /** Others act; the reconciliation of `key` stays where it is. */
    method Interfere(key: Key) returns (turn: Turn)
      requires Valid() && key in locals
      modifies this, cluster, metrics
      ensures Valid() && Lookup(locals, key) == old(Lookup(locals, key))
      ensures old(history) <= history && old(trace) <= trace
      ensures forall i | |old(trace)| <= i < |trace| :: trace[i].Operate? ==> trace[i].key != key
    {
      if schedule == [] {
        return Turn([], None, 0);
      }
      turn := schedule[0];
      schedule := schedule[1..];
      for i := 0 to |turn.events|
        invariant Valid() && Lookup(locals, key) == old(Lookup(locals, key))
        invariant old(history) <= history && old(trace) <= trace
        invariant forall j | |old(trace)| <= j < |trace| :: trace[j].Operate? ==> trace[j].key != key
      {
        var e := turn.events[i];
        if !(e.Operate? && e.key == key) {
          Foreign(key, e);
        }
      }
    }

    /** The cluster, the metrics and the stages become those of `w`. */
    method Become(w: World)
      modifies cluster, metrics, this`locals
      ensures World() == w
    {
      cluster.services, cluster.deployments, cluster.kubeServices := w.services, w.deployments, w.kubeServices;
      cluster.queue, cluster.clock := w.queue, w.clock;
      metrics.conditionTransitions, metrics.reconciliations := w.transitions, w.outcomes;
      locals := w.locals;
    }

    /** One event by others. */
    method Foreign(key: Key, e: Event)
      requires Valid() && (e.Operate? ==> e.key != key)
      modifies this`locals, this`history, this`trace, cluster, metrics
      ensures Valid() && Lookup(locals, key) == old(Lookup(locals, key))
      ensures history == old(history) + [World()] && trace == old(trace) + [e]
    {
      var w := Step(cfg, World(), e);
      OthersKeep(World(), w, e, key);
      Become(w);
      Record(e);
    }

    lemma OthersKeep(before: World, after: World, e: Event, key: Key)
      requires Recorded() && (e.Operate? ==> e.key != key) && after == Step(cfg, before, e)
      ensures after == step(before, e) && Lookup(after.locals, key) == Lookup(before.locals, key)
    {
      OthersKeepLocal(cfg, before, e, key);
    }

    // ----- CreateOrUpdate of the Deployment

    /** The Get of CreateOrUpdate. */
    method FetchDeployment(key: Key, ms: ManagedService) returns (r: Result<Option<Deployment>, ApiError>)
      requires Valid() && AtStage(key, ReadDeployment(ms))
      modifies this, cluster, metrics
      ensures Valid() && old(history) <= history && old(trace) <= trace
      ensures AtStage(key, if r.Ok? then WriteDeployment(ms, r.value) else DeploymentFailed(ms, r.error))
    {
      var turn := Interfere(key);
      ReadDeploymentForm(cfg, step, World(), key, ms, turn.fault, turn.now);
      var got := cluster.GetDeployment(key, turn.fault);
      if got.Err? && got.error != NotFound {
        r := Err(got.error);
        locals := locals[key := DeploymentFailed(ms, got.error)];
      } else {
        r := Ok(if got.Ok? then Some(got.value) else None);
        locals := locals[key := WriteDeployment(ms, r.value)];
      }
      Record(Operate(key, turn.fault, turn.now));
    }

    /** The mutate closure, field by field. */
    method MutateDeploymentInPlace(key: Key, ms: ManagedService, base: Deployment) returns (r: Result<Deployment, ApiError>)
      ensures r == MutateDeployment(cfg, key, ms, base)
    {
      var deployment, spec := base, ms.CurrentSpec();
      var owners := SetControllerReference(deployment.owners, key, ms.uid);
      if owners.Err? {
        return Err(owners.error);
      }
      deployment := deployment.(owners := owners.value);
      deployment := deployment.(labels := Labels(key, spec));
      deployment := deployment.(replicas := Some(DesiredReplicas(spec)));
      deployment := deployment.(selector := LabelSelector(Selector(key), []));
      deployment := deployment.(templateLabels := PodLabels(key, spec));
      deployment := deployment.(podSpec := DesiredPodSpec(cfg, spec));
      return Ok(deployment);
    }

    /** The Create or Update of CreateOrUpdate. */
    method SendDeployment(key: Key, ms: ManagedService, seen: Option<Deployment>, wanted: Deployment, turn: Turn)
      returns (r: Result<Deployment, ApiError>)
      requires Valid() && AtStage(key, WriteDeployment(ms, seen))
      requires Ok(wanted) == MutateDeployment(cfg, key, ms, DeploymentBase(seen)) && seen != Some(wanted)
      modifies this, cluster
      ensures Valid() && AtStage(key, AfterDeployment(ms, r))
      ensures history == old(history) + [World()] && trace == old(trace) + [Operate(key, turn.fault, turn.now)]
      ensures r == Told(Operator.SubmitDeployment(Lookup(old(cluster.deployments), key), seen, wanted, old(cluster.clock)), turn.fault)
    {
      DeploymentSentForm(cfg, step, World(), key, ms, seen, wanted, turn.fault, turn.now);
      r := cluster.SubmitDeployment(key, seen, wanted, turn.fault);
      locals := locals[key := AfterDeployment(ms, r)];
      Record(Operate(key, turn.fault, turn.now));
    }

    /** Compare, then send if anything differs. */
    method StoreDeployment(key: Key, ms: ManagedService, seen: Option<Deployment>) returns (r: Result<Deployment, ApiError>)
      requires Valid() && AtStage(key, WriteDeployment(ms, seen))
      modifies this, cluster, metrics
      ensures Valid() && old(history) <= history && old(trace) <= trace
      ensures AtStage(key, AfterDeployment(ms, r))
      ensures r.Ok? ==> DeploymentSettled(cfg, key, ms, r.value)
    {
      var turn := Interfere(key);
      var wanted := MutateDeploymentInPlace(key, ms, DeploymentBase(seen));
      if wanted.Err? || seen == Some(wanted.value) {
        DeploymentKeptForm(cfg, step, World(), key, ms, seen, wanted, turn.fault, turn.now);
        cluster.Tick();
        r := wanted;
        locals := locals[key := AfterDeployment(ms, r)];
        Record(Operate(key, turn.fault, turn.now));
      } else {
        AnswerSettled(cfg, key, ms, seen, wanted.value, Lookup(cluster.deployments, key), cluster.clock);
        r := SendDeployment(key, ms, seen, wanted.value, turn);
      }
    }

    method ReconcileDeployment(key: Key, ms: ManagedService) returns (r: Result<Deployment, ApiError>)
      requires Valid() && AtStage(key, ReadDeployment(ms))
      modifies this, cluster, metrics
      ensures Valid() && old(history) <= history && old(trace) <= trace
      ensures AtStage(key, AfterDeployment(ms, r))
      ensures r.Ok? ==> Workload.Runs(cfg, key, ms.CurrentSpec(), r.value)
    {
      var seen := FetchDeployment(key, ms);
      if seen.Err? {
        return Err(seen.error);
      }
      r := StoreDeployment(key, ms, seen.value);
      if r.Ok? { Workload.SettledRuns(cfg, key, ms, r.value); }
    }

    // ----- CreateOrUpdate of the Service

    method FetchService(key: Key, ms: ManagedService, n: int) returns (r: Result<Option<Service>, ApiError>)
      requires Valid() && AtStage(key, ReadService(ms, n))
      modifies this, cluster, metrics
      ensures Valid() && old(history) <= history && old(trace) <= trace
      ensures AtStage(key, if r.Ok? then WriteService(ms, n, r.value) else ServiceFailed(ms, r.error))
    {
      var turn := Interfere(key);
      ReadServiceForm(cfg, step, World(), key, ms, n, turn.fault, turn.now);
      var got := cluster.GetService(key, turn.fault);
      if got.Err? && got.error != NotFound {
        r := Err(got.error);
        locals := locals[key := ServiceFailed(ms, got.error)];
      } else {
        r := Ok(if got.Ok? then Some(got.value) else None);
        locals := locals[key := WriteService(ms, n, r.value)];
      }
      Record(Operate(key, turn.fault, turn.now));
    }

    method MutateServiceInPlace(key: Key, ms: ManagedService, base: Service) returns (r: Result<Service, ApiError>)
      ensures r == MutateService(key, ms, base)
    {
      var service := base;
      var owners := SetControllerReference(service.owners, key, ms.uid);
      if owners.Err? {
        return Err(owners.error);
      }
      service := service.(owners := owners.value);
      service := service.(labels := Labels(key, ms.CurrentSpec()));
      service := service.(serviceType := "ClusterIP");
      service := service.(selector := Selector(key));
      service := service.(ports := DesiredPorts());
      return Ok(service);
    }

    method SendService(key: Key, ms: ManagedService, n: int, seen: Option<Service>, wanted: Service, turn: Turn)
      returns (r: Result<Service, ApiError>)
      requires Valid() && AtStage(key, WriteService(ms, n, seen))
      requires Ok(wanted) == MutateService(key, ms, ServiceBase(seen)) && seen != Some(wanted)
      modifies this, cluster
      ensures Valid() && AtStage(key, AfterService(ms, n, r))
      ensures history == old(history) + [World()] && trace == old(trace) + [Operate(key, turn.fault, turn.now)]
      ensures r == Told(Operator.SubmitService(Lookup(old(cluster.kubeServices), key), seen, wanted, old(cluster.clock)), turn.fault)
    {
      ServiceSentForm(cfg, step, World(), key, ms, n, seen, wanted, turn.fault, turn.now);
      r := cluster.SubmitService(key, seen, wanted, turn.fault);
      locals := locals[key := AfterService(ms, n, r)];
      Record(Operate(key, turn.fault, turn.now));
    }

    method StoreService(key: Key, ms: ManagedService, n: int, seen: Option<Service>) returns (r: Result<Service, ApiError>)
      requires Valid() && AtStage(key, WriteService(ms, n, seen))
      modifies this, cluster, metrics
      ensures Valid() && old(history) <= history && old(trace) <= trace
      ensures AtStage(key, AfterService(ms, n, r))
      ensures r.Ok? ==> ServiceSettled(key, ms, r.value)
    {
      var turn := Interfere(key);
      var wanted := MutateServiceInPlace(key, ms, ServiceBase(seen));
      if wanted.Err? || seen == Some(wanted.value) {
        ServiceKeptForm(cfg, step, World(), key, ms, n, seen, wanted, turn.fault, turn.now);
        cluster.Tick();
        r := wanted;
        locals := locals[key := AfterService(ms, n, r)];
        Record(Operate(key, turn.fault, turn.now));
      } else {
        ServiceAnswerSettled(key, ms, seen, wanted.value, Lookup(cluster.kubeServices, key), cluster.clock);
        r := SendService(key, ms, n, seen, wanted.value, turn);
      }
    }

    method ReconcileService(key: Key, ms: ManagedService, n: int) returns (r: Result<Service, ApiError>)
      requires Valid() && AtStage(key, ReadService(ms, n))
      modifies this, cluster, metrics
      ensures Valid() && old(history) <= history && old(trace) <= trace
      ensures AtStage(key, AfterService(ms, n, r))
      ensures r.Ok? ==> Workload.LeadsAnywhere(key, ms.CurrentSpec(), r.value)
    {
      var seen := FetchService(key, ms, n);
      if seen.Err? {
        return Err(seen.error);
      }
      r := StoreService(key, ms, n, seen.value);
      if r.Ok? { Workload.SettledLeads(key, ms, r.value); }
    }

    // ----- Status

    /** Everything of the step `e` has happened but what the reconciliation defers to its return. */
    ghost predicate Deferred(key: Key, e: Event, outcome: Outcome)
      reads this, cluster, metrics
    {
      && Recorded()
      && step(history[|trace|], e) == Finished(World(), key, outcome)
      && World().outcomes == history[|trace|].outcomes
    }

    /** What the step at the status patch comes to. */
    lemma StatusTurn(key: Key, ms: ManagedService, plan: Plan, after: Status, turn: Turn)
      requires Recorded() && AtStage(key, WriteStatus(ms, plan)) && after == StatusFor(key, ms, plan, turn.now)
      ensures step(World(), Operate(key, turn.fault, turn.now))
              == Returned(AfterPatch(World(), key, ms, after, turn.fault), key,
                          StatusOutcome(plan, PatchFails(World(), key, ms, after, turn.fault)))
    {
      if after == ms.status || PatchFails(World(), key, ms, after, turn.fault) {
        StatusKeptForm(cfg, step, World(), key, ms, plan, after, turn.fault, turn.now);
      } else {
        StatusSentForm(cfg, step, World(), key, ms, plan, after, turn.now);
      }
    }

    /** The merge patch from the status that was read to the one in the local copy. */
    method SendStatusPatch(key: Key, before: Status, after: Status, fault: Option<Fault>)
      returns (r: Result<ManagedService, ApiError>)
      modifies cluster
      ensures r.Err? <==> fault.Some? || key !in old(World()).services
      ensures r.Ok? ==>
        && r.value == old(World()).services[key].(status := MergePatch.Merge(old(World()).services[key].status, before, after))
        && World() == Ticked(WithManagedService(old(World()), key, r.value))
      ensures r.Err? ==> World() == Ticked(old(World()))
    {
      r := cluster.PatchStatus(key, before, after, fault);
    }

    /** Sends the patch if the status differs; counts the transitions of an applied patch. */
    method PatchManagedServiceStatus(key: Key, ms: ManagedService, after: Status, fault: Option<Fault>) returns (patched: bool)
      modifies cluster, metrics`conditionTransitions
      ensures patched == !PatchFails(old(World()), key, ms, after, fault)
      ensures World() == Ticked(AfterPatch(old(World()), key, ms, after, fault))
    {
      if after == ms.status {
        cluster.Tick();
        return true;
      }
      var response := SendStatusPatch(key, ms.status, after, fault);
      if response.Err? {
        return false;
      }
      metrics.ObserveConditionTransitions(ms.status.conditions, Decoded(after.conditions, response.value.status.conditions));
      return true;
    }

    method UpdateManagedServiceStatus(key: Key, ms: ManagedService, n: int) returns (outcome: Outcome, ghost e: Event)
      requires Valid() && AtStage(key, WriteStatus(ms, Plan.Succeed(n)))
      modifies this, cluster, metrics
      ensures Deferred(key, e, outcome) && old(history) <= history && old(trace) <= trace
      ensures e.Operate? && e.key == key && !outcome.Requeue?
    {
      var turn := Interfere(key);
      e := Operate(key, turn.fault, turn.now);
      var copy := new LocalCopy(ms);
      copy.Succeed(key, n, turn.now);
      StatusTurn(key, ms, Plan.Succeed(n), copy.Current(), turn);
      var patched := PatchManagedServiceStatus(key, ms, copy.Current(), turn.fault);
      outcome := if patched then Success else Error;
    }

    method RecordDegradedStatus(key: Key, ms: ManagedService, reason: string, message: string)
      returns (outcome: Outcome, ghost e: Event)
      requires Valid() && AtStage(key, WriteStatus(ms, Plan.Degrade(reason, message)))
      modifies this, cluster, metrics
      ensures Deferred(key, e, outcome) && old(history) <= history && old(trace) <= trace
      ensures e.Operate? && e.key == key && outcome == Error
    {
      var turn := Interfere(key);
      e := Operate(key, turn.fault, turn.now);
      var copy := new LocalCopy(ms);
      copy.Degrade(key, reason, message, turn.now);
      StatusTurn(key, ms, Plan.Degrade(reason, message), copy.Current(), turn);
      var patched := PatchManagedServiceStatus(key, ms, copy.Current(), turn.fault);
      outcome := Error;
    }

    // ----- Reconcile

    /** The Get of Reconcile: a missing object ends it well, any other error ends it badly. */
    method FetchManagedService(key: Key) returns (r: Result<ManagedService, ApiError>, ghost e: Event)
      requires Valid() && AtStage(key, Popped)
      modifies this, cluster, metrics
      ensures old(history) <= history && old(trace) <= trace
      ensures r.Ok? ==> Valid() && AtStage(key, Gate(cfg, r.value))
      ensures r.Err? ==> Deferred(key, e, if r.error == NotFound then Success else Error)
      ensures e.Operate? && e.key == key
    {
      var turn := Interfere(key);
      e := Operate(key, turn.fault, turn.now);
      GetForm(cfg, step, World(), key, turn.fault, turn.now);
      r := cluster.GetManagedService(key, turn.fault);
      if r.Ok? {
        locals := locals[key := Gate(cfg, r.value)];
        Record(e);
      }
    }

    /** The body of Reconcile, up to its return. */
    method Attempt(key: Key) returns (outcome: Outcome, ghost e: Event)
      requires Valid() && AtStage(key, Popped)
      modifies this, cluster, metrics
      ensures Deferred(key, e, outcome) && old(history) <= history && old(trace) <= trace
      ensures e.Operate? && e.key == key && !outcome.Requeue?
    {
      var found;
      found, e := FetchManagedService(key);
      if found.Err? {
        outcome := if found.error == NotFound then Success else Error;
        return;
      }
      outcome, e := Proceed(key, found.value);
    }

    /** From the image gate on. */
    method Proceed(key: Key, ms: ManagedService) returns (outcome: Outcome, ghost e: Event)
      requires Valid() && AtStage(key, Gate(cfg, ms))
      modifies this, cluster, metrics
      ensures Deferred(key, e, outcome) && old(history) <= history && old(trace) <= trace
      ensures e.Operate? && e.key == key && !outcome.Requeue?
    {
      var image := Image.ValidateImmutableImage(cfg.image);
      if image.Err? {
        outcome, e := RecordDegradedStatus(key, ms, TEMPLATE_INVALID, ImageText(image.error));
        return;
      }
      var deployment := ReconcileDeployment(key, ms);
      if deployment.Err? {
        outcome, e := RecordDegradedStatus(key, ms, DEPLOYMENT_FAILED, DeploymentText(deployment.error));
        return;
      }
      outcome, e := ProceedToService(key, ms, deployment.value.readyReplicas);
    }

    /** From the Service on. */
    method ProceedToService(key: Key, ms: ManagedService, n: int) returns (outcome: Outcome, ghost e: Event)
      requires Valid() && AtStage(key, ReadService(ms, n))
      modifies this, cluster, metrics
      ensures Deferred(key, e, outcome) && old(history) <= history && old(trace) <= trace
      ensures e.Operate? && e.key == key && !outcome.Requeue?
    {
      var service := ReconcileService(key, ms, n);
      if service.Err? {
        outcome, e := RecordDegradedStatus(key, ms, SERVICE_FAILED, ServiceText(service.error));
        return;
      }
      outcome, e := UpdateManagedServiceStatus(key, ms, n);
    }

    /** The queue hands out `key`. */
    method Pop(key: Key)
      requires Valid() && key in cluster.queue && key !in locals
      modifies this, cluster
      ensures Valid() && AtStage(key, Popped)
      ensures old(history) <= history && old(trace) <= trace
    {
      PopForm(cfg, step, World(), key, 0);
      cluster.queue := cluster.queue - {key};
      cluster.Tick();
      locals := locals[key := Popped];
      Record(Operate(key, None, 0));
    }

    /** From the queue to the return. */
    method Begin(key: Key) returns (outcome: Outcome, ghost e: Event)
      requires Valid() && key in cluster.queue && key !in locals
      modifies this, cluster, metrics
      ensures Deferred(key, e, outcome) && old(history) <= history && old(trace) <= trace
      ensures e.Operate? && e.key == key && !outcome.Requeue?
    {
      Pop(key);
      outcome, e := Attempt(key);
    }

    /** The deferred metric, and the queue taking the key back after an error. */
    method Settle(key: Key, outcome: Outcome, ghost e: Event)
      requires Deferred(key, e, outcome) && !outcome.Requeue?
      modifies this, cluster, metrics
      ensures Valid() && World() == Finished(old(World()), key, outcome)
      ensures key !in locals && (outcome == Error ==> key in cluster.queue)
      ensures history == old(history) + [World()] && trace == old(trace) + [e]
      ensures World().outcomes == old(history[|trace|]).outcomes + multiset{outcome}
    {
      ghost var observed := metrics.ObserveReconciliation(0, false, outcome.Error?);
      if outcome.Error? {
        cluster.queue := cluster.queue + {key};
      }
      locals := locals - {key};
      Record(e);
    }

    /**
     One reconciliation of a queued key, from the work queue back to it. Whatever others do meanwhile, the
     worlds it goes through are a run of the state machine that ends with the key idle, and one outcome is
     counted for it.
     */
    method Reconcile(key: Key) returns (outcome: Outcome)
      requires Valid() && key in cluster.queue && key !in locals
      modifies this, cluster, metrics
      ensures Valid() && key !in locals && !outcome.Requeue?
      ensures old(history) <= history && old(trace) < trace
      ensures trace[|trace| - 1].Operate? && trace[|trace| - 1].key == key
      ensures World().outcomes == history[|trace| - 1].outcomes + multiset{outcome}
      ensures outcome == Error ==> key in cluster.queue
    {
      ghost var e;
      outcome, e := Begin(key);
      Settle(key, outcome, e);
    }
  }
}
