/** Each step of the operator as an explicit change of the world, for the imperative reconciler. */
module StepForms {
  import opened Wrappers
  import opened Objects
  import opened Children
  import opened Conditions
  import opened Operator
  import MergePatch

  /**
   `step` is the step function for `cfg`. The reconciler carries the function instead of its definition, so
   that its methods need no more of a step than the lemmas below say.
   */
  ghost predicate StepsAs(cfg: Config, step: (World, Event) -> World) {
    forall w, e {:trigger Step(cfg, w, e)} :: step(w, e) == Step(cfg, w, e)
  }

  function Ticked(w: World): World { w.(clock := w.clock + 1) }

  /** The reconciliation of `key` moves on to `l`. */
  function Moved(w: World, key: Key, l: Local): World { Ticked(w).(locals := w.locals[key := l]) }

  /** The deferred part of a return: the outcome is counted and an error puts the key back. */
  function Finished(w: World, key: Key, outcome: Outcome): World {
    w.(locals := w.locals - {key},
       queue := if outcome.Error? then w.queue + {key} else w.queue,
       outcomes := w.outcomes + multiset{outcome})
  }

  /** The reconciliation of `key` returns. */
  function Returned(w: World, key: Key, outcome: Outcome): World { Finished(Ticked(w), key, outcome) }

  lemma StoreLookup<V>(m: map<Key, V>, key: Key)
    ensures Store(m, key, Lookup(m, key)) == m
  {
  }

  /** A step that leaves the objects alone. */
  lemma CommitMoved(w: World, key: Key, l: Local, queued: bool)
    requires queued == (key in w.queue)
    ensures Commit(w, key, Goto(At(w, key), l), {}) == Moved(w, key, l)
  {
    StoreLookup(w.services, key);
    StoreLookup(w.deployments, key);
    StoreLookup(w.kubeServices, key);
    assert (if key in w.queue then w.queue + {key} else w.queue - {key}) + {} == w.queue;
  }

  lemma CommitReturned(w: World, key: Key, outcome: Outcome)
    ensures Commit(w, key, Return(At(w, key), outcome), {}) == Returned(w, key, outcome)
  {
    StoreLookup(w.services, key);
    StoreLookup(w.deployments, key);
    StoreLookup(w.kubeServices, key);
    assert (if key in w.queue || outcome.Error? then w.queue + {key} else w.queue - {key}) + {}
        == if outcome.Error? then w.queue + {key} else w.queue;
  }

  lemma PopForm(cfg: Config, step: (World, Event) -> World, w: World, key: Key, now: int)
    requires StepsAs(cfg, step)
    requires key in w.queue && key !in w.locals
    ensures step(w, Operate(key, None, now)) == Moved(w, key, Popped).(queue := w.queue - {key})
  {
    assert step(w, Operate(key, None, now)) == Step(cfg, w, Operate(key, None, now));
    StoreLookup(w.services, key);
    StoreLookup(w.deployments, key);
    StoreLookup(w.kubeServices, key);
    var before := At(w, key);
    var r := Goto(before.(queued := false), Popped);
    assert Notified(key, before, r.cell) == {};
    assert Commit(w, key, r, {}) == Moved(w, key, Popped).(queue := w.queue - {key});
  }

  lemma GetForm(cfg: Config, step: (World, Event) -> World, w: World, key: Key, fault: Option<Fault>, now: int)
    requires StepsAs(cfg, step)
    requires key in w.locals && w.locals[key] == Popped
    ensures step(w, Operate(key, fault, now))
            == if fault.Some? then Returned(w, key, Error)
               else if key !in w.services then Returned(w, key, Success)
               else Moved(w, key, Gate(cfg, w.services[key]))
  {
    assert step(w, Operate(key, fault, now)) == Step(cfg, w, Operate(key, fault, now));
    var before := At(w, key);
    if fault.Some? {
      CommitReturned(w, key, Error);
    } else if key !in w.services {
      CommitReturned(w, key, Success);
    } else {
      CommitMoved(w, key, Gate(cfg, w.services[key]), key in w.queue);
    }
  }

  lemma ReadDeploymentForm(cfg: Config, step: (World, Event) -> World, w: World, key: Key, ms: ManagedService, fault: Option<Fault>, now: int)
    requires StepsAs(cfg, step)
    requires key in w.locals && w.locals[key] == ReadDeployment(ms)
    ensures step(w, Operate(key, fault, now))
            == Moved(w, key, if fault.Some? then DeploymentFailed(ms, Failure(fault.value.text))
                             else WriteDeployment(ms, Lookup(w.deployments, key)))
  {
    assert step(w, Operate(key, fault, now)) == Step(cfg, w, Operate(key, fault, now));
    CommitMoved(w, key, if fault.Some? then DeploymentFailed(ms, Failure(fault.value.text))
                        else WriteDeployment(ms, Lookup(w.deployments, key)), key in w.queue);
  }

  lemma ReadServiceForm(cfg: Config, step: (World, Event) -> World, w: World, key: Key, ms: ManagedService, n: int, fault: Option<Fault>, now: int)
    requires StepsAs(cfg, step)
    requires key in w.locals && w.locals[key] == ReadService(ms, n)
    ensures step(w, Operate(key, fault, now))
            == Moved(w, key, if fault.Some? then ServiceFailed(ms, Failure(fault.value.text))
                             else WriteService(ms, n, Lookup(w.kubeServices, key)))
  {
    assert step(w, Operate(key, fault, now)) == Step(cfg, w, Operate(key, fault, now));
    CommitMoved(w, key, if fault.Some? then ServiceFailed(ms, Failure(fault.value.text))
                        else WriteService(ms, n, Lookup(w.kubeServices, key)), key in w.queue);
  }

  /** The world with a new Deployment stored at `key`, its watchers notified. */
  function WithDeployment(w: World, key: Key, d: Deployment): World {
    w.(deployments := w.deployments[key := d],
       queue := if Lookup(w.deployments, key) == Some(d) then w.queue
                else w.queue + OwnerRequests(DeploymentOwners(Lookup(w.deployments, key)), key.namespace)
                     + OwnerRequests(d.owners, key.namespace))
  }

  function WithService(w: World, key: Key, s: Service): World {
    w.(kubeServices := w.kubeServices[key := s],
       queue := if Lookup(w.kubeServices, key) == Some(s) then w.queue
                else w.queue + OwnerRequests(ServiceOwners(Lookup(w.kubeServices, key)), key.namespace)
                     + OwnerRequests(s.owners, key.namespace))
  }

  lemma CommitDeployment(w: World, key: Key, d: Deployment, l: Local)
    ensures var before := At(w, key);
      var r := Goto(before.(deployment := Some(d)), l).(wrote := true);
      Commit(w, key, r, Notified(key, before, r.cell)) == Moved(WithDeployment(w, key, d), key, l)
  {
    StoreLookup(w.services, key);
    StoreLookup(w.kubeServices, key);
    var before := At(w, key);
    var r := Goto(before.(deployment := Some(d)), l).(wrote := true);
    assert before.deployment == Some(d) || Notified(key, before, r.cell)
        == OwnerRequests(DeploymentOwners(before.deployment), key.namespace) + OwnerRequests(d.owners, key.namespace);
    assert Commit(w, key, r, Notified(key, before, r.cell)).queue == WithDeployment(w, key, d).queue;
  }

  lemma CommitService(w: World, key: Key, s: Service, l: Local)
    ensures var before := At(w, key);
      var r := Goto(before.(service := Some(s)), l).(wrote := true);
      Commit(w, key, r, Notified(key, before, r.cell)) == Moved(WithService(w, key, s), key, l)
  {
    StoreLookup(w.services, key);
    StoreLookup(w.deployments, key);
    var before := At(w, key);
    var r := Goto(before.(service := Some(s)), l).(wrote := true);
    assert before.service == Some(s) || Notified(key, before, r.cell)
        == OwnerRequests(ServiceOwners(before.service), key.namespace) + OwnerRequests(s.owners, key.namespace);
    assert Commit(w, key, r, Notified(key, before, r.cell)).queue == WithService(w, key, s).queue;
  }

  // ----- The status patch

  /** The world with a new ManagedService stored at `key`, its watcher notified. */
  function WithManagedService(w: World, key: Key, ms: ManagedService): World {
    w.(services := w.services[key := ms],
       queue := if Lookup(w.services, key) == Some(ms) then w.queue else w.queue + {key})
  }

  lemma CommitPatched(w: World, key: Key, ms: ManagedService, counted: seq<Series>, outcome: Outcome)
    ensures var before := At(w, key);
      var r := Return(before.(ms := Some(ms)), outcome).(counted := counted, wrote := true);
      Commit(w, key, r, Notified(key, before, r.cell))
      == Returned(WithManagedService(w, key, ms), key, outcome).(transitions := w.transitions + multiset(counted))
  {
    StoreLookup(w.deployments, key);
    StoreLookup(w.kubeServices, key);
    var before := At(w, key);
    var r := Return(before.(ms := Some(ms)), outcome).(counted := counted, wrote := true);
    assert Notified(key, before, r.cell) == if before.ms == Some(ms) then {} else {key};
    assert Commit(w, key, r, Notified(key, before, r.cell)).queue == Returned(WithManagedService(w, key, ms), key, outcome).queue;
  }

  /** The patch is sent and refused. */
  predicate PatchFails(w: World, key: Key, ms: ManagedService, after: Status, fault: Option<Fault>) {
    after != ms.status && (fault.Some? || key !in w.services)
  }

  /** The world once the patch, if the status differs, has been sent and its transitions counted. */
  function AfterPatch(w: World, key: Key, ms: ManagedService, after: Status, fault: Option<Fault>): World {
    if after == ms.status || fault.Some? || key !in w.services then w
    else
      var merged := MergePatch.Merge(w.services[key].status, ms.status, after);
      WithManagedService(w, key, w.services[key].(status := merged))
        .(transitions := w.transitions + multiset(Transitions(ms.status.conditions, Decoded(after.conditions, merged.conditions))))
  }

  function StatusOutcome(plan: Plan, failed: bool): Outcome { if plan.Degrade? || failed then Error else Success }

  lemma StatusKeptForm(
    cfg: Config, step: (World, Event) -> World, w: World, key: Key, ms: ManagedService, plan: Plan, after: Status,
    fault: Option<Fault>, now: int)
    requires StepsAs(cfg, step) && key in w.locals && w.locals[key] == WriteStatus(ms, plan)
    requires after == StatusFor(key, ms, plan, now) && (after == ms.status || PatchFails(w, key, ms, after, fault))
    ensures step(w, Operate(key, fault, now)) == Returned(w, key, StatusOutcome(plan, after != ms.status))
  {
    assert step(w, Operate(key, fault, now)) == Step(cfg, w, Operate(key, fault, now));
    CommitReturned(w, key, StatusOutcome(plan, after != ms.status));
  }

  lemma StatusSentForm(
    cfg: Config, step: (World, Event) -> World, w: World, key: Key, ms: ManagedService, plan: Plan, after: Status, now: int)
    requires StepsAs(cfg, step) && key in w.locals && w.locals[key] == WriteStatus(ms, plan)
    requires after == StatusFor(key, ms, plan, now) && after != ms.status && key in w.services
    ensures step(w, Operate(key, None, now)) == Returned(AfterPatch(w, key, ms, after, None), key, StatusOutcome(plan, false))
  {
    var outcome := StatusOutcome(plan, false);
    var merged := MergePatch.Merge(w.services[key].status, ms.status, after);
    var counted := Transitions(ms.status.conditions, Decoded(after.conditions, merged.conditions));
    var patched := w.services[key].(status := merged);
    var before := At(w, key);
    var r := Return(before.(ms := Some(patched)), outcome).(counted := counted, wrote := true);
    CommitPatched(w, key, patched, counted, outcome);
    assert StatusStep(key, before, ms, plan, None, now) == r;
    assert step(w, Operate(key, None, now)) == Step(cfg, w, Operate(key, None, now));
    assert Step(cfg, w, Operate(key, None, now)) == Commit(w, key, r, Notified(key, before, r.cell));
  }

  // ----- The step that stores a child

  /** Whether a submitted child gets stored. */
  predicate Applied<T>(answer: Result<T, ApiError>, fault: Option<Fault>) {
    answer.Ok? && (fault.None? || fault.value.applied)
  }

  /** What the caller is told. */
  function Told<T>(answer: Result<T, ApiError>, fault: Option<Fault>): Result<T, ApiError> {
    if fault.Some? then Err(Failure(fault.value.text)) else answer
  }

  function AfterDeployment(ms: ManagedService, r: Result<Deployment, ApiError>): Local {
    match r
    case Ok(d) => ReadService(ms, d.readyReplicas)
    case Err(e) => DeploymentFailed(ms, e)
  }

  function AfterService(ms: ManagedService, n: int, r: Result<Service, ApiError>): Local {
    match r
    case Ok(_) => WriteStatus(ms, Succeed(n))
    case Err(e) => ServiceFailed(ms, e)
  }

  /** No submission: the closure failed, or changed nothing. */
  lemma DeploymentKeptForm(
    cfg: Config, step: (World, Event) -> World, w: World, key: Key, ms: ManagedService, seen: Option<Deployment>,
    wanted: Result<Deployment, ApiError>, fault: Option<Fault>, now: int)
    requires StepsAs(cfg, step) && key in w.locals && w.locals[key] == WriteDeployment(ms, seen)
    requires wanted == MutateDeployment(cfg, key, ms, DeploymentBase(seen))
    requires wanted.Err? || seen == Some(wanted.value)
    ensures step(w, Operate(key, fault, now)) == Moved(w, key, AfterDeployment(ms, wanted))
  {
    assert step(w, Operate(key, fault, now)) == Step(cfg, w, Operate(key, fault, now));
    CommitMoved(w, key, AfterDeployment(ms, wanted), key in w.queue);
  }

  lemma DeploymentSentForm(
    cfg: Config, step: (World, Event) -> World, w: World, key: Key, ms: ManagedService, seen: Option<Deployment>,
    wanted: Deployment, fault: Option<Fault>, now: int)
    requires StepsAs(cfg, step) && key in w.locals && w.locals[key] == WriteDeployment(ms, seen)
    requires Ok(wanted) == MutateDeployment(cfg, key, ms, DeploymentBase(seen)) && seen != Some(wanted)
    ensures var answer := SubmitDeployment(Lookup(w.deployments, key), seen, wanted, w.clock);
      step(w, Operate(key, fault, now))
      == Moved(if Applied(answer, fault) then WithDeployment(w, key, answer.value) else w,
               key, AfterDeployment(ms, Told(answer, fault)))
  {
    var answer := SubmitDeployment(Lookup(w.deployments, key), seen, wanted, w.clock);
    var l := AfterDeployment(ms, Told(answer, fault));
    assert step(w, Operate(key, fault, now)) == Step(cfg, w, Operate(key, fault, now));
    if Applied(answer, fault) {
      CommitDeployment(w, key, answer.value, l);
    } else {
      CommitMoved(w, key, l, key in w.queue);
    }
  }

  lemma ServiceKeptForm(
    cfg: Config, step: (World, Event) -> World, w: World, key: Key, ms: ManagedService, n: int, seen: Option<Service>,
    wanted: Result<Service, ApiError>, fault: Option<Fault>, now: int)
    requires StepsAs(cfg, step) && key in w.locals && w.locals[key] == WriteService(ms, n, seen)
    requires wanted == MutateService(key, ms, ServiceBase(seen))
    requires wanted.Err? || seen == Some(wanted.value)
    ensures step(w, Operate(key, fault, now)) == Moved(w, key, AfterService(ms, n, wanted))
  {
    assert step(w, Operate(key, fault, now)) == Step(cfg, w, Operate(key, fault, now));
    CommitMoved(w, key, AfterService(ms, n, wanted), key in w.queue);
  }

  lemma ServiceSentForm(
    cfg: Config, step: (World, Event) -> World, w: World, key: Key, ms: ManagedService, n: int, seen: Option<Service>,
    wanted: Service, fault: Option<Fault>, now: int)
    requires StepsAs(cfg, step) && key in w.locals && w.locals[key] == WriteService(ms, n, seen)
    requires Ok(wanted) == MutateService(key, ms, ServiceBase(seen)) && seen != Some(wanted)
    ensures var answer := SubmitService(Lookup(w.kubeServices, key), seen, wanted, w.clock);
      step(w, Operate(key, fault, now))
      == Moved(if Applied(answer, fault) then WithService(w, key, answer.value) else w,
               key, AfterService(ms, n, Told(answer, fault)))
  {
    var answer := SubmitService(Lookup(w.kubeServices, key), seen, wanted, w.clock);
    var l := AfterService(ms, n, Told(answer, fault));
    assert step(w, Operate(key, fault, now)) == Step(cfg, w, Operate(key, fault, now));
    if Applied(answer, fault) {
      CommitService(w, key, answer.value, l);
    } else {
      CommitMoved(w, key, l, key in w.queue);
    }
  }
}
