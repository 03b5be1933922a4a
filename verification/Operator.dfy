/**
 The operator and the cluster as one state machine. Every event concerns one key: a change by anyone
 else, or the next API call of the reconciliation of that key. A run is any sequence of events, so it
 covers every interleaving (internal/controller/managedservice_controller.go, lines 66-135).
 */
module Operator {
  import opened Wrappers
  import opened Objects
  import opened Children
  import opened Conditions
  import Image
  import MergePatch

  // ----- State

  /** How far the reconciliation of a key has come, with its local copies. */
  datatype Local =
    | Popped
    | ReadDeployment(ms: ManagedService)
    | WriteDeployment(ms: ManagedService, seenDeployment: Option<Deployment>)
    | ReadService(ms: ManagedService, readyReplicas: int)
    | WriteService(ms: ManagedService, readyReplicas: int, seenService: Option<Service>)
    | WriteStatus(ms: ManagedService, plan: Plan)

  /** Everything about one key. `queued` covers the work queue and the pending rate-limited retries. */
  datatype Cell = Cell(
    ms: Option<ManagedService>, deployment: Option<Deployment>, service: Option<Service>, queued: bool,
    local: Option<Local>)

  /** A label pair of the condition transition counter. */
  datatype Series = Series(condition: string, status: ConditionStatus)

  /** Labels of the reconciliation counter; Reconcile itself never asks for a requeue. */
  datatype Outcome = Success | Error | Requeue

  datatype World = World(
    services: map<Key, ManagedService>, deployments: map<Key, Deployment>, kubeServices: map<Key, Service>,
    queue: set<Key>, locals: map<Key, Local>, clock: nat,
    transitions: multiset<Series>, outcomes: multiset<Outcome>)

  // ----- Events

  /** What others do to a key's objects. `Resync` only enqueues. */
  datatype ForeignChange =
    | CreateManagedService(spec: Spec)
    | EditSpec(spec: Spec)
    | DeleteManagedService
    | PutDeployment(deployment: Deployment)
    | DeleteDeployment
    | SetReady(readyReplicas: int)
    | PutService(service: Service)
    | DeleteService
    | Resync

  /** An API call that returns an error; a child write may have been applied all the same. */
  datatype Fault = Fault(text: string, applied: bool)

  datatype Event =
    | Environment(key: Key, change: ForeignChange)
    | Operate(key: Key, fault: Option<Fault>, now: int)

  /** The effect of an event on its own key, and what it adds to the metrics. */
  datatype Effect = Effect(cell: Cell, counted: seq<Series>, outcome: Option<Outcome>, wrote: bool)

  // ----- The operator's next API call

  function ImageText(e: Image.ImageError): string {
    match e
    case NotPinned => "demo-http image must use an immutable @sha256 digest"
    case InvalidDigest => "demo-http image contains an invalid sha256 digest"
  }

  function DeploymentText(e: ApiError): string {
    "reconcile Deployment: " + (if e.AlreadyOwned? then "set Deployment controller reference: " else "") + e.Text()
  }

  function ServiceText(e: ApiError): string {
    "reconcile Service: " + (if e.AlreadyOwned? then "set Service controller reference: " else "") + e.Text()
  }

  /** After a successful Get: the image gate. */
  function Gate(cfg: Config, ms: ManagedService): Local {
    match Image.ValidateImmutableImage(cfg.image)
    case Ok(_) => ReadDeployment(ms)
    case Err(e) => WriteStatus(ms, Degrade(TEMPLATE_INVALID, ImageText(e)))
  }

  function DeploymentFailed(ms: ManagedService, e: ApiError): Local {
    WriteStatus(ms, Degrade(DEPLOYMENT_FAILED, DeploymentText(e)))
  }

  function ServiceFailed(ms: ManagedService, e: ApiError): Local {
    WriteStatus(ms, Degrade(SERVICE_FAILED, ServiceText(e)))
  }

  function Quiet(c: Cell): Effect { Effect(c, [], None, false) }

  function Goto(c: Cell, l: Local): Effect { Quiet(c.(local := Some(l))) }

  /** The reconciliation returns; an error puts the key back. */
  function Return(c: Cell, outcome: Outcome): Effect {
    Effect(c.(local := None, queued := c.queued || outcome.Error?), [], Some(outcome), false)
  }

  function DeploymentBase(seen: Option<Deployment>): Deployment {
    if seen.None? then BLANK_DEPLOYMENT else seen.value
  }

  function ServiceBase(seen: Option<Service>): Service {
    if seen.None? then BLANK_SERVICE else seen.value
  }

  /** The server's answer to the Create or Update that CreateOrUpdate issues. */
  function SubmitDeployment(
    stored: Option<Deployment>, seen: Option<Deployment>, wanted: Deployment, stamp: nat): Result<Deployment, ApiError>
  {
    if seen.None? then
      if stored.Some? then Err(AlreadyExists) else CreateDeployment(wanted, stamp)
    else
      if stored.None? then Err(NotFound) else UpdateDeployment(stored.value, wanted, stamp)
  }

  function SubmitService(
    stored: Option<Service>, seen: Option<Service>, wanted: Service, stamp: nat): Result<Service, ApiError>
  {
    if seen.None? then
      if stored.Some? then Err(AlreadyExists) else CreateService(wanted, stamp)
    else
      if stored.None? then Err(NotFound) else UpdateService(stored.value, wanted, stamp)
  }

  function DeploymentStep(
    cfg: Config, key: Key, c: Cell, ms: ManagedService, seen: Option<Deployment>, stamp: nat, fault: Option<Fault>): Effect
  {
    match MutateDeployment(cfg, key, ms, DeploymentBase(seen))
    case Err(e) => Goto(c, DeploymentFailed(ms, e))
    case Ok(wanted) =>
      if seen == Some(wanted) then Goto(c, ReadService(ms, wanted.readyReplicas))
      else
        var answer := SubmitDeployment(c.deployment, seen, wanted, stamp);
        match answer
        case Ok(d) =>
          if fault.None? then
            Goto(c.(deployment := Some(d)), ReadService(ms, d.readyReplicas)).(wrote := true)
          else if fault.value.applied then
            Goto(c.(deployment := Some(d)), DeploymentFailed(ms, Failure(fault.value.text))).(wrote := true)
          else Goto(c, DeploymentFailed(ms, Failure(fault.value.text)))
        case Err(e) =>
          Goto(c, DeploymentFailed(ms, if fault.None? then e else Failure(fault.value.text)))
  }

  function ServiceStep(
    key: Key, c: Cell, ms: ManagedService, readyReplicas: int, seen: Option<Service>, stamp: nat, fault: Option<Fault>): Effect
  {
    match MutateService(key, ms, ServiceBase(seen))
    case Err(e) => Goto(c, ServiceFailed(ms, e))
    case Ok(wanted) =>
      if seen == Some(wanted) then Goto(c, WriteStatus(ms, Succeed(readyReplicas)))
      else
        var answer := SubmitService(c.service, seen, wanted, stamp);
        match answer
        case Ok(s) =>
          if fault.None? then
            Goto(c.(service := Some(s)), WriteStatus(ms, Succeed(readyReplicas))).(wrote := true)
          else if fault.value.applied then
            Goto(c.(service := Some(s)), ServiceFailed(ms, Failure(fault.value.text))).(wrote := true)
          else Goto(c, ServiceFailed(ms, Failure(fault.value.text)))
        case Err(e) =>
          Goto(c, ServiceFailed(ms, if fault.None? then e else Failure(fault.value.text)))
  }

  function StatusOf(cs: seq<Condition>, kind: string): Option<ConditionStatus> {
    var f := Find(cs, kind);
    if f.None? then None else Some(f.value.status)
  }

  function Change(before: Option<ConditionStatus>, after: Option<ConditionStatus>, kind: string): seq<Series> {
    if after.None? || after == before then [] else [Series(kind, after.value)]
  }

  /** One condition type's share of observeConditionTransitions. */
  function Transition(before: seq<Condition>, after: seq<Condition>, kind: string): seq<Series> {
    Change(StatusOf(before, kind), StatusOf(after, kind), kind)
  }

  function Transitions(before: seq<Condition>, after: seq<Condition>): seq<Series> {
    Transition(before, after, AVAILABLE) + Transition(before, after, PROGRESSING) + Transition(before, after, DEGRADED)
  }

  /** The conditions in the local object once the patch response is decoded over it. */
  function Decoded(sent: seq<Condition>, response: seq<Condition>): seq<Condition> {
    if response == [] then sent else response
  }

  function StatusStep(key: Key, c: Cell, ms: ManagedService, plan: Plan, fault: Option<Fault>, now: int): Effect {
    var outcome := if plan.Degrade? then Error else Success;
    var after := StatusFor(key, ms, plan, now);
    if after == ms.status then Return(c, outcome)
    else if fault.Some? || c.ms.None? then Return(c, Error)
    else
      var merged := MergePatch.Merge(c.ms.value.status, ms.status, after);
      Return(c.(ms := Some(c.ms.value.(status := merged))), outcome)
        .(counted := Transitions(ms.status.conditions, Decoded(after.conditions, merged.conditions)), wrote := true)
  }

  function OperatorStep(cfg: Config, key: Key, c: Cell, stamp: nat, fault: Option<Fault>, now: int): Effect {
    match c.local
    case None => if c.queued then Goto(c.(queued := false), Popped) else Quiet(c)
    case Some(Popped) =>
      if fault.Some? then Return(c, Error)
      else if c.ms.None? then Return(c, Success)
      else Goto(c, Gate(cfg, c.ms.value))
    case Some(ReadDeployment(ms)) =>
      if fault.Some? then Goto(c, DeploymentFailed(ms, Failure(fault.value.text)))
      else Goto(c, WriteDeployment(ms, c.deployment))
    case Some(WriteDeployment(ms, seen)) => DeploymentStep(cfg, key, c, ms, seen, stamp, fault)
    case Some(ReadService(ms, n)) =>
      if fault.Some? then Goto(c, ServiceFailed(ms, Failure(fault.value.text)))
      else Goto(c, WriteService(ms, n, c.service))
    case Some(WriteService(ms, n, seen)) => ServiceStep(key, c, ms, n, seen, stamp, fault)
    case Some(WriteStatus(ms, plan)) => StatusStep(key, c, ms, plan, fault, now)
  }

  // ----- Everyone else

  function OrElse<T>(r: Result<T, ApiError>, current: Option<T>): Option<T> {
    if r.Ok? then Some(r.value) else current
  }

  function Changed(c: Cell, change: ForeignChange, stamp: nat): Cell {
    match change
    case CreateManagedService(spec) =>
      if c.ms.Some? then c else c.(ms := Some(ManagedService(stamp, [spec], EMPTY_STATUS)))
    case EditSpec(spec) =>
      if c.ms.None? || c.ms.value.CurrentSpec() == spec then c
      else c.(ms := Some(c.ms.value.(specs := c.ms.value.specs + [spec])))
    case DeleteManagedService => c.(ms := None)
    case PutDeployment(d) =>
      c.(deployment := OrElse(
        if c.deployment.None? then CreateDeployment(d, stamp)
        else UpdateDeployment(c.deployment.value, d.(resourceVersion := c.deployment.value.resourceVersion), stamp),
        c.deployment))
    case DeleteDeployment => c.(deployment := None)
    case SetReady(n) =>
      if c.deployment.None? then c
      else c.(deployment := Some(c.deployment.value.(resourceVersion := stamp, readyReplicas := n)))
    case PutService(s) =>
      c.(service := OrElse(
        if c.service.None? then CreateService(s, stamp)
        else UpdateService(c.service.value, s.(resourceVersion := c.service.value.resourceVersion), stamp),
        c.service))
    case DeleteService => c.(service := None)
    case Resync => c.(queued := true)
  }

  function EffectOf(cfg: Config, e: Event, c: Cell, stamp: nat): Effect {
    match e
    case Environment(_, change) => Quiet(Changed(c, change, stamp))
    case Operate(key, fault, now) => OperatorStep(cfg, key, c, stamp, fault, now)
  }

  // ----- Watches

  function DeploymentOwners(d: Option<Deployment>): seq<OwnerRef> { if d.None? then [] else d.value.owners }

  function ServiceOwners(s: Option<Service>): seq<OwnerRef> { if s.None? then [] else s.value.owners }

  /** The keys enqueued because a key's objects changed: its own, and the owners named before and after. */
  function Notified(key: Key, before: Cell, after: Cell): set<Key> {
    (if before.ms != after.ms then {key} else {})
    + (if before.deployment != after.deployment then
         OwnerRequests(DeploymentOwners(before.deployment), key.namespace)
         + OwnerRequests(DeploymentOwners(after.deployment), key.namespace)
       else {})
    + (if before.service != after.service then
         OwnerRequests(ServiceOwners(before.service), key.namespace)
         + OwnerRequests(ServiceOwners(after.service), key.namespace)
       else {})
  }

  function Enqueue(c: Cell, notified: bool): Cell { c.(queued := c.queued || notified) }

  // ----- Steps and runs

  function Lookup<V>(m: map<Key, V>, key: Key): Option<V> { if key in m then Some(m[key]) else None }

  function Store<V>(m: map<Key, V>, key: Key, value: Option<V>): map<Key, V> {
    if value.None? then m - {key} else m[key := value.value]
  }

  function At(w: World, key: Key): Cell {
    Cell(Lookup(w.services, key), Lookup(w.deployments, key), Lookup(w.kubeServices, key), key in w.queue, Lookup(w.locals, key))
  }

  /** Writes back the effect at `key`, enqueues, and moves the clock. */
  function Commit(w: World, key: Key, r: Effect, notified: set<Key>): World {
    World(
      Store(w.services, key, r.cell.ms), Store(w.deployments, key, r.cell.deployment),
      Store(w.kubeServices, key, r.cell.service),
      (if r.cell.queued then w.queue + {key} else w.queue - {key}) + notified,
      Store(w.locals, key, r.cell.local),
      w.clock + 1,
      w.transitions + multiset(r.counted),
      w.outcomes + (if r.outcome.None? then multiset{} else multiset{r.outcome.value}))
  }

  function Step(cfg: Config, w: World, e: Event): World {
    var before := At(w, e.key);
    var r := EffectOf(cfg, e, before, w.clock);
    Commit(w, e.key, r, Notified(e.key, before, r.cell))
  }

  function Run(cfg: Config, w: World, es: seq<Event>): World
    decreases |es|
  {
    if es == [] then w else Step(cfg, Run(cfg, w, es[..|es| - 1]), es[|es| - 1])
  }

  /** The state a step leaves at its own key. */
  function NextCell(cfg: Config, e: Event, c: Cell, stamp: nat): Cell {
    var r := EffectOf(cfg, e, c, stamp).cell;
    Enqueue(r, e.key in Notified(e.key, c, r))
  }

  lemma CommitAt(w: World, key: Key, r: Effect, notified: set<Key>, k: Key)
    ensures At(Commit(w, key, r, notified), k) == Enqueue(if k == key then r.cell else At(w, k), k in notified)
  {
  }

  /** A step acts on its own key; at any other key it can only enqueue. */
  lemma StepAt(cfg: Config, w: World, e: Event, key: Key)
    ensures key == e.key ==> At(Step(cfg, w, e), key) == NextCell(cfg, e, At(w, key), w.clock)
    ensures key != e.key ==>
      At(Step(cfg, w, e), key) == Enqueue(At(w, key), key in Notified(e.key, At(w, e.key), EffectOf(cfg, e, At(w, e.key), w.clock).cell))
  {
    var r := EffectOf(cfg, e, At(w, e.key), w.clock);
    CommitAt(w, e.key, r, Notified(e.key, At(w, e.key), r.cell), key);
  }

  lemma {:induction false} RunClock(cfg: Config, w: World, es: seq<Event>)
    ensures Run(cfg, w, es).clock == w.clock + |es|
  {
    if es != [] { RunClock(cfg, w, es[..|es| - 1]); }
  }

  /** A run in two parts. */
  lemma {:induction false} RunConcat(cfg: Config, w: World, es: seq<Event>, fs: seq<Event>)
    ensures Run(cfg, w, es + fs) == Run(cfg, Run(cfg, w, es), fs)
    decreases |fs|
  {
    if fs == [] {
      assert es + fs == es;
    } else {
      assert (es + fs)[..|es + fs| - 1] == es + fs[..|fs| - 1];
      RunConcat(cfg, w, es, fs[..|fs| - 1]);
    }
  }
}
