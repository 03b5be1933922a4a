/**
 The child objects: what the operator wants them to be, how its mutate closures get there, and what
 the API server does to a write (internal/controller/managedservice_resources.go, lines 37-329).
 */
module Children {
  import opened Wrappers
  import opened Objects

  /** The operator's flags. */
  datatype Config = Config(image: string, imagePullSecret: string)

  const CONTAINER_NAME := "demo-http"
  const CONTAINER_PORT := 8080
  const METRICS_PORT := 9090
  const SERVICE_PORT := 80
  const HTTP_PORT_NAME := "http"
  const METRICS_PORT_NAME := "metrics"
  const NAME_LABEL := "app.kubernetes.io/name"
  const INSTANCE_LABEL := "app.kubernetes.io/instance"
  const MANAGED_BY_LABEL := "app.kubernetes.io/managed-by"
  const TEMPLATE_LABEL := "platform.eoghanclancy.eu/template"
  const OTLP_CLIENT_LABEL := "observability.eoghanclancy.eu/otlp-client"
  const APPLICATION_NAME := "managed-service"
  const OPERATOR_NAME := "platform-operator"
  const OTLP_CLIENT := "managed-service"

  // ----- Desired state

  function Selector(key: Key): map<string, string> {
    map[NAME_LABEL := APPLICATION_NAME, INSTANCE_LABEL := key.name]
  }

  function Labels(key: Key, spec: Spec): map<string, string> {
    Selector(key)[MANAGED_BY_LABEL := OPERATOR_NAME][TEMPLATE_LABEL := spec.template]
  }

  function PodLabels(key: Key, spec: Spec): map<string, string> {
    Labels(key, spec)[OTLP_CLIENT_LABEL := OTLP_CLIENT]
  }

  function DesiredReplicas(spec: Spec): int {
    if spec.replicas.None? then 1 else spec.replicas.value
  }

  function HttpProbe(path: string, initialDelaySeconds: int): Probe {
    Probe(path, FromString(HTTP_PORT_NAME), "HTTP", initialDelaySeconds, 2, 5, 1, 6)
  }

  function DesiredContainer(image: string, message: string): Container {
    Container(
      CONTAINER_NAME, image, "IfNotPresent",
      [ContainerPort(HTTP_PORT_NAME, CONTAINER_PORT, "TCP"),
       ContainerPort(METRICS_PORT_NAME, METRICS_PORT, "TCP")],
      [EnvVar("MESSAGE", message), EnvVar("METRICS_PORT", "9090"),
       EnvVar("OTEL_SERVICE_NAME", CONTAINER_NAME)],
      SmallResources, Restricted,
      Some(HttpProbe("/healthz", 10)), Some(HttpProbe("/readyz", 2)),
      "/dev/termination-log", "File", map[])
  }

  function DesiredPodSpec(cfg: Config, spec: Spec): PodSpec {
    PodSpec(
      Some(false), "ClusterFirst", Some(false),
      if cfg.imagePullSecret != "" then [cfg.imagePullSecret] else [],
      "Always", "default-scheduler", NonRoot, Some(10),
      [DesiredContainer(cfg.image, spec.message)], map[])
  }

  function DesiredPorts(): seq<ServicePort> {
    [ServicePort(HTTP_PORT_NAME, SERVICE_PORT, "TCP", FromString(HTTP_PORT_NAME), 0),
     ServicePort(METRICS_PORT_NAME, METRICS_PORT, "TCP", FromString(METRICS_PORT_NAME), 0)]
  }

  // ----- Mutate closures

  function MutateDeployment(cfg: Config, key: Key, ms: ManagedService, d: Deployment): Result<Deployment, ApiError> {
    match SetControllerReference(d.owners, key, ms.uid)
    case Err(e) => Err(e)
    case Ok(owners) =>
      Ok(d.(owners := owners,
            labels := Labels(key, ms.CurrentSpec()),
            replicas := Some(DesiredReplicas(ms.CurrentSpec())),
            selector := LabelSelector(Selector(key), []),
            templateLabels := PodLabels(key, ms.CurrentSpec()),
            podSpec := DesiredPodSpec(cfg, ms.CurrentSpec())))
  }

  function MutateService(key: Key, ms: ManagedService, s: Service): Result<Service, ApiError> {
    match SetControllerReference(s.owners, key, ms.uid)
    case Err(e) => Err(e)
    case Ok(owners) =>
      Ok(s.(owners := owners,
            labels := Labels(key, ms.CurrentSpec()),
            serviceType := "ClusterIP",
            selector := Selector(key),
            ports := DesiredPorts()))
  }

  /** The objects the closures start from when there is no child yet. */
  const BLANK_DEPLOYMENT :=
    Deployment(0, [], map[], map[], None, LabelSelector(map[], []), "", map[], map[],
      PodSpec(None, "", None, [], "", "", UnsetPodSecurity, None, [], map[]), 0)

  const BLANK_SERVICE := Service(0, [], map[], map[], "", map[], [], Unset, "")

  // ----- API server: defaulting

  function Or(text: string, default: string): string { if text == "" then default else text }

  function OrInt(n: int, default: int): int { if n == 0 then default else n }

  function DefaultContainerPorts(ports: seq<ContainerPort>): (r: seq<ContainerPort>)
    ensures |r| == |ports|
  {
    if ports == [] then []
    else [ports[0].(protocol := Or(ports[0].protocol, "TCP"))] + DefaultContainerPorts(ports[1..])
  }

  function DefaultProbe(probe: Option<Probe>): Option<Probe> {
    match probe
    case None => None
    case Some(p) =>
      Some(p.(path := Or(p.path, "/"), scheme := Or(p.scheme, "HTTP"),
              timeoutSeconds := OrInt(p.timeoutSeconds, 1), periodSeconds := OrInt(p.periodSeconds, 10),
              successThreshold := OrInt(p.successThreshold, 1),
              failureThreshold := OrInt(p.failureThreshold, 3)))
  }

  function DefaultContainer(c: Container): Container {
    c.(imagePullPolicy := Or(c.imagePullPolicy, "IfNotPresent"),
       ports := DefaultContainerPorts(c.ports),
       livenessProbe := DefaultProbe(c.livenessProbe),
       readinessProbe := DefaultProbe(c.readinessProbe),
       terminationMessagePath := Or(c.terminationMessagePath, "/dev/termination-log"),
       terminationMessagePolicy := Or(c.terminationMessagePolicy, "File"))
  }

  function DefaultContainers(cs: seq<Container>): (r: seq<Container>)
    ensures |r| == |cs|
  {
    if cs == [] then [] else [DefaultContainer(cs[0])] + DefaultContainers(cs[1..])
  }

  function DefaultPodSpec(p: PodSpec): PodSpec {
    p.(dnsPolicy := Or(p.dnsPolicy, "ClusterFirst"),
       enableServiceLinks := if p.enableServiceLinks.None? then Some(true) else p.enableServiceLinks,
       restartPolicy := Or(p.restartPolicy, "Always"),
       schedulerName := Or(p.schedulerName, "default-scheduler"),
       securityContext := if p.securityContext == UnsetPodSecurity then EmptyPodSecurity else p.securityContext,
       terminationGracePeriodSeconds :=
         if p.terminationGracePeriodSeconds.None? then Some(30) else p.terminationGracePeriodSeconds,
       containers := DefaultContainers(p.containers))
  }

  function DefaultDeployment(d: Deployment): Deployment {
    d.(replicas := if d.replicas.None? then Some(1) else d.replicas,
       strategy := Or(d.strategy, "RollingUpdate"),
       podSpec := DefaultPodSpec(d.podSpec))
  }

  function DefaultServicePorts(ports: seq<ServicePort>): (r: seq<ServicePort>)
    ensures |r| == |ports|
  {
    if ports == [] then []
    else
      var p := ports[0];
      [p.(protocol := Or(p.protocol, "TCP"),
          targetPort := if p.targetPort == FromInt(0) || p.targetPort == FromString("") then FromInt(p.port) else p.targetPort)]
      + DefaultServicePorts(ports[1..])
  }

  /** `stamp` names the address allocated when the Service needs one. */
  function DefaultService(s: Service, stamp: nat): Service {
    s.(serviceType := Or(s.serviceType, "ClusterIP"),
       ports := DefaultServicePorts(s.ports),
       clusterIP :=
         if s.clusterIP == Unset && Or(s.serviceType, "ClusterIP") != "ExternalName" then Allocated(stamp) else s.clusterIP,
       sessionAffinity := Or(s.sessionAffinity, "None"))
  }

  // ----- API server: admission of a write, given a fresh resource version

  /** An object may name at most one controller. */
  predicate OneController(owners: seq<OwnerRef>) { |Controllers(owners)| <= 1 }

  function CreateDeployment(d: Deployment, stamp: nat): Result<Deployment, ApiError> {
    if !OneController(d.owners) then Err(Invalid)
    else Ok(DefaultDeployment(d).(resourceVersion := stamp, readyReplicas := 0))
  }

  /** The selector of a Deployment is immutable. */
  function UpdateDeployment(current: Deployment, d: Deployment, stamp: nat): Result<Deployment, ApiError> {
    if d.resourceVersion != current.resourceVersion then Err(Conflict)
    else if !OneController(d.owners) || d.selector != current.selector then Err(Invalid)
    else Ok(DefaultDeployment(d).(resourceVersion := stamp, readyReplicas := current.readyReplicas))
  }

  function CreateService(s: Service, stamp: nat): Result<Service, ApiError> {
    if !OneController(s.owners) then Err(Invalid)
    else Ok(DefaultService(s, stamp).(resourceVersion := stamp))
  }

  function UpdateService(current: Service, s: Service, stamp: nat): Result<Service, ApiError> {
    if s.resourceVersion != current.resourceVersion then Err(Conflict)
    else if !OneController(s.owners) then Err(Invalid)
    else Ok(DefaultService(s, stamp).(resourceVersion := stamp))
  }

  // ----- Settled children: the closures would change nothing

  predicate DeploymentSettled(cfg: Config, key: Key, ms: ManagedService, d: Deployment) {
    MutateDeployment(cfg, key, ms, d) == Ok(d)
  }

  predicate ServiceSettled(key: Key, ms: ManagedService, s: Service) {
    MutateService(key, ms, s) == Ok(s)
  }

  // ----- Defaulting leaves the desired state alone

  lemma DesiredPodSpecClosed(cfg: Config, spec: Spec)
    ensures DefaultPodSpec(DesiredPodSpec(cfg, spec)) == DesiredPodSpec(cfg, spec)
  {
    var c := DesiredContainer(cfg.image, spec.message);
    assert DefaultContainerPorts(c.ports[1..]) == c.ports[1..] by {
      assert c.ports[1..][1..] == [];
    }
    assert DefaultContainerPorts(c.ports) == c.ports;
    assert DefaultContainer(c) == c;
    assert DefaultContainers([c]) == [c];
  }

  lemma DesiredPortsClosed()
    ensures DefaultServicePorts(DesiredPorts()) == DesiredPorts()
  {
    var ports := DesiredPorts();
    assert DefaultServicePorts(ports[1..]) == ports[1..] by {
      assert ports[1..][1..] == [];
    }
  }

  /** SetControllerReference keeps its answer, and the answer names the given incarnation. */
  lemma SetControllerStable(owners: seq<OwnerRef>, key: Key, uid: nat)
    ensures var r := SetControllerReference(owners, key, uid);
            r.Ok? && OneController(r.value) ==>
              && Controllers(r.value) == [ControllerRef(key, uid)]
              && ControlledBy(r.value, key.name)
              && SetControllerReference(r.value, key, uid) == r
  {
    var ref := ControllerRef(key, uid);
    UpsertOwnerControllers(owners, ref);
    UpsertOwnerIdempotent(owners, ref);
  }

  /** Once the server has stored a mutated Deployment, the closure finds nothing to change. */
  lemma StoredDeploymentSettled(cfg: Config, key: Key, ms: ManagedService, d: Deployment, stored: Deployment)
    requires MutateDeployment(cfg, key, ms, d).Ok?
    requires var m := MutateDeployment(cfg, key, ms, d).value;
             && OneController(m.owners)
             && stored == DefaultDeployment(m).(resourceVersion := stored.resourceVersion, readyReplicas := stored.readyReplicas)
    ensures DeploymentSettled(cfg, key, ms, stored)
    ensures Controllers(stored.owners) == [ControllerRef(key, ms.uid)]
    ensures ControlledBy(stored.owners, key.name) && OneController(stored.owners)
  {
    DesiredPodSpecClosed(cfg, ms.CurrentSpec());
    SetControllerStable(d.owners, key, ms.uid);
  }

  lemma StoredServiceSettled(key: Key, ms: ManagedService, s: Service, stored: Service, stamp: nat)
    requires MutateService(key, ms, s).Ok?
    requires var m := MutateService(key, ms, s).value;
             && OneController(m.owners)
             && stored == DefaultService(m, stamp).(resourceVersion := stored.resourceVersion)
    ensures ServiceSettled(key, ms, stored)
    ensures Controllers(stored.owners) == [ControllerRef(key, ms.uid)]
    ensures ControlledBy(stored.owners, key.name) && OneController(stored.owners)
  {
    DesiredPortsClosed();
    SetControllerStable(s.owners, key, ms.uid);
  }
}
