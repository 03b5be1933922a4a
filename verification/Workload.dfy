/**
 What a stored Deployment and Service mean to the cluster, read off their fields: what the pods run, what they
 are told, where their probes and their Service lead, and who owns them
 (internal/controller/managedservice_resources.go, lines 37-52 and 72-329).
 */
module Workload {
  import opened Wrappers
  import opened Objects
  import opened Children

  // ----- Reading the fields

  function Variable(env: seq<EnvVar>, name: string): Option<string> {
    if env == [] then None else if env[0].name == name then Some(env[0].value) else Variable(env[1..], name)
  }

  function PortNamed(ports: seq<ContainerPort>, name: string): Option<int> {
    if ports == [] then None else if ports[0].name == name then Some(ports[0].port) else PortNamed(ports[1..], name)
  }

  /** The port number of the container that a target comes to. */
  function Target(ports: seq<ContainerPort>, target: IntOrString): Option<int> {
    match target
    case FromInt(n) => Some(n)
    case FromString(name) => PortNamed(ports, name)
  }

  /** The port number of the container that a port of the Service leads to. */
  function Route(servicePorts: seq<ServicePort>, ports: seq<ContainerPort>, port: int): Option<int> {
    if servicePorts == [] then None
    else if servicePorts[0].port == port then Target(ports, servicePorts[0].targetPort)
    else Route(servicePorts[1..], ports, port)
  }

  function Decimal(n: nat): string {
    var digit := ["0123456789"[n % 10]];
    if n < 10 then digit else Decimal(n / 10) + digit
  }

  // ----- What the pods do

  /** The kubelet asks the container over HTTP, at that path and port number. */
  predicate Asks(c: Container, probe: Option<Probe>, path: string, port: int) {
    && probe.Some? && probe.value.path == path && probe.value.scheme == "HTTP"
    && Target(c.ports, probe.value.port) == Some(port)
  }

  /** After a delay it is asked every five seconds, has two to answer, and counts as down after six failures. */
  predicate Paced(probe: Option<Probe>, delay: int) {
    && probe.Some? && probe.value.initialDelaySeconds == delay && probe.value.timeoutSeconds == 2
    && probe.value.periodSeconds == 5 && probe.value.successThreshold == 1 && probe.value.failureThreshold == 6
  }

  /** One container of the configured image, told the spec's message and the number of its own metrics port. */
  predicate Serves(cfg: Config, spec: Spec, p: PodSpec) {
    && |p.containers| == 1
    && var c := p.containers[0];
    && c.image == cfg.image
    && Variable(c.env, "MESSAGE") == Some(spec.message)
    && Variable(c.env, "METRICS_PORT") == Some(Decimal(9090)) && PortNamed(c.ports, "metrics") == Some(9090)
    && Variable(c.env, "OTEL_SERVICE_NAME") == Some("demo-http") && c.name == "demo-http" && |c.env| == 3
    && PortNamed(c.ports, "http") == Some(8080)
    && Asks(c, c.livenessProbe, "/healthz", 8080) && Asks(c, c.readinessProbe, "/readyz", 8080)
    && Paced(c.livenessProbe, 10) && Paced(c.readinessProbe, 2) && c.imagePullPolicy == "IfNotPresent"
    && p.imagePullSecrets == (if cfg.imagePullSecret == "" then [] else [cfg.imagePullSecret])
  }

  /** No token, no service environment, no root, no privileges; limited and restarted. */
  predicate Confined(p: PodSpec) {
    && p.automountServiceAccountToken == Some(false) && p.enableServiceLinks == Some(false)
    && p.securityContext == NonRoot && p.restartPolicy == "Always" && p.terminationGracePeriodSeconds == Some(10)
    && forall i | 0 <= i < |p.containers| ::
         p.containers[i].securityContext == Restricted && p.containers[i].resources == SmallResources
  }

  predicate Selects(key: Key, labels: map<string, string>) {
    labels == map["app.kubernetes.io/name" := "managed-service", "app.kubernetes.io/instance" := key.name]
  }

  predicate Labelled(key: Key, spec: Spec, labels: map<string, string>) {
    labels == map["app.kubernetes.io/name" := "managed-service", "app.kubernetes.io/instance" := key.name,
                  "app.kubernetes.io/managed-by" := "platform-operator",
                  "platform.eoghanclancy.eu/template" := spec.template]
  }

  function Wanted(spec: Spec): int {
    match spec.replicas
    case None => 1
    case Some(n) => n
  }

  /** The Deployment runs what the spec asks for. */
  predicate Runs(cfg: Config, key: Key, spec: Spec, d: Deployment) {
    && Serves(cfg, spec, d.podSpec) && Confined(d.podSpec)
    && d.replicas == Some(Wanted(spec))
    && Labelled(key, spec, d.labels)
    && d.templateLabels == d.labels["observability.eoghanclancy.eu/otlp-client" := "managed-service"]
    && Selects(key, d.selector.matchLabels) && d.selector.matchExpressions == []
  }

  /** The Service leads port 80 to the port the probes ask, and port 9090 to the metrics port, of the key's pods. */
  predicate Leads(key: Key, spec: Spec, s: Service, ports: seq<ContainerPort>) {
    && s.serviceType == "ClusterIP"
    && Labelled(key, spec, s.labels) && Selects(key, s.selector)
    && |s.ports| == 2
    && Route(s.ports, ports, 80) == PortNamed(ports, "http")
    && Route(s.ports, ports, 9090) == PortNamed(ports, "metrics")
  }

  /** It does so whatever the pods' ports are. */
  ghost predicate LeadsAnywhere(key: Key, spec: Spec, s: Service) {
    forall ports: seq<ContainerPort> :: Leads(key, spec, s, ports)
  }

  /** The one controller among the owners is the incarnation, which deletion of the owner waits for. */
  predicate OwnedBy(owners: seq<OwnerRef>, key: Key, uid: nat) {
    Controllers(owners) == [OwnerRef("ManagedService.platform.eoghanclancy.eu", key.name, uid, true, true)]
  }

  // ----- The desired state does that

  lemma Ninety()
    ensures Decimal(9090) == "9090"
  {
    assert ["0123456789"[9]] == "9" && ["0123456789"[0]] == "0";
    assert Decimal(9) == "9";
    assert Decimal(90) == Decimal(9) + "0" == "90";
    assert Decimal(909) == Decimal(90) + "9" == "909";
    assert Decimal(9090) == Decimal(909) + "0" == "9090";
  }

  lemma PortsNamed(c: Container, image: string, message: string)
    requires c == DesiredContainer(image, message)
    ensures PortNamed(c.ports, "http") == Some(8080) && PortNamed(c.ports, "metrics") == Some(9090)
  {
    var p := c.ports;
    assert |p[0].name| == 4 && |p[1].name| == 7 && p[1..][0] == p[1];
    assert PortNamed(p, "metrics") == PortNamed(p[1..], "metrics") == Some(p[1].port);
  }

  lemma VariablesNamed(c: Container, image: string, message: string)
    requires c == DesiredContainer(image, message)
    ensures Variable(c.env, "MESSAGE") == Some(message) && Variable(c.env, "METRICS_PORT") == Some("9090")
    ensures Variable(c.env, "OTEL_SERVICE_NAME") == Some("demo-http")
  {
    var e := c.env;
    assert |e[0].name| == 7 && |e[1].name| == 12 && |e[2].name| == 17;
    assert e[1..][0] == e[1] && e[1..][1..] == e[2..] && e[2..][0] == e[2];
    assert Variable(e, "METRICS_PORT") == Variable(e[1..], "METRICS_PORT");
    assert Variable(e, "OTEL_SERVICE_NAME") == Variable(e[1..], "OTEL_SERVICE_NAME") == Variable(e[2..], "OTEL_SERVICE_NAME");
  }

  lemma DesiredServes(cfg: Config, spec: Spec)
    ensures Serves(cfg, spec, DesiredPodSpec(cfg, spec)) && Confined(DesiredPodSpec(cfg, spec))
  {
    var c := DesiredContainer(cfg.image, spec.message);
    Ninety();
    PortsNamed(c, cfg.image, spec.message);
    VariablesNamed(c, cfg.image, spec.message);
  }

  lemma DesiredLabelled(key: Key, spec: Spec)
    ensures Labelled(key, spec, Labels(key, spec)) && Selects(key, Selector(key))
    ensures PodLabels(key, spec) == Labels(key, spec)["observability.eoghanclancy.eu/otlp-client" := "managed-service"]
  {
    assert |NAME_LABEL| == 22 && |INSTANCE_LABEL| == 26 && |MANAGED_BY_LABEL| == 28 && |TEMPLATE_LABEL| == 33;
  }

  /** A Deployment that the closure leaves alone runs what the spec asks for. */
  lemma SettledRuns(cfg: Config, key: Key, ms: ManagedService, d: Deployment)
    requires DeploymentSettled(cfg, key, ms, d)
    ensures Runs(cfg, key, ms.CurrentSpec(), d)
  {
    DesiredServes(cfg, ms.CurrentSpec());
    DesiredLabelled(key, ms.CurrentSpec());
  }

  lemma DesiredRoutes(ports: seq<ContainerPort>)
    ensures Route(DesiredPorts(), ports, 80) == PortNamed(ports, "http")
    ensures Route(DesiredPorts(), ports, 9090) == PortNamed(ports, "metrics")
  {
    assert DesiredPorts()[1..][0] == DesiredPorts()[1];
  }

  /** A Service that the closure leaves alone leads to the ports of those names. */
  lemma SettledLeads(key: Key, ms: ManagedService, s: Service)
    requires ServiceSettled(key, ms, s)
    ensures LeadsAnywhere(key, ms.CurrentSpec(), s)
  {
    DesiredLabelled(key, ms.CurrentSpec());
    forall ports: seq<ContainerPort> ensures Leads(key, ms.CurrentSpec(), s, ports) { DesiredRoutes(ports); }
  }

  /** Port 80 of the Service leads to the port that both probes ask, and port 9090 to the one the pods were told. */
  lemma PairServes(cfg: Config, key: Key, spec: Spec, d: Deployment, s: Service)
    requires Runs(cfg, key, spec, d) && LeadsAnywhere(key, spec, s)
    ensures var c := d.podSpec.containers[0];
      && Asks(c, c.livenessProbe, "/healthz", 8080) && Asks(c, c.readinessProbe, "/readyz", 8080)
      && Route(s.ports, c.ports, 80) == Some(8080)
      && Route(s.ports, c.ports, 9090).Some? && Route(s.ports, c.ports, 9090).value >= 0
      && Variable(c.env, "METRICS_PORT") == Some(Decimal(Route(s.ports, c.ports, 9090).value))
    ensures forall name | name in s.selector :: name in d.templateLabels && d.templateLabels[name] == s.selector[name]
  {
    var c := d.podSpec.containers[0];
    assert Leads(key, spec, s, c.ports);
    assert |"observability.eoghanclancy.eu/otlp-client"| == 41 && |"app.kubernetes.io/name"| == 22 && |"app.kubernetes.io/instance"| == 26;
  }

  /** Nothing of the message or the replicas is lost: one Deployment settled for two specs has both the same. */
  lemma SpecShows(cfg: Config, key: Key, a: ManagedService, b: ManagedService, d: Deployment)
    requires DeploymentSettled(cfg, key, a, d) && DeploymentSettled(cfg, key, b, d)
    ensures a.CurrentSpec().message == b.CurrentSpec().message
    ensures Wanted(a.CurrentSpec()) == Wanted(b.CurrentSpec())
    ensures a.CurrentSpec().template == b.CurrentSpec().template
  {
    SettledRuns(cfg, key, a, d);
    SettledRuns(cfg, key, b, d);
    assert d.labels["platform.eoghanclancy.eu/template"] == a.CurrentSpec().template == b.CurrentSpec().template;
  }

  lemma ControllerRefOwns(owners: seq<OwnerRef>, key: Key, uid: nat)
    requires Controllers(owners) == [ControllerRef(key, uid)]
    ensures OwnedBy(owners, key, uid)
  {
  }
}
