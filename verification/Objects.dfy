/**
 The Kubernetes objects the operator reads and writes, reduced to the fields it sets, the fields the
 API server defaults, and enough unmanaged fields to say what must survive.
 */
module Objects {
  import opened Wrappers

  datatype Key = Key(namespace: string, name: string)

  /** `kind` stands for the API group and kind together. */
  datatype OwnerRef = OwnerRef(
    kind: string, name: string, uid: nat, controller: bool, blockOwnerDeletion: bool)

  const MANAGED_SERVICE_KIND := "ManagedService.platform.eoghanclancy.eu"

  datatype IntOrString = FromInt(n: int) | FromString(s: string)

  // ----- Deployment

  datatype EnvVar = EnvVar(name: string, value: string)

  datatype ContainerPort = ContainerPort(name: string, port: int, protocol: string)

  datatype Probe = Probe(
    path: string, port: IntOrString, scheme: string, initialDelaySeconds: int, timeoutSeconds: int,
    periodSeconds: int, successThreshold: int, failureThreshold: int)

  /** Quantities and security contexts are constants the server leaves alone. */
  datatype Resources = NoResources | SmallResources | OtherResources(text: string)

  datatype SecurityContext = NoSecurityContext | Restricted | OtherSecurityContext(text: string)

  datatype PodSecurityContext = UnsetPodSecurity | EmptyPodSecurity | NonRoot | OtherPodSecurity(text: string)

  datatype Container = Container(
    name: string, image: string, imagePullPolicy: string, ports: seq<ContainerPort>, env: seq<EnvVar>,
    resources: Resources, securityContext: SecurityContext, livenessProbe: Option<Probe>,
    readinessProbe: Option<Probe>, terminationMessagePath: string, terminationMessagePolicy: string,
    otherFields: map<string, string>)

  datatype PodSpec = PodSpec(
    automountServiceAccountToken: Option<bool>, dnsPolicy: string, enableServiceLinks: Option<bool>,
    imagePullSecrets: seq<string>, restartPolicy: string, schedulerName: string,
    securityContext: PodSecurityContext, terminationGracePeriodSeconds: Option<int>,
    containers: seq<Container>, otherFields: map<string, string>)

  datatype LabelSelector = LabelSelector(
    matchLabels: map<string, string>, matchExpressions: seq<string>)

  /** `readyReplicas` belongs to the status subresource: Create and Update do not change it. */
  datatype Deployment = Deployment(
    resourceVersion: nat, owners: seq<OwnerRef>, labels: map<string, string>,
    annotations: map<string, string>, replicas: Option<int>, selector: LabelSelector, strategy: string,
    templateLabels: map<string, string>, templateAnnotations: map<string, string>, podSpec: PodSpec,
    readyReplicas: int)

  // ----- Service

  datatype ClusterIP = Unset | Headless | Allocated(address: nat)

  datatype ServicePort = ServicePort(
    name: string, port: int, protocol: string, targetPort: IntOrString, nodePort: int)

  datatype Service = Service(
    resourceVersion: nat, owners: seq<OwnerRef>, labels: map<string, string>,
    annotations: map<string, string>, serviceType: string, selector: map<string, string>,
    ports: seq<ServicePort>, clusterIP: ClusterIP, sessionAffinity: string)

  // ----- ManagedService

  datatype Spec = Spec(template: string, replicas: Option<int>, message: string)

  datatype ConditionStatus = True | False | Unknown

  datatype Condition = Condition(
    kind: string, status: ConditionStatus, reason: string, message: string, observedGeneration: int,
    lastTransitionTime: int)

  datatype Status = Status(
    observedGeneration: int, readyReplicas: int, endpoint: string, conditions: seq<Condition>)

  const EMPTY_STATUS := Status(0, 0, "", [])

  /**
   One incarnation of a ManagedService. `specs` lists the spec of every generation so far, so the
   generation is its length and the current spec its last element.
   */
  datatype ManagedService = ManagedService(uid: nat, specs: seq<Spec>, status: Status) {
    function Generation(): nat { |specs| }

    function CurrentSpec(): Spec {
      if specs == [] then Spec("", None, "") else specs[|specs| - 1]
    }
  }

  // ----- Errors

  datatype ApiError =
    | NotFound
    | AlreadyExists
    | Conflict
    | Invalid
    | AlreadyOwned(owner: OwnerRef)
    | Failure(text: string)
  {
    function Text(): string {
      match this
      case NotFound => "not found"
      case AlreadyExists => "already exists"
      case Conflict => "the object has been modified"
      case Invalid => "is invalid"
      case AlreadyOwned(owner) => "already owned by " + owner.kind + " " + owner.name
      case Failure(text) => text
    }
  }

  // ----- Owner references

  /** The references marked as the controller. */
  function Controllers(owners: seq<OwnerRef>): seq<OwnerRef> {
    if owners == [] then []
    else (if owners[0].controller then [owners[0]] else []) + Controllers(owners[1..])
  }

  /** The controller that the watch handlers and the ownership check see: the first marked reference. */
  function ControllerOf(owners: seq<OwnerRef>): Option<OwnerRef> {
    if Controllers(owners) == [] then None else Some(Controllers(owners)[0])
  }

  predicate SameOwner(a: OwnerRef, b: OwnerRef) { a.kind == b.kind && a.name == b.name }

  /** Replaces the first reference to the same owner, or appends. */
  function UpsertOwner(owners: seq<OwnerRef>, ref: OwnerRef): (r: seq<OwnerRef>) {
    if owners == [] then [ref]
    else if SameOwner(owners[0], ref) then [ref] + owners[1..]
    else [owners[0]] + UpsertOwner(owners[1..], ref)
  }

  function ControllerRef(key: Key, uid: nat): OwnerRef {
    OwnerRef(MANAGED_SERVICE_KIND, key.name, uid, true, true)
  }

  /** SetControllerReference: refuses a child whose controller is a different kind or name. */
  function SetControllerReference(owners: seq<OwnerRef>, key: Key, uid: nat): Result<seq<OwnerRef>, ApiError> {
    var ref := ControllerRef(key, uid);
    match ControllerOf(owners)
    case Some(c) => if SameOwner(c, ref) then Ok(UpsertOwner(owners, ref)) else Err(AlreadyOwned(c))
    case None => Ok(UpsertOwner(owners, ref))
  }

  /** Whether the object's controller is the ManagedService called `name`. */
  predicate ControlledBy(owners: seq<OwnerRef>, name: string) {
    var c := ControllerOf(owners);
    c.Some? && c.value.kind == MANAGED_SERVICE_KIND && c.value.name == name
  }

  /** The reconcile request that a change of a child with these owners leads to. */
  function OwnerRequests(owners: seq<OwnerRef>, namespace: string): set<Key> {
    match ControllerOf(owners)
    case Some(c) => if c.kind == MANAGED_SERVICE_KIND then {Key(namespace, c.name)} else {}
    case None => {}
  }

  lemma {:induction false} UpsertOwnerIdempotent(owners: seq<OwnerRef>, ref: OwnerRef)
    ensures UpsertOwner(UpsertOwner(owners, ref), ref) == UpsertOwner(owners, ref)
  {
    if owners == [] || SameOwner(owners[0], ref) {
    } else {
      UpsertOwnerIdempotent(owners[1..], ref);
      assert UpsertOwner(owners, ref)[1..] == UpsertOwner(owners[1..], ref);
    }
  }

  /** Every other owner reference survives, in place and in order. */
  lemma {:induction false} UpsertOwnerFrame(owners: seq<OwnerRef>, ref: OwnerRef)
    ensures var r := UpsertOwner(owners, ref);
            && |owners| <= |r| <= |owners| + 1
            && (forall i | 0 <= i < |owners| && !SameOwner(owners[i], ref) :: r[i] == owners[i])
            && ref in r
  {
    if owners == [] || SameOwner(owners[0], ref) {
    } else {
      UpsertOwnerFrame(owners[1..], ref);
      var r := UpsertOwner(owners, ref);
      assert r[1..] == UpsertOwner(owners[1..], ref);
      forall i | 0 <= i < |owners| && !SameOwner(owners[i], ref) ensures r[i] == owners[i] {
        if i > 0 { assert r[1..][i - 1] == owners[1..][i - 1]; }
      }
    }
  }

  lemma {:induction false} UpsertOwnerControllers(owners: seq<OwnerRef>, ref: OwnerRef)
    requires ref.controller
    ensures Controllers(UpsertOwner(owners, ref)) != []
    ensures ref in Controllers(UpsertOwner(owners, ref))
    ensures Controllers(owners) == [] ==> Controllers(UpsertOwner(owners, ref)) == [ref]
    ensures |Controllers(UpsertOwner(owners, ref))| == 1 ==> Controllers(UpsertOwner(owners, ref)) == [ref]
  {
    if owners == [] || SameOwner(owners[0], ref) {
      assert UpsertOwner(owners, ref)[0] == ref;
    } else {
      UpsertOwnerControllers(owners[1..], ref);
      assert UpsertOwner(owners, ref)[1..] == UpsertOwner(owners[1..], ref);
    }
  }
}
