/**
 The status of a ManagedService: the conditions list, the two ways the operator computes a status, and
 what the result says (internal/controller/managedservice_status.go, lines 33-163).
 */
module Conditions {
  import opened Wrappers
  import opened Objects
  import opened Children

  const AVAILABLE := "Available"
  const PROGRESSING := "Progressing"
  const DEGRADED := "Degraded"

  const WORKLOAD_AVAILABLE := "WorkloadAvailable"
  const WORKLOAD_PROGRESSING := "WorkloadProgressing"
  const RECONCILIATION_FAILED := "ReconciliationFailed"
  const RECONCILIATION_SUCCEEDED := "ReconciliationSucceeded"
  const TEMPLATE_INVALID := "TemplateConfigurationInvalid"
  const DEPLOYMENT_FAILED := "DeploymentReconcileFailed"
  const SERVICE_FAILED := "ServiceReconcileFailed"

  /** What a reconciliation concluded before it writes the status. */
  datatype Plan =
    | Succeed(readyReplicas: int)
    | Degrade(reason: string, message: string)

  // ----- The conditions list

  function Find(cs: seq<Condition>, kind: string): (r: Option<Condition>)
    ensures r.Some? ==> r.value in cs && r.value.kind == kind
  {
    if cs == [] then None
    else if cs[0].kind == kind then Some(cs[0])
    else Find(cs[1..], kind)
  }

  /** An existing condition takes the new fields; its transition time moves only with its status. */
  function Refresh(current: Condition, c: Condition, now: int): Condition {
    c.(lastTransitionTime := if current.status == c.status then current.lastTransitionTime else now)
  }

  /** SetStatusCondition: update the first condition of that type, or append. */
  function Upsert(cs: seq<Condition>, c: Condition, now: int): seq<Condition> {
    if cs == [] then [c.(lastTransitionTime := now)]
    else if cs[0].kind == c.kind then [Refresh(cs[0], c, now)] + cs[1..]
    else [cs[0]] + Upsert(cs[1..], c, now)
  }

  function UpsertAll(cs: seq<Condition>, wanted: seq<Condition>, now: int): seq<Condition>
    decreases wanted
  {
    if wanted == [] then cs
    else UpsertAll(Upsert(cs, wanted[0], now), wanted[1..], now)
  }

  // ----- Computing a status

  function Endpoint(key: Key): string {
    "http://" + key.name + "." + key.namespace + ".svc.cluster.local"
  }

  predicate Ready(spec: Spec, readyReplicas: int) { readyReplicas >= DesiredReplicas(spec) }

  function Wanted(spec: Spec, generation: int, plan: Plan): (r: seq<Condition>)
    ensures |r| == 3
    ensures r[0].kind == AVAILABLE && r[1].kind == PROGRESSING && r[2].kind == DEGRADED
  {
    match plan
    case Succeed(n) =>
      if Ready(spec, n) then
        [Condition(AVAILABLE, True, WORKLOAD_AVAILABLE, "Deployment has the desired number of ready replicas", generation, 0),
         Condition(PROGRESSING, False, WORKLOAD_AVAILABLE, "Reconciliation succeeded", generation, 0),
         Condition(DEGRADED, False, RECONCILIATION_SUCCEEDED, "Reconciliation succeeded", generation, 0)]
      else
        [Condition(AVAILABLE, False, WORKLOAD_PROGRESSING, "Deployment is waiting for ready replicas", generation, 0),
         Condition(PROGRESSING, True, WORKLOAD_PROGRESSING, "Deployment is waiting for ready replicas", generation, 0),
         Condition(DEGRADED, False, RECONCILIATION_SUCCEEDED, "Reconciliation succeeded", generation, 0)]
    case Degrade(reason, message) =>
      [Condition(AVAILABLE, False, RECONCILIATION_FAILED, "Reconciliation failed", generation, 0),
       Condition(PROGRESSING, False, RECONCILIATION_FAILED, "Reconciliation failed", generation, 0),
       Condition(DEGRADED, True, reason, message, generation, 0)]
  }

  function StatusFor(key: Key, ms: ManagedService, plan: Plan, now: int): Status {
    Status(
      ms.Generation(),
      if plan.Succeed? then plan.readyReplicas else 0,
      if plan.Succeed? then Endpoint(key) else "",
      UpsertAll(ms.status.conditions, Wanted(ms.CurrentSpec(), ms.Generation(), plan), now))
  }

  /** Nothing to write for this plan, whatever the clock says. */
  predicate StatusSettled(key: Key, ms: ManagedService, plan: Plan) {
    StatusFor(key, ms, plan, 0) == ms.status
  }

  // ----- What the conditions list says

  predicate SameButTime(a: Condition, b: Condition) { a.(lastTransitionTime := 0) == b.(lastTransitionTime := 0) }

  /** The first condition of that type already reads as wanted. */
  predicate Reads(cs: seq<Condition>, c: Condition) {
    var f := Find(cs, c.kind);
    f.Some? && SameButTime(f.value, c)
  }

  lemma {:induction false} UpsertFind(cs: seq<Condition>, c: Condition, now: int, kind: string)
    ensures kind != c.kind ==> Find(Upsert(cs, c, now), kind) == Find(cs, kind)
    ensures Reads(Upsert(cs, c, now), c)
    ensures Upsert(cs, c, now) == cs <==> Reads(cs, c)
  {
    if cs == [] || cs[0].kind == c.kind {
    } else {
      UpsertFind(cs[1..], c, now, kind);
      assert Upsert(cs, c, now)[1..] == Upsert(cs[1..], c, now);
      assert cs == [cs[0]] + cs[1..];
    }
  }

  predicate DistinctKinds(wanted: seq<Condition>) {
    forall i, j | 0 <= i < j < |wanted| :: wanted[i].kind != wanted[j].kind
  }

  /** Upserting conditions of distinct types makes each of them read as wanted. */
  lemma {:induction false} UpsertAllReads(cs: seq<Condition>, wanted: seq<Condition>, now: int, other: Condition)
    requires DistinctKinds(wanted)
    ensures forall i | 0 <= i < |wanted| :: Reads(UpsertAll(cs, wanted, now), wanted[i])
    ensures (forall i | 0 <= i < |wanted| :: wanted[i].kind != other.kind)
            ==> Find(UpsertAll(cs, wanted, now), other.kind) == Find(cs, other.kind)
    decreases wanted
  {
    if wanted != [] {
      var c := wanted[0];
      UpsertAllReads(Upsert(cs, c, now), wanted[1..], now, other);
      UpsertAllReads(Upsert(cs, c, now), wanted[1..], now, c);
      UpsertFind(cs, c, now, other.kind);
      forall i | 0 <= i < |wanted| ensures Reads(UpsertAll(cs, wanted, now), wanted[i]) {
        if i > 0 { assert wanted[i] == wanted[1..][i - 1]; }
      }
    }
  }

  /** The list is a fixed point exactly when every wanted condition already reads so, at any time. */
  lemma {:induction false} UpsertAllFixed(cs: seq<Condition>, wanted: seq<Condition>, now: int)
    requires DistinctKinds(wanted)
    ensures UpsertAll(cs, wanted, now) == cs <==> forall i | 0 <= i < |wanted| :: Reads(cs, wanted[i])
  {
    if UpsertAll(cs, wanted, now) == cs {
      UpsertAllReads(cs, wanted, now, Condition("", True, "", "", 0, 0));
    }
    if forall i | 0 <= i < |wanted| :: Reads(cs, wanted[i]) {
      UpsertAllNoop(cs, wanted, now);
    }
  }

  lemma {:induction false} UpsertAllNoop(cs: seq<Condition>, wanted: seq<Condition>, now: int)
    requires forall i | 0 <= i < |wanted| :: Reads(cs, wanted[i])
    ensures UpsertAll(cs, wanted, now) == cs
  {
    if wanted != [] {
      UpsertFind(cs, wanted[0], now, "");
      forall i | 0 <= i < |wanted[1..]| ensures Reads(cs, wanted[1..][i]) {
        assert wanted[1..][i] == wanted[i + 1];
      }
      UpsertAllNoop(cs, wanted[1..], now);
    }
  }

  /** Whether a status is already the computed one does not depend on the clock. */
  lemma SettledAtAnyTime(key: Key, ms: ManagedService, plan: Plan, now: int)
    ensures StatusSettled(key, ms, plan) <==> StatusFor(key, ms, plan, now) == ms.status
  {
    var wanted := Wanted(ms.CurrentSpec(), ms.Generation(), plan);
    UpsertAllFixed(ms.status.conditions, wanted, 0);
    UpsertAllFixed(ms.status.conditions, wanted, now);
  }

  /** A settled status reads as its plan wants. */
  lemma SettledReads(key: Key, ms: ManagedService, plan: Plan, i: nat)
    requires StatusSettled(key, ms, plan) && i < 3
    ensures Reads(ms.status.conditions, Wanted(ms.CurrentSpec(), ms.Generation(), plan)[i])
  {
    var wanted := Wanted(ms.CurrentSpec(), ms.Generation(), plan);
    UpsertAllFixed(ms.status.conditions, wanted, 0);
  }

  /** Computing the status again from the stored result changes nothing. */
  lemma StatusIdempotent(key: Key, ms: ManagedService, plan: Plan, now: int)
    ensures StatusSettled(key, ms.(status := StatusFor(key, ms, plan, now)), plan)
  {
    var wanted := Wanted(ms.CurrentSpec(), ms.Generation(), plan);
    var after := StatusFor(key, ms, plan, now);
    UpsertAllReads(ms.status.conditions, wanted, now, wanted[0]);
    UpsertAllFixed(after.conditions, wanted, 0);
  }

  // ----- Well-formed statuses

  /** The three conditions in the order in which they are first written, exactly one of them True. */
  predicate Triad(cs: seq<Condition>) {
    && |cs| == 3
    && cs[0].kind == AVAILABLE && cs[1].kind == PROGRESSING && cs[2].kind == DEGRADED
    && (forall i | 0 <= i < 3 :: cs[i].status == True || cs[i].status == False)
    && Bit(cs[0].status == True) + Bit(cs[1].status == True) + Bit(cs[2].status == True) == 1
  }

  predicate ObservedAt(cs: seq<Condition>, generation: int) {
    forall i | 0 <= i < |cs| :: cs[i].observedGeneration == generation
  }

  /** A never-written list, or the three conditions. */
  predicate TriadOrEmpty(cs: seq<Condition>) { cs == [] || Triad(cs) }

  lemma UpsertThree(cs: seq<Condition>, w: seq<Condition>, now: int)
    requires |w| == 3
    ensures UpsertAll(cs, w, now) == Upsert(Upsert(Upsert(cs, w[0], now), w[1], now), w[2], now)
  {
    var a, b := Upsert(cs, w[0], now), Upsert(Upsert(cs, w[0], now), w[1], now);
    assert w[1..][0] == w[1] && w[1..][1..] == w[2..];
    assert w[2..][0] == w[2] && w[2..][1..] == [];
    assert UpsertAll(cs, w, now) == UpsertAll(a, w[1..], now) == UpsertAll(b, w[2..], now);
  }

  /** On an unwritten list the conditions are appended in their order. */
  lemma UpsertFresh(w0: Condition, w1: Condition, w2: Condition, now: int)
    requires w0.kind != w1.kind && w0.kind != w2.kind && w1.kind != w2.kind
    ensures Upsert(Upsert(Upsert([], w0, now), w1, now), w2, now)
            == [w0.(lastTransitionTime := now), w1.(lastTransitionTime := now), w2.(lastTransitionTime := now)]
  {
    var a := [w0.(lastTransitionTime := now)];
    var b := a + [w1.(lastTransitionTime := now)];
    assert a[1..] == [] && b[1..] == [w1.(lastTransitionTime := now)] && b[1..][1..] == [];
    assert Upsert([], w0, now) == a;
    assert Upsert(a, w1, now) == [a[0]] + Upsert(a[1..], w1, now) == b;
    assert Upsert(b, w2, now) == [b[0]] + ([b[1]] + Upsert(b[1..][1..], w2, now));
  }

  /** On a list of those types each condition is refreshed in place. */
  lemma UpsertWritten(cs: seq<Condition>, w0: Condition, w1: Condition, w2: Condition, now: int)
    requires |cs| == 3 && cs[0].kind == w0.kind && cs[1].kind == w1.kind && cs[2].kind == w2.kind
    requires w0.kind != w1.kind && w0.kind != w2.kind && w1.kind != w2.kind
    ensures Upsert(Upsert(Upsert(cs, w0, now), w1, now), w2, now)
            == [Refresh(cs[0], w0, now), Refresh(cs[1], w1, now), Refresh(cs[2], w2, now)]
  {
    var r0, r1, r2 := Refresh(cs[0], w0, now), Refresh(cs[1], w1, now), Refresh(cs[2], w2, now);
    assert Upsert(cs, w0, now) == [r0] + cs[1..] == [r0, cs[1], cs[2]];
    var a := [r0, cs[1], cs[2]];
    assert a[1..] == [cs[1], cs[2]] && a[1..][1..] == [cs[2]];
    assert Upsert(a, w1, now) == [r0] + Upsert(a[1..], w1, now) == [r0, r1, cs[2]];
    var b := [r0, r1, cs[2]];
    assert b[1..] == [r1, cs[2]] && b[1..][1..] == [cs[2]] && [cs[2]][1..] == [];
    assert Upsert(b, w2, now) == [r0] + ([r1] + Upsert([cs[2]], w2, now));
  }

  /** From a well-formed list, upserting the wanted conditions rewrites it in place. */
  lemma UpsertWanted(cs: seq<Condition>, spec: Spec, generation: int, plan: Plan, now: int)
    requires TriadOrEmpty(cs)
    ensures var r := UpsertAll(cs, Wanted(spec, generation, plan), now);
            && Triad(r) && ObservedAt(r, generation)
            && forall i | 0 <= i < 3 :: SameButTime(r[i], Wanted(spec, generation, plan)[i])
  {
    var w := Wanted(spec, generation, plan);
    assert |AVAILABLE| == 9 && |PROGRESSING| == 11 && |DEGRADED| == 8;
    UpsertThree(cs, w, now);
    if cs == [] {
      UpsertFresh(w[0], w[1], w[2], now);
    } else {
      UpsertWritten(cs, w[0], w[1], w[2], now);
    }
  }

  /** Everything a status must say about the incarnation that carries it. */
  predicate SoundStatus(key: Key, ms: ManagedService) {
    var s := ms.status;
    s == EMPTY_STATUS ||
    (&& 1 <= s.observedGeneration <= ms.Generation()
     && Triad(s.conditions)
     && ObservedAt(s.conditions, s.observedGeneration)
     && (s.conditions[2].status == True ==> s.readyReplicas == 0 && s.endpoint == "")
     && (s.conditions[2].status == False ==> s.endpoint == Endpoint(key))
     && (s.conditions[2].status == False ==>
           (s.conditions[0].status == True <==> Ready(ms.specs[s.observedGeneration - 1], s.readyReplicas))))
  }

  lemma StatusForSound(key: Key, ms: ManagedService, plan: Plan, now: int)
    requires TriadOrEmpty(ms.status.conditions) && ms.specs != []
    ensures SoundStatus(key, ms.(status := StatusFor(key, ms, plan, now)))
  {
    UpsertWanted(ms.status.conditions, ms.CurrentSpec(), ms.Generation(), plan, now);
  }
}
