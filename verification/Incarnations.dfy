/**
 The status of an incarnation. The status patch carries neither the UID nor the resource version it was
 computed from, so after a deletion and re-creation it lands on the new incarnation. For runs without
 such a landing the status is sound throughout; for all runs, this module says exactly which landings
 break what.
 */
module Incarnations {
  import opened Wrappers
  import opened Objects
  import opened Children
  import opened Conditions
  import opened Operator
  import opened StepFacts
  import opened MergePatch
  import Addresses

  // ----- What ties the local copy to the store

  predicate HasCopy(l: Option<Local>) { l.Some? && !l.value.Popped? }

  /** One live incarnation or a copy of one. */
  predicate Plausible(ms: ManagedService, clock: nat) {
    ms.specs != [] && ms.uid < clock && TriadOrEmpty(ms.status.conditions)
  }

  /**
   The operator is the only writer of status, so the copy's status is current while its incarnation lives;
   an incarnation created since has not been written yet.
   */
  predicate CopyInv(copy: ManagedService, stored: ManagedService) {
    if copy.uid == stored.uid then copy.status == stored.status && copy.specs <= stored.specs
    else stored.status == EMPTY_STATUS
  }

  predicate IncarnationInv(c: Cell, clock: nat) {
    && (c.ms.Some? ==> Plausible(c.ms.value, clock))
    && (HasCopy(c.local) ==> Plausible(c.local.value.ms, clock))
    && (HasCopy(c.local) && c.ms.Some? ==> CopyInv(c.local.value.ms, c.ms.value))
  }

  /** The step is a status patch that the server applies. */
  predicate Patches(key: Key, e: Event, c: Cell) {
    && e.Operate? && e.key == key && e.fault.None?
    && c.local.Some? && c.local.value.WriteStatus? && c.ms.Some?
    && PatchedStatus(e, c) != c.local.value.ms.status
  }

  /** The status the patch is meant to bring about. */
  function PatchedStatus(e: Event, c: Cell): Status
    requires e.Operate? && c.local.Some? && c.local.value.WriteStatus?
  {
    StatusFor(e.key, c.local.value.ms, c.local.value.plan, e.now)
  }

  /** The patch reaches another incarnation than the one it was computed from. */
  predicate LandsElsewhere(key: Key, e: Event, c: Cell) {
    Patches(key, e, c) && c.ms.value.uid != c.local.value.ms.uid
  }

  // ----- Preservation

  lemma PatchEffect(cfg: Config, key: Key, e: Event, c: Cell, stamp: nat)
    requires Patches(key, e, c)
    ensures var r := EffectOf(cfg, e, c, stamp);
      && r.cell.ms == Some(c.ms.value.(status := Merge(c.ms.value.status, c.local.value.ms.status, PatchedStatus(e, c))))
      && r.cell.local.None? && r.wrote
  {
  }

  /** What a step other than an applied patch does to the ManagedService and the copy. */
  predicate Unpatched(c: Cell, after: Cell, stamp: nat) {
    && (after.ms == c.ms
        || after.ms.None?
        || (c.ms.None? && after.ms.Some? && after.ms.value.uid == stamp && after.ms.value.specs != [] && after.ms.value.status == EMPTY_STATUS
            && |after.ms.value.specs| == 1)
        || (c.ms.Some? && after.ms.Some? && after.ms.value == c.ms.value.(specs := after.ms.value.specs)
            && c.ms.value.specs <= after.ms.value.specs))
    && (HasCopy(after.local) ==>
          if HasCopy(c.local) then after.local.value.ms == c.local.value.ms
          else c.ms == Some(after.local.value.ms) && after.ms == c.ms)
  }

  lemma UnpatchedStep(cfg: Config, e: Event, c: Cell, stamp: nat)
    requires !Patches(e.key, e, c)
    ensures Unpatched(c, EffectOf(cfg, e, c, stamp).cell, stamp)
  {
    if e.Environment? {
      ForeignUnpatched(c, e.change, stamp);
    } else {
      OperatorStepCases(cfg, e.key, c, stamp, e.fault, e.now);
      OperatorUnpatched(cfg, e, c, stamp, OperatorStep(cfg, e.key, c, stamp, e.fault, e.now));
    }
  }

  lemma ForeignUnpatched(c: Cell, change: ForeignChange, stamp: nat)
    ensures Unpatched(c, Changed(c, change, stamp), stamp)
  {
  }

  lemma OperatorUnpatched(cfg: Config, e: Event, c: Cell, stamp: nat, r: Effect)
    requires e.Operate? && !Patches(e.key, e, c)
    requires OperatorOutcome(cfg, e.key, c, stamp, e.fault, e.now, r)
    ensures Unpatched(c, r.cell, stamp)
  {
    match c.local
    case Some(WriteStatus(ms, plan)) => StatusUnpatched(e, c, ms, plan);
    case Some(Popped) => assert r.cell.ms == c.ms;
    case _ =>
  }

  lemma StatusUnpatched(e: Event, c: Cell, ms: ManagedService, plan: Plan)
    requires e.Operate? && !Patches(e.key, e, c) && c.local == Some(WriteStatus(ms, plan))
    ensures var r := StatusStep(e.key, c, ms, plan, e.fault, e.now); r.cell.ms == c.ms && r.cell.local.None? && r.counted == []
  {
  }

  lemma UnpatchedKept(c: Cell, after: Cell, clock: nat)
    requires IncarnationInv(c, clock) && Unpatched(c, after, clock)
    ensures IncarnationInv(after, clock + 1)
  {
  }

  lemma PatchedKept(key: Key, e: Event, c: Cell, after: Cell, clock: nat)
    requires IncarnationInv(c, clock) && Patches(key, e, c)
    requires after.local.None?
    requires after.ms == Some(c.ms.value.(status := Merge(c.ms.value.status, c.local.value.ms.status, PatchedStatus(e, c))))
    ensures IncarnationInv(after, clock + 1)
  {
    var ms := c.local.value.ms;
    UpsertWanted(ms.status.conditions, ms.CurrentSpec(), ms.Generation(), c.local.value.plan, e.now);
  }

  lemma IncarnationKept(cfg: Config, e: Event, c: Cell, clock: nat)
    requires IncarnationInv(c, clock)
    ensures IncarnationInv(NextCell(cfg, e, c, clock), clock + 1)
  {
    var r := EffectOf(cfg, e, c, clock);
    if Patches(e.key, e, c) {
      PatchEffect(cfg, e.key, e, c, clock);
      PatchedKept(e.key, e, c, r.cell, clock);
    } else {
      UnpatchedStep(cfg, e, c, clock);
      UnpatchedKept(c, r.cell, clock);
    }
  }

  ghost predicate IncarnationsInv(w: World) { forall key: Key :: IncarnationInv(At(w, key), w.clock) }

  lemma {:induction false} IncarnationsKept(cfg: Config, w: World, es: seq<Event>)
    requires IncarnationsInv(w)
    ensures IncarnationsInv(Run(cfg, w, es))
    decreases |es|
  {
    if es != [] {
      var before, e := Run(cfg, w, es[..|es| - 1]), es[|es| - 1];
      IncarnationsKept(cfg, w, es[..|es| - 1]);
      forall key: Key ensures IncarnationInv(At(Step(cfg, before, e), key), before.clock + 1) {
        StepAt(cfg, before, e, key);
        assert IncarnationInv(At(before, key), before.clock);
        if key == e.key { IncarnationKept(cfg, e, At(before, key), before.clock); }
      }
    }
  }

  // ----- The round trip of one patch

  /** The field changes, or ends up zero, as it is in an incarnation nobody has written. */
  predicate CarriesAll(before: Status, after: Status) {
    && before.observedGeneration != after.observedGeneration
    && (before.readyReplicas == after.readyReplicas ==> after.readyReplicas == 0)
    && (before.endpoint == after.endpoint ==> after.endpoint == "")
    && before.conditions != after.conditions
  }

  /**
   The stored status equals the computed one, even if the spec was edited since the read, exactly when the
   patch reaches the incarnation it was computed from or happens to carry every non-zero field.
   */
  lemma PatchRoundTrip(cfg: Config, key: Key, e: Event, c: Cell, clock: nat)
    requires IncarnationInv(c, clock) && Patches(key, e, c)
    ensures var after := EffectOf(cfg, e, c, clock).cell;
      && after.ms.Some? && after.ms.value == c.ms.value.(status := after.ms.value.status)
      && (after.ms.value.status == PatchedStatus(e, c)
          <==> !LandsElsewhere(key, e, c) || CarriesAll(c.local.value.ms.status, PatchedStatus(e, c)))
  {
    var ms := c.local.value.ms;
    PatchEffect(cfg, key, e, c, clock);
    UpsertWanted(ms.status.conditions, ms.CurrentSpec(), ms.Generation(), c.local.value.plan, e.now);
    MergeExact(c.ms.value.status, ms.status, PatchedStatus(e, c));
  }

  // ----- Claims about every state of a run, and what breaks them

  datatype Claim = GenerationBounded | GenerationsAgree | ConditionsWritten | DegradedIdle | Sound | Addressed

  predicate Bounded(ms: ManagedService) { ms.status.observedGeneration <= ms.Generation() }

  /** GenerationBounded also speaks of the operator's copy. */
  predicate Holds(claim: Claim, key: Key, c: Cell) {
    match claim
    case GenerationBounded =>
      (c.ms.Some? ==> Bounded(c.ms.value)) && (HasCopy(c.local) ==> Bounded(c.local.value.ms))
    case GenerationsAgree =>
      c.ms.Some? ==> ObservedAt(c.ms.value.status.conditions, c.ms.value.status.observedGeneration)
    case ConditionsWritten =>
      c.ms.Some? && c.ms.value.status != EMPTY_STATUS ==> Triad(c.ms.value.status.conditions)
    case DegradedIdle =>
      c.ms.Some? && c.ms.value.status.conditions != [] && c.ms.value.status.conditions[|c.ms.value.status.conditions| - 1].status == True ==>
        c.ms.value.status.readyReplicas == 0 && c.ms.value.status.endpoint == ""
    case Sound => c.ms.Some? ==> SoundStatus(key, c.ms.value)
    case Addressed =>
      c.ms.Some? && Addresses.LabelKey(key) ==>
        c.ms.value.status.endpoint == "" || Addresses.NamesService(c.ms.value.status.endpoint, key)
  }

  /** The patch carries nothing that an incarnation nobody has written does not have already. */
  predicate CarriesNothing(before: Status, after: Status) {
    && before.observedGeneration == after.observedGeneration && before.conditions == after.conditions
    && (before.readyReplicas != after.readyReplicas ==> after.readyReplicas == 0)
    && (before.endpoint != after.endpoint ==> after.endpoint == "")
  }

  /** The patch carries what a sound status needs, and what it says suits the spec that is stored. */
  predicate Suits(copy: ManagedService, plan: Plan, after: Status, stored: ManagedService) {
    && copy.status.observedGeneration != copy.Generation() && copy.status.conditions != after.conditions
    && 1 <= copy.Generation() <= stored.Generation()
    && (match plan
        case Degrade(_, _) => true
        case Succeed(n) =>
          && copy.status.endpoint != after.endpoint
          && (Ready(copy.CurrentSpec(), n)
              <==> Ready(stored.specs[copy.Generation() - 1], if copy.status.readyReplicas != n then n else 0)))
  }

  /** What the caller of the patch could check before sending it. */
  predicate Breaks(claim: Claim, key: Key, e: Event, c: Cell) {
    LandsElsewhere(key, e, c) &&
    var copy, after := c.local.value.ms, PatchedStatus(e, c);
    match claim
    case GenerationBounded =>
      copy.status.observedGeneration != copy.Generation() && copy.Generation() > c.ms.value.Generation()
    case GenerationsAgree =>
      copy.status.observedGeneration == copy.Generation() && copy.status.conditions != after.conditions
    case ConditionsWritten =>
      && copy.status.conditions == after.conditions
      && !(&& copy.status.observedGeneration == copy.Generation()
           && (copy.status.readyReplicas != after.readyReplicas ==> after.readyReplicas == 0)
           && (copy.status.endpoint != after.endpoint ==> after.endpoint == ""))
    case DegradedIdle => false
    case Addressed => false
    case Sound => !CarriesNothing(copy.status, after) && !Suits(copy, c.local.value.plan, after, c.ms.value)
  }

  /** One step keeps the claim exactly when it does not break it. */
  lemma ClaimStep(cfg: Config, claim: Claim, e: Event, c: Cell, clock: nat)
    requires IncarnationInv(c, clock) && Holds(claim, e.key, c)
    ensures Holds(claim, e.key, NextCell(cfg, e, c, clock)) <==> !Breaks(claim, e.key, e, c)
  {
    var r := EffectOf(cfg, e, c, clock);
    if Patches(e.key, e, c) {
      PatchEffect(cfg, e.key, e, c, clock);
      ClaimPatched(claim, e.key, e, c, r.cell, clock);
    } else {
      UnpatchedStep(cfg, e, c, clock);
      ClaimUnpatched(claim, e.key, c, r.cell, clock);
    }
  }

  lemma ClaimUnpatched(claim: Claim, key: Key, c: Cell, after: Cell, clock: nat)
    requires IncarnationInv(c, clock) && Holds(claim, key, c) && Unpatched(c, after, clock)
    ensures Holds(claim, key, after)
  {
  }

  lemma ClaimPatched(claim: Claim, key: Key, e: Event, c: Cell, after: Cell, clock: nat)
    requires IncarnationInv(c, clock) && Patches(key, e, c) && Holds(claim, key, c)
    requires after.local.None?
    requires after.ms == Some(c.ms.value.(status := Merge(c.ms.value.status, c.local.value.ms.status, PatchedStatus(e, c))))
    ensures Holds(claim, key, after) <==> !Breaks(claim, key, e, c)
  {
    var ms := c.local.value.ms;
    if claim.Addressed? {
      AddressedPatched(key, e, c, after);
      return;
    }
    UpsertWanted(ms.status.conditions, ms.CurrentSpec(), ms.Generation(), c.local.value.plan, e.now);
    if claim.Sound? {
      if LandsElsewhere(key, e, c) {
        SoundElsewhere(key, ms, c.local.value.plan, PatchedStatus(e, c), c.ms.value);
      } else {
        SoundAtHome(key, e, c, after);
      }
    }
  }

  lemma AddressedPatched(key: Key, e: Event, c: Cell, after: Cell)
    requires Patches(key, e, c) && Holds(Addressed, key, c)
    requires after.ms == Some(c.ms.value.(status := Merge(c.ms.value.status, c.local.value.ms.status, PatchedStatus(e, c))))
    ensures Holds(Addressed, key, after)
  {
    if Addresses.LabelKey(key) { Addresses.EndpointNamesService(key, Endpoint(key)); }
  }

  lemma SoundAtHome(key: Key, e: Event, c: Cell, after: Cell)
    requires Patches(key, e, c) && !LandsElsewhere(key, e, c) && CopyInv(c.local.value.ms, c.ms.value)
    requires TriadOrEmpty(c.local.value.ms.status.conditions) && c.local.value.ms.specs != []
    requires after.ms == Some(c.ms.value.(status := Merge(c.ms.value.status, c.local.value.ms.status, PatchedStatus(e, c))))
    ensures Holds(Sound, key, after)
  {
    var ms := c.local.value.ms;
    StatusForSound(key, ms, c.local.value.plan, e.now);
    assert after.ms.value.status == PatchedStatus(e, c);
    assert ms.specs[ms.Generation() - 1] == c.ms.value.specs[ms.Generation() - 1];
  }

  /** What a plan writes for an incarnation. */
  predicate Computed(key: Key, copy: ManagedService, plan: Plan, after: Status) {
    && after.observedGeneration == copy.Generation() > 0
    && Triad(after.conditions) && ObservedAt(after.conditions, copy.Generation())
    && match plan
       case Succeed(n) =>
         && after.readyReplicas == n && after.endpoint == Endpoint(key)
         && after.conditions[2].status == False && (after.conditions[0].status == True <==> Ready(copy.CurrentSpec(), n))
       case Degrade(_, _) => after.readyReplicas == 0 && after.endpoint == "" && after.conditions[2].status == True
  }

  lemma MergeEmpty(before: Status, after: Status)
    ensures Merge(EMPTY_STATUS, before, after) == EMPTY_STATUS <==>
      && (before.observedGeneration != after.observedGeneration ==> after.observedGeneration == 0)
      && (before.readyReplicas != after.readyReplicas ==> after.readyReplicas == 0)
      && (before.endpoint != after.endpoint ==> after.endpoint == "")
      && (before.conditions != after.conditions ==> after.conditions == [])
  {
  }

  /** A status computed for one incarnation, on another that nobody has written. */
  lemma SoundElsewhere(key: Key, copy: ManagedService, plan: Plan, after: Status, stored: ManagedService)
    requires stored.status == EMPTY_STATUS && Computed(key, copy, plan, after)
    ensures SoundStatus(key, stored.(status := Merge(EMPTY_STATUS, copy.status, after)))
            <==> CarriesNothing(copy.status, after) || Suits(copy, plan, after, stored)
  {
    assert |Endpoint(key)| > 0;
    MergeEmpty(copy.status, after);
    var merged := Merge(EMPTY_STATUS, copy.status, after);
    if merged != EMPTY_STATUS && copy.status.conditions != after.conditions {
      assert merged.conditions == after.conditions;
    }
  }

  ghost predicate HoldsAt(claim: Claim, w: World) { forall key: Key :: Holds(claim, key, At(w, key)) }

  /** The claim holds in every state of the run, the first and the last included. */
  ghost predicate HoldsThroughout(claim: Claim, cfg: Config, w: World, es: seq<Event>)
    decreases |es|
  {
    HoldsAt(claim, Run(cfg, w, es)) && (es == [] || HoldsThroughout(claim, cfg, w, es[..|es| - 1]))
  }

  predicate BreaksAt(claim: Claim, w: World, e: Event) { Breaks(claim, e.key, e, At(w, e.key)) }

  lemma ClaimAtOthers(cfg: Config, claim: Claim, w: World, e: Event, key: Key)
    requires HoldsAt(claim, w) && key != e.key
    ensures Holds(claim, key, At(Step(cfg, w, e), key))
  {
    assert Holds(claim, key, At(w, key));
    StepAt(cfg, w, e, key);
  }

  lemma ClaimAtOwn(cfg: Config, claim: Claim, w: World, e: Event)
    requires IncarnationsInv(w) && HoldsAt(claim, w)
    ensures Holds(claim, e.key, At(Step(cfg, w, e), e.key)) <==> !BreaksAt(claim, w, e)
  {
    assert IncarnationInv(At(w, e.key), w.clock) && Holds(claim, e.key, At(w, e.key));
    StepAt(cfg, w, e, e.key);
    ClaimStep(cfg, claim, e, At(w, e.key), w.clock);
  }

  lemma ClaimWorldStep(cfg: Config, claim: Claim, w: World, e: Event)
    requires IncarnationsInv(w) && HoldsAt(claim, w)
    ensures HoldsAt(claim, Step(cfg, w, e)) <==> !BreaksAt(claim, w, e)
  {
    var next := Step(cfg, w, e);
    ClaimAtOwn(cfg, claim, w, e);
    if !BreaksAt(claim, w, e) {
      forall key: Key ensures Holds(claim, key, At(next, key)) {
        if key != e.key { ClaimAtOthers(cfg, claim, w, e, key); }
      }
    } else {
      assert !Holds(claim, e.key, At(next, e.key));
    }
  }

  /** No step of the run breaks the claim. */
  predicate Unbroken(claim: Claim, cfg: Config, w: World, es: seq<Event>)
    decreases |es|
  {
    es == [] ||
    (Unbroken(claim, cfg, w, es[..|es| - 1]) && !BreaksAt(claim, Run(cfg, w, es[..|es| - 1]), es[|es| - 1]))
  }

  lemma {:induction false} HoldsAtEnd(claim: Claim, cfg: Config, w: World, es: seq<Event>)
    requires HoldsThroughout(claim, cfg, w, es)
    ensures HoldsAt(claim, Run(cfg, w, es))
  {
  }

  /** A claim that holds at the start holds throughout a run exactly when no step of the run breaks it. */
  lemma {:induction false} ClaimThroughout(cfg: Config, claim: Claim, w: World, es: seq<Event>)
    requires IncarnationsInv(w) && HoldsAt(claim, w)
    ensures HoldsThroughout(claim, cfg, w, es) <==> Unbroken(claim, cfg, w, es)
    decreases |es|
  {
    if es != [] {
      var init := es[..|es| - 1];
      ClaimThroughout(cfg, claim, w, init);
      if HoldsThroughout(claim, cfg, w, init) {
        HoldsAtEnd(claim, cfg, w, init);
        IncarnationsKept(cfg, w, init);
        ClaimWorldStep(cfg, claim, Run(cfg, w, init), es[|es| - 1]);
      }
    }
  }

  // ----- The observed generation of one incarnation

  /** The patch reaches its own incarnation, whose status is ahead of the generation that was read. */
  predicate Retreats(key: Key, e: Event, c: Cell) {
    && Patches(key, e, c) && !LandsElsewhere(key, e, c)
    && c.local.value.ms.status.observedGeneration > c.local.value.ms.Generation()
  }

  predicate SameIncarnation(before: Option<ManagedService>, after: Option<ManagedService>) {
    before.Some? && after.Some? && before.value.uid == after.value.uid
  }

  lemma CellRetreats(cfg: Config, e: Event, c: Cell, clock: nat)
    requires IncarnationInv(c, clock)
    ensures var after := EffectOf(cfg, e, c, clock).cell.ms;
      && (SameIncarnation(c.ms, after) ==> c.ms.value.Generation() <= after.value.Generation())
      && (SameIncarnation(c.ms, after) && after.value.status.observedGeneration < c.ms.value.status.observedGeneration
          <==> Retreats(e.key, e, c))
  {
    if Patches(e.key, e, c) {
      PatchEffect(cfg, e.key, e, c, clock);
    } else {
      UnpatchedStep(cfg, e, c, clock);
    }
  }

  /**
   Within an incarnation the generation never decreases, and the observed generation does exactly when the
   step retreats.
   */
  lemma ObservedGenerationGrows(cfg: Config, w: World, e: Event, key: Key)
    requires IncarnationsInv(w)
    ensures var before, after := At(w, key).ms, At(Step(cfg, w, e), key).ms;
      && (SameIncarnation(before, after) ==> before.value.Generation() <= after.value.Generation())
      && (SameIncarnation(before, after) && after.value.status.observedGeneration < before.value.status.observedGeneration
          <==> key == e.key && Retreats(key, e, At(w, key)))
  {
    StepAt(cfg, w, e, key);
    assert IncarnationInv(At(w, key), w.clock);
    if key == e.key { CellRetreats(cfg, e, At(w, key), w.clock); }
  }

  predicate RetreatsAt(w: World, e: Event) { Retreats(e.key, e, At(w, e.key)) }

  /** No observed generation goes back in the step. */
  ghost predicate GrowsIn(cfg: Config, w: World, e: Event) {
    forall key: Key :: GrowsAt(At(w, key).ms, At(Step(cfg, w, e), key).ms)
  }

  predicate GrowsAt(before: Option<ManagedService>, after: Option<ManagedService>) {
    SameIncarnation(before, after) ==> before.value.status.observedGeneration <= after.value.status.observedGeneration
  }

  ghost predicate GrowsThroughout(cfg: Config, w: World, es: seq<Event>)
    decreases |es|
  {
    es == [] ||
    (GrowsThroughout(cfg, w, es[..|es| - 1]) && GrowsIn(cfg, Run(cfg, w, es[..|es| - 1]), es[|es| - 1]))
  }

  predicate NeverRetreats(cfg: Config, w: World, es: seq<Event>)
    decreases |es|
  {
    es == [] ||
    (NeverRetreats(cfg, w, es[..|es| - 1]) && !RetreatsAt(Run(cfg, w, es[..|es| - 1]), es[|es| - 1]))
  }

  lemma GrowsUnlessRetreats(cfg: Config, w: World, e: Event)
    requires IncarnationsInv(w)
    ensures GrowsIn(cfg, w, e) <==> !RetreatsAt(w, e)
  {
    ObservedGenerationGrows(cfg, w, e, e.key);
    if !RetreatsAt(w, e) {
      forall key: Key ensures GrowsAt(At(w, key).ms, At(Step(cfg, w, e), key).ms) {
        ObservedGenerationGrows(cfg, w, e, key);
      }
    } else {
      assert !GrowsAt(At(w, e.key).ms, At(Step(cfg, w, e), e.key).ms);
    }
  }

  /** The observed generation of no incarnation ever decreases exactly when no step of the run retreats. */
  lemma {:induction false} GrowsIffNeverRetreats(cfg: Config, w: World, es: seq<Event>)
    requires IncarnationsInv(w)
    ensures GrowsThroughout(cfg, w, es) <==> NeverRetreats(cfg, w, es)
    decreases |es|
  {
    if es != [] {
      var init := es[..|es| - 1];
      GrowsIffNeverRetreats(cfg, w, init);
      IncarnationsKept(cfg, w, init);
      GrowsUnlessRetreats(cfg, Run(cfg, w, init), es[|es| - 1]);
    }
  }

  // ----- Claims that nothing breaks, and runs that break none

  predicate Unbreakable(claim: Claim) { claim.DegradedIdle? || claim.Addressed? }

  lemma {:induction false} NothingBreaks(cfg: Config, claim: Claim, w: World, es: seq<Event>)
    requires Unbreakable(claim)
    ensures Unbroken(claim, cfg, w, es)
    decreases |es|
  {
    if es != [] {
      NothingBreaks(cfg, claim, w, es[..|es| - 1]);
      NeverBreaks(claim, Run(cfg, w, es[..|es| - 1]), es[|es| - 1]);
    }
  }

  lemma NeverBreaks(claim: Claim, w: World, e: Event)
    requires Unbreakable(claim)
    ensures !BreaksAt(claim, w, e)
  {
  }

  /** A degraded status never shows replicas or an endpoint, whichever incarnation it lands on. */
  lemma DegradedShowsNothing(cfg: Config, w: World, es: seq<Event>)
    requires IncarnationsInv(w) && HoldsAt(DegradedIdle, w)
    ensures HoldsThroughout(DegradedIdle, cfg, w, es)
  {
    NothingBreaks(cfg, DegradedIdle, w, es);
    ClaimThroughout(cfg, DegradedIdle, w, es);
  }

  /** Every endpoint ever stored names the Service of its own key, stray patches included. */
  lemma EndpointsAddressed(cfg: Config, w: World, es: seq<Event>)
    requires IncarnationsInv(w) && HoldsAt(Addressed, w)
    ensures HoldsThroughout(Addressed, cfg, w, es)
  {
    NothingBreaks(cfg, Addressed, w, es);
    ClaimThroughout(cfg, Addressed, w, es);
  }

  /** The event is a patch that reaches another incarnation than the one it was computed from. */
  predicate Strays(w: World, e: Event) { LandsElsewhere(e.key, e, At(w, e.key)) }

  /** No patch of the run strays. */
  predicate StaysHome(cfg: Config, w: World, es: seq<Event>)
    decreases |es|
  {
    es == [] || (StaysHome(cfg, w, es[..|es| - 1]) && !Strays(Run(cfg, w, es[..|es| - 1]), es[|es| - 1]))
  }

  lemma OnlyStraysBreak(claim: Claim, w: World, e: Event)
    ensures BreaksAt(claim, w, e) ==> Strays(w, e)
  {
  }

  lemma {:induction false} HomeUnbroken(cfg: Config, claim: Claim, w: World, es: seq<Event>)
    requires StaysHome(cfg, w, es)
    ensures Unbroken(claim, cfg, w, es)
    decreases |es|
  {
    if es != [] {
      HomeUnbroken(cfg, claim, w, es[..|es| - 1]);
      OnlyStraysBreak(claim, Run(cfg, w, es[..|es| - 1]), es[|es| - 1]);
    }
  }

  /** Such a run breaks no claim. */
  lemma HomeHolds(cfg: Config, claim: Claim, w: World, es: seq<Event>)
    requires IncarnationsInv(w) && HoldsAt(claim, w) && StaysHome(cfg, w, es)
    ensures HoldsThroughout(claim, cfg, w, es)
  {
    HomeUnbroken(cfg, claim, w, es);
    ClaimThroughout(cfg, claim, w, es);
  }
}
