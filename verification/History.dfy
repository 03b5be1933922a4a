/**
 The transition counters against the history of persisted condition changes
 (internal/controller/managedservice_metrics.go, lines 132-153). The history is read off the stored
 objects alone.
 */
module History {
  import opened Wrappers
  import opened Objects
  import opened Children
  import opened Conditions
  import opened Operator
  import opened StepFacts
  import opened Incarnations
  import MergePatch

  // ----- What is persisted

  datatype Entry = Entry(key: Key, uid: nat, series: Series)

  /** The condition changes that a step persists in the incarnation stored before and after it. */
  function PersistedBy(before: Option<ManagedService>, after: Option<ManagedService>): seq<Series> {
    if before.Some? && after.Some? && before.value.uid == after.value.uid then
      Transitions(before.value.status.conditions, after.value.status.conditions)
    else []
  }

  function Entries(key: Key, uid: nat, changes: seq<Series>): seq<Entry> {
    if changes == [] then []
    else Entries(key, uid, changes[..|changes| - 1]) + [Entry(key, uid, changes[|changes| - 1])]
  }

  function StepHistory(cfg: Config, w: World, e: Event): seq<Entry> {
    var before, after := At(w, e.key).ms, At(Step(cfg, w, e), e.key).ms;
    if before.None? then [] else Entries(e.key, before.value.uid, PersistedBy(before, after))
  }

  /** All persisted condition changes of a run, oldest first. */
  function HistoryOf(cfg: Config, w: World, es: seq<Event>): seq<Entry>
    decreases |es|
  {
    if es == [] then []
    else HistoryOf(cfg, w, es[..|es| - 1]) + StepHistory(cfg, Run(cfg, w, es[..|es| - 1]), es[|es| - 1])
  }

  function SeriesOf(h: seq<Entry>): multiset<Series> {
    if h == [] then multiset{} else SeriesOf(h[..|h| - 1]) + multiset{h[|h| - 1].series}
  }

  // ----- Transitions between well-formed condition lists

  lemma KindsDiffer()
    ensures AVAILABLE != PROGRESSING && AVAILABLE != DEGRADED && PROGRESSING != DEGRADED
  {
    assert |AVAILABLE| == 9 && |PROGRESSING| == 11 && |DEGRADED| == 8;
  }

  lemma TriadStatuses(cs: seq<Condition>)
    requires TriadOrEmpty(cs)
    ensures cs == [] ==> StatusOf(cs, AVAILABLE).None? && StatusOf(cs, PROGRESSING).None? && StatusOf(cs, DEGRADED).None?
    ensures cs != [] ==>
      && StatusOf(cs, AVAILABLE) == Some(cs[0].status)
      && StatusOf(cs, PROGRESSING) == Some(cs[1].status)
      && StatusOf(cs, DEGRADED) == Some(cs[2].status)
  {
    KindsDiffer();
    if cs != [] {
      assert Find(cs[1..], PROGRESSING) == Some(cs[1]);
      assert Find(cs[1..], DEGRADED) == Find(cs[1..][1..], DEGRADED) == Some(cs[2]);
    }
  }

  /** First appearances are three changes; between two written lists at least one condition keeps its status. */
  lemma TransitionCounts(before: seq<Condition>, after: seq<Condition>)
    requires TriadOrEmpty(before) && Triad(after)
    ensures before == [] ==> |Transitions(before, after)| == 3
    ensures before != [] ==> |Transitions(before, after)| < 3
    ensures multiset(Transitions(before, after)) <= multiset(Transitions([], after))
  {
    TriadStatuses(before);
    TriadStatuses(after);
    TriadStatuses([]);
    if before == [] {
      StatusChanges(None, None, None,
        after[0].status, after[1].status, after[2].status, AVAILABLE, PROGRESSING, DEGRADED);
    } else {
      StatusChanges(Some(before[0].status), Some(before[1].status), Some(before[2].status),
        after[0].status, after[1].status, after[2].status, AVAILABLE, PROGRESSING, DEGRADED);
    }
  }

  lemma StatusChanges(
    ba: Option<ConditionStatus>, bp: Option<ConditionStatus>, bd: Option<ConditionStatus>,
    a: ConditionStatus, p: ConditionStatus, d: ConditionStatus, ka: string, kp: string, kd: string)
    ensures var changes := Change(ba, Some(a), ka) + Change(bp, Some(p), kp) + Change(bd, Some(d), kd);
      var all := Change(None, Some(a), ka) + Change(None, Some(p), kp) + Change(None, Some(d), kd);
      && multiset(changes) <= multiset(all)
      && |changes| == Bit(ba != Some(a)) + Bit(bp != Some(p)) + Bit(bd != Some(d))
  {
    OneChange(ba, a, ka);
    OneChange(bp, p, kp);
    OneChange(bd, d, kd);
    Concatenations(
      Change(ba, Some(a), ka), Change(bp, Some(p), kp), Change(bd, Some(d), kd),
      Change(None, Some(a), ka), Change(None, Some(p), kp), Change(None, Some(d), kd));
  }

  lemma OneChange(before: Option<ConditionStatus>, after: ConditionStatus, kind: string)
    ensures multiset(Change(before, Some(after), kind)) <= multiset(Change(None, Some(after), kind))
    ensures |Change(before, Some(after), kind)| == Bit(before != Some(after))
  {
  }

  lemma Concatenations<T>(x: seq<T>, y: seq<T>, z: seq<T>, x0: seq<T>, y0: seq<T>, z0: seq<T>)
    requires multiset(x) <= multiset(x0) && multiset(y) <= multiset(y0) && multiset(z) <= multiset(z0)
    ensures multiset(x + y + z) <= multiset(x0 + y0 + z0)
  {
    assert multiset(x + y + z) == multiset(x) + multiset(y) + multiset(z);
    assert multiset(x0 + y0 + z0) == multiset(x0) + multiset(y0) + multiset(z0);
  }

  // ----- One step

  /** The patch reaches another incarnation and replaces conditions that had been written before. */
  predicate Miscounts(key: Key, e: Event, c: Cell) {
    && LandsElsewhere(key, e, c)
    && c.local.value.ms.status.conditions != []
    && c.local.value.ms.status.conditions != PatchedStatus(e, c).conditions
  }

  /** The counters miss changes exactly when the step miscounts, and never count one too many. */
  lemma CountedStep(cfg: Config, e: Event, c: Cell, clock: nat)
    requires IncarnationInv(c, clock)
    ensures var r := EffectOf(cfg, e, c, clock); var persisted := PersistedBy(c.ms, r.cell.ms);
      && multiset(r.counted) <= multiset(persisted)
      && (|r.counted| == |persisted| <==> !Miscounts(e.key, e, c))
      && (!Miscounts(e.key, e, c) ==> r.counted == persisted)
  {
    var r := EffectOf(cfg, e, c, clock);
    if Patches(e.key, e, c) {
      PatchEffect(cfg, e.key, e, c, clock);
      PatchCounted(e.key, e, c, clock);
      PatchCounts(cfg, e.key, e, c, clock);
    } else {
      UnpatchedStep(cfg, e, c, clock);
      UnpatchedCounted(cfg, e, c, clock);
      UnpatchedPersists(c, r.cell, clock);
    }
  }

  lemma PatchCounts(cfg: Config, key: Key, e: Event, c: Cell, clock: nat)
    requires Patches(key, e, c)
    ensures EffectOf(cfg, e, c, clock).counted == CountedBy(c.ms.value.status, c.local.value.ms.status, PatchedStatus(e, c))
  {
    var l := c.local.value;
    StatusCounts(key, c, l.ms, l.plan, e.now);
    assert EffectOf(cfg, e, c, clock) == StatusStep(key, c, l.ms, l.plan, None, e.now);
  }

  lemma StatusCounts(key: Key, c: Cell, ms: ManagedService, plan: Plan, now: int)
    requires c.ms.Some? && StatusFor(key, ms, plan, now) != ms.status
    ensures StatusStep(key, c, ms, plan, None, now).counted == CountedBy(c.ms.value.status, ms.status, StatusFor(key, ms, plan, now))
  {
  }

  lemma UnpatchedCounted(cfg: Config, e: Event, c: Cell, stamp: nat)
    requires !Patches(e.key, e, c)
    ensures EffectOf(cfg, e, c, stamp).counted == []
  {
    if e.Operate? {
      OperatorStepCases(cfg, e.key, c, stamp, e.fault, e.now);
      match c.local
      case Some(WriteStatus(ms, plan)) => StatusUnpatched(e, c, ms, plan);
      case _ =>
    }
  }

  lemma UnpatchedPersists(c: Cell, after: Cell, clock: nat)
    requires IncarnationInv(c, clock) && Unpatched(c, after, clock)
    ensures PersistedBy(c.ms, after.ms) == []
  {
  }

  lemma PatchCounted(key: Key, e: Event, c: Cell, clock: nat)
    requires IncarnationInv(c, clock) && Patches(key, e, c)
    ensures var ms, after := c.local.value.ms, PatchedStatus(e, c);
      CountedRight(c.ms.value.status, ms.status, after, Miscounts(key, e, c))
  {
    var ms, after := c.local.value.ms, PatchedStatus(e, c);
    UpsertWanted(ms.status.conditions, ms.CurrentSpec(), ms.Generation(), c.local.value.plan, e.now);
    MergeCounted(c.ms.value.status, ms.status, after);
  }

  /** What the patch counts, given the stored status, the one it was computed from and the one it aims at. */
  function CountedBy(stored: Status, before: Status, after: Status): seq<Series> {
    Transitions(before.conditions, Decoded(after.conditions, MergePatch.Merge(stored, before, after).conditions))
  }

  /** What the patch persists. */
  function PersistedIn(stored: Status, before: Status, after: Status): seq<Series> {
    Transitions(stored.conditions, MergePatch.Merge(stored, before, after).conditions)
  }

  predicate CountedRight(stored: Status, before: Status, after: Status, miscounts: bool) {
    var counted, persisted := CountedBy(stored, before, after), PersistedIn(stored, before, after);
    && multiset(counted) <= multiset(persisted)
    && (|counted| == |persisted| <==> !miscounts)
    && (!miscounts ==> counted == persisted)
  }

  lemma MergeCounted(stored: Status, before: Status, after: Status)
    requires stored == before || stored == EMPTY_STATUS
    requires TriadOrEmpty(before.conditions) && Triad(after.conditions)
    ensures CountedRight(stored, before, after,
              stored != before && before.conditions != [] && before.conditions != after.conditions)
    ensures stored == before ==> CountedBy(stored, before, after) == PersistedIn(stored, before, after)
  {
    if stored != before {
      if before.conditions == after.conditions {
        NoTransitions(after.conditions);
        NoTransitions([]);
      } else {
        TransitionCounts(before.conditions, after.conditions);
        TransitionCounts([], after.conditions);
      }
    }
  }

  lemma NoTransitions(cs: seq<Condition>)
    ensures Transitions(cs, cs) == []
  {
  }

  // ----- Runs: counters equal history

  predicate MiscountsAt(w: World, e: Event) { Miscounts(e.key, e, At(w, e.key)) }

  /** No step of the run miscounts. */
  predicate CountsWell(cfg: Config, w: World, es: seq<Event>)
    decreases |es|
  {
    es == [] ||
    (CountsWell(cfg, w, es[..|es| - 1]) && !MiscountsAt(Run(cfg, w, es[..|es| - 1]), es[|es| - 1]))
  }

  lemma SeriesSnoc(h: seq<Entry>, entry: Entry)
    ensures SeriesOf(h + [entry]) == SeriesOf(h) + multiset{entry.series}
  {
    assert (h + [entry])[..|h|] == h;
  }

  lemma {:induction false} SeriesConcat(h: seq<Entry>, es: seq<Entry>)
    ensures SeriesOf(h + es) == SeriesOf(h) + SeriesOf(es)
    decreases |es|
  {
    if es == [] {
      assert h + es == h;
    } else {
      assert (h + es)[..|h + es| - 1] == h + es[..|es| - 1];
      SeriesConcat(h, es[..|es| - 1]);
    }
  }

  lemma {:induction false} SeriesOfEntries(key: Key, uid: nat, changes: seq<Series>)
    ensures SeriesOf(Entries(key, uid, changes)) == multiset(changes)
    decreases |changes|
  {
    if changes != [] {
      var n := |changes| - 1;
      SeriesOfEntries(key, uid, changes[..n]);
      SeriesSnoc(Entries(key, uid, changes[..n]), Entry(key, uid, changes[n]));
      MultisetSnoc(changes, n);
    }
  }

  lemma MultisetSnoc<T>(xs: seq<T>, n: nat)
    requires |xs| == n + 1
    ensures multiset(xs) == multiset(xs[..n]) + multiset{xs[n]}
  {
    assert xs == xs[..n] + [xs[n]];
  }

  lemma EntriesSeries(h: seq<Entry>, key: Key, uid: nat, changes: seq<Series>)
    ensures SeriesOf(h + Entries(key, uid, changes)) == SeriesOf(h) + multiset(changes)
  {
    SeriesConcat(h, Entries(key, uid, changes));
    SeriesOfEntries(key, uid, changes);
  }

  /** The world's own step, with its share of history. */
  lemma WorldStepCounts(cfg: Config, w: World, e: Event, h: seq<Entry>)
    requires IncarnationsInv(w)
    ensures exists counted: seq<Series>, persisted: seq<Series> ::
      && Step(cfg, w, e).transitions == w.transitions + multiset(counted)
      && SeriesOf(h + StepHistory(cfg, w, e)) == SeriesOf(h) + multiset(persisted)
      && multiset(counted) <= multiset(persisted)
      && (|counted| == |persisted| <==> !MiscountsAt(w, e))
      && (!MiscountsAt(w, e) ==> counted == persisted)
  {
    var c := At(w, e.key);
    var r := EffectOf(cfg, e, c, w.clock);
    StepAt(cfg, w, e, e.key);
    assert IncarnationInv(c, w.clock);
    CountedStep(cfg, e, c, w.clock);
    var persisted := PersistedBy(c.ms, r.cell.ms);
    if c.ms.Some? {
      EntriesSeries(h, e.key, c.ms.value.uid, persisted);
    } else {
      assert h + StepHistory(cfg, w, e) == h;
    }
    assert Step(cfg, w, e).transitions == w.transitions + multiset(r.counted);
  }

  /**
   The counters never run ahead of the history, and they equal it at the end of a run exactly when no
   patch of the run miscounts.
   */
  lemma {:induction false} CountersAndHistory(cfg: Config, w: World, es: seq<Event>)
    requires IncarnationsInv(w)
    ensures var counters, history := Run(cfg, w, es).transitions, w.transitions + SeriesOf(HistoryOf(cfg, w, es));
      && counters <= history
      && (counters == history <==> CountsWell(cfg, w, es))
    decreases |es|
  {
    if es != [] {
      var n := |es| - 1;
      var init, before := es[..n], Run(cfg, w, es[..n]);
      var h := HistoryOf(cfg, w, init);
      CountersAndHistory(cfg, w, init);
      IncarnationsKept(cfg, w, init);
      WorldStepCounts(cfg, before, es[n], h);
      var counted: seq<Series>, persisted: seq<Series> :|
        && Step(cfg, before, es[n]).transitions == before.transitions + multiset(counted)
        && SeriesOf(h + StepHistory(cfg, before, es[n])) == SeriesOf(h) + multiset(persisted)
        && multiset(counted) <= multiset(persisted)
        && (|counted| == |persisted| <==> !MiscountsAt(before, es[n]))
        && (!MiscountsAt(before, es[n]) ==> counted == persisted);
      Multisets(before.transitions, w.transitions + SeriesOf(h), counted, persisted);
    }
  }

  /** A shortfall of counters against history can only grow. */
  lemma Multisets(counters: multiset<Series>, history: multiset<Series>, counted: seq<Series>, persisted: seq<Series>)
    requires counters <= history && multiset(counted) <= multiset(persisted)
    ensures counters + multiset(counted) <= history + multiset(persisted)
    ensures counters + multiset(counted) == history + multiset(persisted)
            <==> counters == history && multiset(counted) == multiset(persisted)
    ensures multiset(counted) == multiset(persisted) ==> |counted| == |persisted|
  {
    assert |multiset(counted)| == |counted| && |multiset(persisted)| == |persisted|;
    if counters + multiset(counted) == history + multiset(persisted) {
      forall s: Series ensures counters[s] == history[s] && multiset(counted)[s] == multiset(persisted)[s] {
        assert (counters + multiset(counted))[s] == (history + multiset(persisted))[s];
      }
    }
  }
}
