/**
 The persisted changes of one condition of one incarnation alternate, so its true and false counts differ
 by at most one, and the counters differ by at most the number of incarnations.
 */
module Balance {
  import opened Wrappers
  import opened Objects
  import opened Children
  import opened Conditions
  import opened Operator
  import opened StepFacts
  import opened Incarnations
  import opened History
  import MergePatch

  /** The statuses that one condition of one incarnation went through. */
  function Statuses(h: seq<Entry>, key: Key, uid: nat, kind: string): seq<ConditionStatus> {
    if h == [] then []
    else
      var last := h[|h| - 1];
      Statuses(h[..|h| - 1], key, uid, kind)
      + (if last.key == key && last.uid == uid && last.series.condition == kind then [last.series.status] else [])
  }

  predicate Alternates(s: seq<ConditionStatus>) {
    && (forall i | 0 <= i < |s| :: s[i] == True || s[i] == False)
    && (forall i | 0 < i < |s| :: s[i] != s[i - 1])
  }

  predicate IsConditionType(kind: string) { kind == AVAILABLE || kind == PROGRESSING || kind == DEGRADED }

  /** The statuses that a list of changes gives one condition. */
  function Given(changes: seq<Series>, kind: string): seq<ConditionStatus> {
    if changes == [] then []
    else Given(changes[..|changes| - 1], kind)
         + (if changes[|changes| - 1].condition == kind then [changes[|changes| - 1].status] else [])
  }

  lemma {:induction false} GivenConcat(a: seq<Series>, b: seq<Series>, kind: string)
    ensures Given(a + b, kind) == Given(a, kind) + Given(b, kind)
    decreases |b|
  {
    if b == [] {
      assert a + b == a;
    } else {
      var n := |b| - 1;
      assert (a + b)[..|a + b| - 1] == a + b[..n];
      GivenConcat(a, b[..n], kind);
    }
  }

  lemma GivenChange(before: Option<ConditionStatus>, after: Option<ConditionStatus>, of: string, kind: string)
    ensures Given(Change(before, after, of), kind)
            == if of == kind && after.Some? && after != before then [after.value] else []
  {
    var c := Change(before, after, of);
    if c != [] {
      assert c[..|c| - 1] == [];
    }
  }

  /** Among the changes of a step, a condition gets its new status once if it differs, and nothing otherwise. */
  lemma GivenTransitions(before: seq<Condition>, after: seq<Condition>, kind: string)
    requires IsConditionType(kind)
    ensures Given(Transitions(before, after), kind) == Given(Change(StatusOf(before, kind), StatusOf(after, kind), kind), kind)
  {
    KindsDiffer();
    var a, p, d := Transition(before, after, AVAILABLE), Transition(before, after, PROGRESSING), Transition(before, after, DEGRADED);
    GivenConcat(a + p, d, kind);
    GivenConcat(a, p, kind);
    GivenChange(StatusOf(before, AVAILABLE), StatusOf(after, AVAILABLE), AVAILABLE, kind);
    GivenChange(StatusOf(before, PROGRESSING), StatusOf(after, PROGRESSING), PROGRESSING, kind);
    GivenChange(StatusOf(before, DEGRADED), StatusOf(after, DEGRADED), DEGRADED, kind);
  }

  lemma {:induction false} StatusesOfEntries(h: seq<Entry>, key: Key, uid: nat, changes: seq<Series>, k: Key, u: nat, kind: string)
    ensures Statuses(h + Entries(key, uid, changes), k, u, kind)
            == Statuses(h, k, u, kind) + (if k == key && u == uid then Given(changes, kind) else [])
    decreases |changes|
  {
    var es := Entries(key, uid, changes);
    if changes == [] {
      assert h + es == h;
    } else {
      var n := |changes| - 1;
      var rest := Entries(key, uid, changes[..n]);
      var x := h + rest;
      StatusesOfEntries(h, key, uid, changes[..n], k, u, kind);
      assert h + es == x + [Entry(key, uid, changes[n])];
      StatusesSnoc(x, Entry(key, uid, changes[n]), k, u, kind);
    }
  }

  lemma StatusesSnoc(h: seq<Entry>, last: Entry, key: Key, uid: nat, kind: string)
    ensures Statuses(h + [last], key, uid, kind)
            == Statuses(h, key, uid, kind)
               + (if last.key == key && last.uid == uid && last.series.condition == kind then [last.series.status] else [])
  {
    assert (h + [last])[..|h|] == h;
  }

  // ----- One incarnation, one condition

  /** What the history of one condition of one incarnation looks like, given what is stored. */
  predicate Chained(s: seq<ConditionStatus>, ms: Option<ManagedService>, uid: nat, kind: string, clock: nat) {
    && Alternates(s)
    && (s != [] ==> uid < clock)
    && (s != [] && ms.Some? && ms.value.uid == uid ==> StatusOf(ms.value.status.conditions, kind) == Some(s[|s| - 1]))
  }

  predicate ChainedAt(h: seq<Entry>, w: World, key: Key, uid: nat, kind: string) {
    Chained(Statuses(h, key, uid, kind), At(w, key).ms, uid, kind, w.clock)
  }

  /** How a step moves the stored ManagedService. */
  lemma StoredMoves(cfg: Config, e: Event, c: Cell, clock: nat)
    requires IncarnationInv(c, clock)
    ensures var after := EffectOf(cfg, e, c, clock).cell.ms;
      && (after.Some? ==> TriadOrEmpty(after.value.status.conditions))
      && (after.Some? && c.ms.Some? && after.value.uid == c.ms.value.uid && c.ms.value.status.conditions != [] ==>
            after.value.status.conditions != [])
      && (after.Some? && (c.ms.None? || after.value.uid != c.ms.value.uid) ==> after.value.uid == clock)
  {
    if Patches(e.key, e, c) {
      PatchEffect(cfg, e.key, e, c, clock);
      var ms := c.local.value.ms;
      UpsertWanted(ms.status.conditions, ms.CurrentSpec(), ms.Generation(), c.local.value.plan, e.now);
    } else {
      UnpatchedStep(cfg, e, c, clock);
    }
  }

  /** Appending the new status, where there is a change, keeps the alternation. */
  lemma Extend(s: seq<ConditionStatus>, before: Option<ConditionStatus>, after: Option<ConditionStatus>)
    requires Alternates(s) && (s != [] ==> before == Some(s[|s| - 1]))
    requires after.Some? ==> after.value == True || after.value == False
    requires before.Some? ==> after.Some?
    ensures var t := s + (if after.Some? && after != before then [after.value] else []);
            Alternates(t) && (t != [] ==> after == Some(t[|t| - 1]))
  {
  }

  lemma StaysChained(s: seq<ConditionStatus>, b: seq<Condition>, a: seq<Condition>, kind: string)
    requires Alternates(s) && (s != [] ==> StatusOf(b, kind) == Some(s[|s| - 1])) && IsConditionType(kind)
    requires TriadOrEmpty(b) && TriadOrEmpty(a) && (b != [] ==> a != [])
    ensures var t := s + Given(Transitions(b, a), kind);
      Alternates(t) && (t != [] ==> StatusOf(a, kind) == Some(t[|t| - 1]))
  {
    TriadStatuses(b);
    TriadStatuses(a);
    GivenTransitions(b, a, kind);
    GivenChange(StatusOf(b, kind), StatusOf(a, kind), kind, kind);
    Extend(s, StatusOf(b, kind), StatusOf(a, kind));
  }

  lemma ChainedStep(s: seq<ConditionStatus>, before: Option<ManagedService>, after: Option<ManagedService>, uid: nat, kind: string, clock: nat)
    requires Chained(s, before, uid, kind, clock) && IsConditionType(kind)
    requires before.Some? ==> TriadOrEmpty(before.value.status.conditions) && before.value.uid < clock
    requires after.Some? ==> TriadOrEmpty(after.value.status.conditions)
    requires after.Some? && before.Some? && after.value.uid == before.value.uid && before.value.status.conditions != [] ==>
               after.value.status.conditions != []
    requires after.Some? && (before.None? || after.value.uid != before.value.uid) ==> after.value.uid == clock
    ensures Chained(s + StepStatuses(before, after, uid, kind), after, uid, kind, clock + 1)
  {
    if before.None? || before.value.uid != uid {
      ChainedAway(s, before, after, uid, kind, clock);
    } else if after.None? || after.value.uid != uid {
      assert s + [] == s;
    } else {
      StaysChained(s, before.value.status.conditions, after.value.status.conditions, kind);
    }
  }

  /** The incarnation is not the one that was stored. */
  lemma ChainedAway(s: seq<ConditionStatus>, before: Option<ManagedService>, after: Option<ManagedService>, uid: nat, kind: string, clock: nat)
    requires Chained(s, before, uid, kind, clock)
    requires before.None? || before.value.uid != uid
    requires after.Some? && (before.None? || after.value.uid != before.value.uid) ==> after.value.uid == clock
    ensures Chained(s + StepStatuses(before, after, uid, kind), after, uid, kind, clock + 1)
  {
    assert s + [] == s;
  }

  /** What a step adds to the statuses of one condition of one incarnation. */
  function StepStatuses(before: Option<ManagedService>, after: Option<ManagedService>, uid: nat, kind: string): seq<ConditionStatus> {
    if before.Some? && before.value.uid == uid then Given(PersistedBy(before, after), kind) else []
  }

  /** Along any run, the changes of one condition of one incarnation alternate between True and False. */
  lemma {:induction false} HistoryAlternates(cfg: Config, w: World, es: seq<Event>, key: Key, uid: nat, kind: string)
    requires IncarnationsInv(w) && IsConditionType(kind)
    ensures ChainedAt(HistoryOf(cfg, w, es), Run(cfg, w, es), key, uid, kind)
    decreases |es|
  {
    if es != [] {
      var n := |es| - 1;
      var before, e, h := Run(cfg, w, es[..n]), es[n], HistoryOf(cfg, w, es[..n]);
      HistoryAlternates(cfg, w, es[..n], key, uid, kind);
      IncarnationsKept(cfg, w, es[..n]);
      HistoryStep(cfg, before, e, h, key, uid, kind);
    }
  }

  lemma StepHistoryStatuses(cfg: Config, w: World, e: Event, h: seq<Entry>, key: Key, uid: nat, kind: string)
    ensures var before, after := At(w, e.key).ms, At(Step(cfg, w, e), e.key).ms;
      Statuses(h + StepHistory(cfg, w, e), key, uid, kind)
      == Statuses(h, key, uid, kind) + (if key == e.key then StepStatuses(before, after, uid, kind) else [])
  {
    var before, after := At(w, e.key).ms, At(Step(cfg, w, e), e.key).ms;
    if before.None? {
      assert h + [] == h;
    } else {
      StatusesOfEntries(h, e.key, before.value.uid, PersistedBy(before, after), key, uid, kind);
    }
  }

  /** The ManagedServices that a step leaves stored. */
  lemma StoredAfter(cfg: Config, w: World, e: Event, key: Key)
    ensures key == e.key ==> At(Step(cfg, w, e), key).ms == EffectOf(cfg, e, At(w, key), w.clock).cell.ms
    ensures key != e.key ==> At(Step(cfg, w, e), key).ms == At(w, key).ms
  {
    StepAt(cfg, w, e, key);
  }

  lemma HistoryStep(cfg: Config, w: World, e: Event, h: seq<Entry>, key: Key, uid: nat, kind: string)
    requires IncarnationsInv(w) && IsConditionType(kind)
    requires ChainedAt(h, w, key, uid, kind)
    ensures ChainedAt(h + StepHistory(cfg, w, e), Step(cfg, w, e), key, uid, kind)
  {
    var s := Statuses(h, key, uid, kind);
    var before, after := At(w, key).ms, At(Step(cfg, w, e), key).ms;
    assert IncarnationInv(At(w, key), w.clock);
    StepHistoryStatuses(cfg, w, e, h, key, uid, kind);
    StoredAfter(cfg, w, e, key);
    if key == e.key {
      StoredMoves(cfg, e, At(w, key), w.clock);
      ChainedStep(s, before, after, uid, kind, w.clock);
    } else {
      ChainedElsewhere(s, before, uid, kind, w.clock);
    }
  }

  lemma ChainedElsewhere(s: seq<ConditionStatus>, ms: Option<ManagedService>, uid: nat, kind: string, clock: nat)
    requires Chained(s, ms, uid, kind, clock)
    ensures Chained(s + [], ms, uid, kind, clock + 1)
  {
    assert s + [] == s;
  }

  // ----- What the counters have seen

  /** The changes that a step counts, booked on the incarnation that was stored. */
  function StepCounted(cfg: Config, w: World, e: Event): seq<Entry> {
    var c := At(w, e.key);
    if c.ms.None? then [] else Entries(e.key, c.ms.value.uid, EffectOf(cfg, e, c, w.clock).counted)
  }

  /** All changes counted in a run, oldest first. */
  function CountedHistory(cfg: Config, w: World, es: seq<Event>): seq<Entry>
    decreases |es|
  {
    if es == [] then []
    else CountedHistory(cfg, w, es[..|es| - 1]) + StepCounted(cfg, Run(cfg, w, es[..|es| - 1]), es[|es| - 1])
  }

  /** The counted statuses are the persisted ones, but for a first one that may be missing. */
  predicate Misses(counted: seq<ConditionStatus>, persisted: seq<ConditionStatus>) {
    counted == persisted || (persisted != [] && counted == persisted[1..])
  }

  /** On an unwritten list every condition appears for the first time: a list of changes to the same end has it or not. */
  lemma FirstAppearance(before: seq<Condition>, after: seq<Condition>, kind: string)
    requires TriadOrEmpty(before) && Triad(after) && IsConditionType(kind)
    ensures |Given(Transitions([], after), kind)| == 1
    ensures Given(Transitions(before, after), kind) in {[], Given(Transitions([], after), kind)}
  {
    GivenTransitions(before, after, kind);
    GivenTransitions([], after, kind);
    GivenChange(StatusOf(before, kind), StatusOf(after, kind), kind, kind);
    GivenChange(StatusOf([], kind), StatusOf(after, kind), kind, kind);
    TriadStatuses(after);
    TriadStatuses([]);
  }

  /** What a patch counts of one condition is what it persists, or nothing where that is its first appearance. */
  lemma MergeGiven(stored: Status, before: Status, after: Status, kind: string)
    requires stored == before || stored == EMPTY_STATUS
    requires TriadOrEmpty(before.conditions) && Triad(after.conditions) && IsConditionType(kind)
    ensures var g, p := Given(CountedBy(stored, before, after), kind), Given(PersistedIn(stored, before, after), kind);
      g == p || (g == [] && |p| == 1 && stored.conditions == [])
  {
    MergeCounted(stored, before, after);
    if stored != before && before.conditions != after.conditions {
      FirstAppearance(before.conditions, after.conditions, kind);
    }
  }

  lemma StepGiven(cfg: Config, e: Event, c: Cell, clock: nat, kind: string)
    requires IncarnationInv(c, clock) && IsConditionType(kind)
    ensures var r := EffectOf(cfg, e, c, clock);
      var g, p := Given(r.counted, kind), Given(PersistedBy(c.ms, r.cell.ms), kind);
      && (g == p || (g == [] && |p| == 1 && c.ms.Some? && c.ms.value.status.conditions == []))
      && (r.counted != [] ==> c.ms.Some? && PersistedBy(c.ms, r.cell.ms) != [])
  {
    var r := EffectOf(cfg, e, c, clock);
    CountedStep(cfg, e, c, clock);
    if Patches(e.key, e, c) {
      var ms, after := c.local.value.ms, PatchedStatus(e, c);
      PatchEffect(cfg, e.key, e, c, clock);
      PatchCounts(cfg, e.key, e, c, clock);
      UpsertWanted(ms.status.conditions, ms.CurrentSpec(), ms.Generation(), c.local.value.plan, e.now);
      MergeGiven(c.ms.value.status, ms.status, after, kind);
      assert r.counted != [] ==> r.counted[0] in multiset(r.counted);
    } else {
      UnpatchedCounted(cfg, e, c, clock);
      UnpatchedStep(cfg, e, c, clock);
      UnpatchedPersists(c, r.cell, clock);
    }
  }

  /** Appending what a step counts and what it persists. */
  lemma MissesMore(counted: seq<ConditionStatus>, persisted: seq<ConditionStatus>, g: seq<ConditionStatus>, p: seq<ConditionStatus>)
    requires Misses(counted, persisted)
    requires g == p || (g == [] && |p| == 1 && persisted == [])
    ensures Misses(counted + g, persisted + p)
  {
    if persisted != [] { assert (persisted + p)[1..] == persisted[1..] + p; }
  }

  lemma StepCountedStatuses(cfg: Config, w: World, e: Event, h: seq<Entry>, key: Key, uid: nat, kind: string)
    ensures var c := At(w, e.key);
      Statuses(h + StepCounted(cfg, w, e), key, uid, kind)
      == Statuses(h, key, uid, kind)
         + (if c.ms.Some? && key == e.key && c.ms.value.uid == uid then Given(EffectOf(cfg, e, c, w.clock).counted, kind) else [])
  {
    var c := At(w, e.key);
    if c.ms.None? {
      assert h + [] == h;
    } else {
      StatusesOfEntries(h, e.key, c.ms.value.uid, EffectOf(cfg, e, c, w.clock).counted, key, uid, kind);
    }
  }

  lemma CountedMissesStep(
    cfg: Config, w: World, e: Event, counted: seq<Entry>, h: seq<Entry>, key: Key, uid: nat, kind: string)
    requires IncarnationsInv(w) && IsConditionType(kind) && ChainedAt(h, w, key, uid, kind)
    requires Misses(Statuses(counted, key, uid, kind), Statuses(h, key, uid, kind))
    ensures Misses(Statuses(counted + StepCounted(cfg, w, e), key, uid, kind), Statuses(h + StepHistory(cfg, w, e), key, uid, kind))
  {
    var c := At(w, e.key);
    var a, b := Statuses(counted, key, uid, kind), Statuses(h, key, uid, kind);
    StepCountedStatuses(cfg, w, e, counted, key, uid, kind);
    StepHistoryStatuses(cfg, w, e, h, key, uid, kind);
    StoredAfter(cfg, w, e, e.key);
    assert a + [] == a && b + [] == b;
    if c.ms.Some? && key == e.key && c.ms.value.uid == uid {
      assert IncarnationInv(c, w.clock);
      var r := EffectOf(cfg, e, c, w.clock);
      StepGiven(cfg, e, c, w.clock, kind);
      MissesMore(a, b, Given(r.counted, kind), Given(PersistedBy(c.ms, r.cell.ms), kind));
    }
  }

  lemma {:induction false} CountedMisses(cfg: Config, w: World, es: seq<Event>, key: Key, uid: nat, kind: string)
    requires IncarnationsInv(w) && IsConditionType(kind)
    ensures Misses(Statuses(CountedHistory(cfg, w, es), key, uid, kind), Statuses(HistoryOf(cfg, w, es), key, uid, kind))
    decreases |es|
  {
    if es != [] {
      var init := es[..|es| - 1];
      CountedMisses(cfg, w, init, key, uid, kind);
      HistoryAlternates(cfg, w, init, key, uid, kind);
      IncarnationsKept(cfg, w, init);
      CountedMissesStep(
        cfg, Run(cfg, w, init), es[|es| - 1], CountedHistory(cfg, w, init), HistoryOf(cfg, w, init), key, uid, kind);
    }
  }

  /** Along any run, stray patches included, what the counters see of one condition of one incarnation alternates. */
  lemma CountedAlternates(cfg: Config, w: World, es: seq<Event>, key: Key, uid: nat, kind: string)
    requires IncarnationsInv(w) && IsConditionType(kind)
    ensures Alternates(Statuses(CountedHistory(cfg, w, es), key, uid, kind))
  {
    CountedMisses(cfg, w, es, key, uid, kind);
    HistoryAlternates(cfg, w, es, key, uid, kind);
  }

  /** The counters are the counted history. */
  lemma {:induction false} CountersAreCounted(cfg: Config, w: World, es: seq<Event>)
    requires IncarnationsInv(w)
    ensures Run(cfg, w, es).transitions == w.transitions + SeriesOf(CountedHistory(cfg, w, es))
    decreases |es|
  {
    if es != [] {
      var init, e := es[..|es| - 1], es[|es| - 1];
      CountersAreCounted(cfg, w, init);
      IncarnationsKept(cfg, w, init);
      StepCountedSeries(cfg, Run(cfg, w, init), e, CountedHistory(cfg, w, init));
    }
  }

  lemma StepCountedSeries(cfg: Config, w: World, e: Event, h: seq<Entry>)
    requires IncarnationsInv(w)
    ensures Step(cfg, w, e).transitions == w.transitions + multiset(EffectOf(cfg, e, At(w, e.key), w.clock).counted)
    ensures SeriesOf(h + StepCounted(cfg, w, e)) == SeriesOf(h) + multiset(EffectOf(cfg, e, At(w, e.key), w.clock).counted)
  {
    var c := At(w, e.key);
    assert IncarnationInv(c, w.clock);
    StepGiven(cfg, e, c, w.clock, AVAILABLE);
    if c.ms.Some? {
      EntriesSeries(h, e.key, c.ms.value.uid, EffectOf(cfg, e, c, w.clock).counted);
    } else {
      assert h + [] == h;
    }
  }

  // ----- Counting

  function Count(s: seq<ConditionStatus>, status: ConditionStatus): nat {
    if s == [] then 0 else Count(s[..|s| - 1], status) + Bit(s[|s| - 1] == status)
  }

  /** An alternating sequence holds as many of the one as of the other, or one more of what it ends with. */
  lemma {:induction false} AlternatingBalance(s: seq<ConditionStatus>)
    requires Alternates(s)
    ensures -1 <= Count(s, True) - Count(s, False) <= 1
    ensures s != [] && Count(s, True) > Count(s, False) ==> s[|s| - 1] == True
    ensures s != [] && Count(s, True) < Count(s, False) ==> s[|s| - 1] == False
    decreases |s|
  {
    if s != [] {
      AlternatingBalance(s[..|s| - 1]);
    }
  }

  function IncarnationsIn(h: seq<Entry>): set<(Key, nat)> {
    set i | 0 <= i < |h| :: (h[i].key, h[i].uid)
  }

  /** The history of one condition type over the given incarnations. */
  function Restrict(h: seq<Entry>, among: set<(Key, nat)>, kind: string, status: ConditionStatus): nat {
    if h == [] then 0
    else
      var last := h[|h| - 1];
      Restrict(h[..|h| - 1], among, kind, status)
      + Bit((last.key, last.uid) in among && last.series == Series(kind, status))
  }

  lemma {:induction false} RestrictOne(h: seq<Entry>, key: Key, uid: nat, kind: string, status: ConditionStatus)
    ensures Restrict(h, {(key, uid)}, kind, status) == Count(Statuses(h, key, uid, kind), status)
    decreases |h|
  {
    if h != [] {
      var n := |h| - 1;
      RestrictOne(h[..n], key, uid, kind, status);
      var s := Statuses(h[..n], key, uid, kind);
      assert s + [] == s;
      CountSnoc(s, h[n].series.status, status);
    }
  }

  lemma CountSnoc(s: seq<ConditionStatus>, x: ConditionStatus, status: ConditionStatus)
    ensures Count(s + [x], status) == Count(s, status) + Bit(x == status)
  {
    assert (s + [x])[..|s|] == s;
  }

  lemma {:induction false} RestrictSplit(h: seq<Entry>, a: set<(Key, nat)>, b: set<(Key, nat)>, kind: string, status: ConditionStatus)
    requires a !! b
    ensures Restrict(h, a + b, kind, status) == Restrict(h, a, kind, status) + Restrict(h, b, kind, status)
    decreases |h|
  {
    if h != [] { RestrictSplit(h[..|h| - 1], a, b, kind, status); }
  }

  lemma {:induction false} RestrictAll(h: seq<Entry>, among: set<(Key, nat)>, kind: string, status: ConditionStatus)
    requires IncarnationsIn(h) <= among
    ensures Restrict(h, among, kind, status) == SeriesOf(h)[Series(kind, status)]
    decreases |h|
  {
    if h != [] {
      var n := |h| - 1;
      assert h == h[..n] + [h[n]];
      IncarnationsSnoc(h[..n], h[n]);
      RestrictAll(h[..n], among, kind, status);
    }
  }

  /** Every incarnation contributes at most one to the difference. */
  lemma {:induction false} SumOfBalances(h: seq<Entry>, among: set<(Key, nat)>, kind: string)
    requires forall inc | inc in among :: Alternates(Statuses(h, inc.0, inc.1, kind))
    ensures -|among| <= Restrict(h, among, kind, True) - Restrict(h, among, kind, False) <= |among|
    decreases |among|
  {
    if among == {} {
      RestrictNone(h, kind, True);
      RestrictNone(h, kind, False);
    } else {
      var inc :| inc in among;
      var rest := among - {inc};
      assert among == {inc} + rest && |among| == 1 + |rest|;
      SumOfBalances(h, rest, kind);
      AlternatingBalance(Statuses(h, inc.0, inc.1, kind));
      RestrictOne(h, inc.0, inc.1, kind, True);
      RestrictOne(h, inc.0, inc.1, kind, False);
      RestrictSplit(h, {inc}, rest, kind, True);
      RestrictSplit(h, {inc}, rest, kind, False);
    }
  }

  lemma {:induction false} RestrictNone(h: seq<Entry>, kind: string, status: ConditionStatus)
    ensures Restrict(h, {}, kind, status) == 0
    decreases |h|
  {
    if h != [] { RestrictNone(h[..|h| - 1], kind, status); }
  }

  lemma {:induction false} IncarnationsOfEntries(h: seq<Entry>, key: Key, uid: nat, changes: seq<Series>)
    ensures IncarnationsIn(h + Entries(key, uid, changes)) == IncarnationsIn(h) + (if changes == [] then {} else {(key, uid)})
    decreases |changes|
  {
    if changes == [] {
      assert h + [] == h;
    } else {
      var n := |changes| - 1;
      IncarnationsOfEntries(h, key, uid, changes[..n]);
      var x, last := h + Entries(key, uid, changes[..n]), Entry(key, uid, changes[n]);
      assert h + Entries(key, uid, changes) == x + [last];
      IncarnationsSnoc(x, last);
    }
  }

  lemma IncarnationsSnoc(h: seq<Entry>, last: Entry)
    ensures IncarnationsIn(h + [last]) == IncarnationsIn(h) + {(last.key, last.uid)}
  {
    var more := h + [last];
    forall x | x in IncarnationsIn(h) ensures x in IncarnationsIn(more) {
      var i :| 0 <= i < |h| && x == (h[i].key, h[i].uid);
      assert x == (more[i].key, more[i].uid);
    }
    assert (last.key, last.uid) == (more[|h|].key, more[|h|].uid);
  }

  /** A step counts for no incarnation that it does not change. */
  lemma StepIncarnations(cfg: Config, w: World, e: Event, counted: seq<Entry>, h: seq<Entry>)
    requires IncarnationsInv(w) && IncarnationsIn(counted) <= IncarnationsIn(h)
    ensures IncarnationsIn(counted + StepCounted(cfg, w, e)) <= IncarnationsIn(h + StepHistory(cfg, w, e))
  {
    var c := At(w, e.key);
    assert IncarnationInv(c, w.clock);
    StepGiven(cfg, e, c, w.clock, AVAILABLE);
    StoredAfter(cfg, w, e, e.key);
    var r := EffectOf(cfg, e, c, w.clock);
    if c.ms.Some? {
      IncarnationsOfEntries(counted, e.key, c.ms.value.uid, r.counted);
      IncarnationsOfEntries(h, e.key, c.ms.value.uid, PersistedBy(c.ms, r.cell.ms));
    } else {
      assert counted + [] == counted && h + [] == h;
    }
  }

  lemma {:induction false} CountedIncarnations(cfg: Config, w: World, es: seq<Event>)
    requires IncarnationsInv(w)
    ensures IncarnationsIn(CountedHistory(cfg, w, es)) <= IncarnationsIn(HistoryOf(cfg, w, es))
    decreases |es|
  {
    if es != [] {
      var init := es[..|es| - 1];
      CountedIncarnations(cfg, w, init);
      IncarnationsKept(cfg, w, init);
      StepIncarnations(cfg, Run(cfg, w, init), es[|es| - 1], CountedHistory(cfg, w, init), HistoryOf(cfg, w, init));
    }
  }

  /** Alternation in every incarnation bounds the difference over all of them. */
  lemma BalancedSeries(h: seq<Entry>, among: set<(Key, nat)>, kind: string)
    requires forall key, uid :: Alternates(Statuses(h, key, uid, kind))
    requires IncarnationsIn(h) <= among
    ensures -|among| <= SeriesOf(h)[Series(kind, True)] - SeriesOf(h)[Series(kind, False)] <= |among|
    ensures forall key, uid :: var s := Statuses(h, key, uid, kind); -1 <= Count(s, True) - Count(s, False) <= 1
  {
    forall key, uid ensures var s := Statuses(h, key, uid, kind); -1 <= Count(s, True) - Count(s, False) <= 1 {
      AlternatingBalance(Statuses(h, key, uid, kind));
    }
    SumOfBalances(h, among, kind);
    RestrictAll(h, among, kind, True);
    RestrictAll(h, among, kind, False);
  }

  /**
   The true and false changes of a condition type, as persisted and as counted, differ by at most one per
   incarnation, and over a whole run by at most the number of incarnations in the history.
   */
  lemma CountersBalanced(cfg: Config, w: World, es: seq<Event>, kind: string)
    requires IncarnationsInv(w) && w.transitions == multiset{} && IsConditionType(kind)
    ensures var h := HistoryOf(cfg, w, es);
      var n, history, counters := |IncarnationsIn(h)|, SeriesOf(h), Run(cfg, w, es).transitions;
      && -n <= history[Series(kind, True)] - history[Series(kind, False)] <= n
      && -n <= counters[Series(kind, True)] - counters[Series(kind, False)] <= n
    ensures forall key, uid ::
      var s := Statuses(HistoryOf(cfg, w, es), key, uid, kind); -1 <= Count(s, True) - Count(s, False) <= 1
    ensures forall key, uid ::
      var s := Statuses(CountedHistory(cfg, w, es), key, uid, kind); -1 <= Count(s, True) - Count(s, False) <= 1
  {
    var h, counted := HistoryOf(cfg, w, es), CountedHistory(cfg, w, es);
    forall key, uid ensures Alternates(Statuses(h, key, uid, kind)) { HistoryAlternates(cfg, w, es, key, uid, kind); }
    forall key, uid ensures Alternates(Statuses(counted, key, uid, kind)) { CountedAlternates(cfg, w, es, key, uid, kind); }
    CountedIncarnations(cfg, w, es);
    BalancedSeries(h, IncarnationsIn(h), kind);
    BalancedSeries(counted, IncarnationsIn(h), kind);
    CountersAreCounted(cfg, w, es);
    assert multiset{} + SeriesOf(counted) == SeriesOf(counted);
  }
}
