/**
 Concrete runs in which a ManagedService is deleted and re-created between the operator's read and its
 status patch. They show that the claims of Incarnations and History do fail without their conditions.
 */
module Recreation {
  import opened Wrappers
  import opened Objects
  import opened Children
  import opened Conditions
  import opened Operator
  import opened StepFacts
  import opened Incarnations
  import opened History
  import opened Balance
  import Image
  import MergePatch

  function Digest(): string { seq(64, i => 'a') }

  function PinnedConfig(): Config { Config("demo" + Image.MARKER + Digest(), "") }

  lemma PinnedConfigPasses()
    ensures Image.Immutable(PinnedConfig().image)
  {
    assert Image.IsPinned(PinnedConfig().image, "demo", Digest()) by {
      forall i: nat ensures !Image.OccursAt("demo", Image.MARKER, i) {
        assert |"demo"| < |Image.MARKER|;
      }
    }
    Image.ImmutableIffPinned(PinnedConfig().image);
  }

  const NOTHING := World(map[], map[], map[], {}, map[], 0, multiset{}, multiset{})

  // ----- The ingredients

  const KEY := Key("applications", "a")
  const FIRST := Spec("demo-http", Some(1), "")
  const SECOND := Spec("demo-http", Some(2), "")
  const BARE := Cell(None, None, None, false, None)

  function Go(): Event { Operate(KEY, None, 0) }
  function Fail(text: string): Event { Operate(KEY, Some(Fault(text, false)), 0) }
  function Env(change: ForeignChange): Event { Environment(KEY, change) }

  function FailedPlan(text: string): Plan { Degrade(DEPLOYMENT_FAILED, DeploymentText(Failure(text))) }

  function Incarnation(uid: nat, specs: seq<Spec>, status: Status): ManagedService { ManagedService(uid, specs, status) }

  /** A queued key without children. */
  function Queued(ms: Option<ManagedService>, local: Option<Local>): Cell { Cell(ms, None, None, true, local) }

  function Unqueued(ms: Option<ManagedService>, local: Option<Local>): Cell { Cell(ms, None, None, false, local) }

  // ----- Runs over the key

  /** From any world with this cell and clock, the events lead to that cell. */
  ghost predicate Takes(es: seq<Event>, clock: nat, before: Cell, after: Cell) {
    forall w: World | At(w, KEY) == before && w.clock == clock :: At(Run(PinnedConfig(), w, es), KEY) == after
  }

  lemma One(e: Event, clock: nat, before: Cell, after: Cell)
    requires e.key == KEY && NextCell(PinnedConfig(), e, before, clock) == after
    ensures Takes([e], clock, before, after)
  {
    forall w: World | At(w, KEY) == before && w.clock == clock ensures At(Run(PinnedConfig(), w, [e]), KEY) == after {
      OneRun(w, e);
      StepAt(PinnedConfig(), w, e, KEY);
    }
  }

  lemma OneRun(w: World, e: Event)
    ensures Run(PinnedConfig(), w, [e]) == Step(PinnedConfig(), w, e)
  {
    assert [e][..0] == [];
  }

  lemma Then(es: seq<Event>, fs: seq<Event>, clock: nat, before: Cell, middle: Cell, after: Cell)
    requires Takes(es, clock, before, middle) && Takes(fs, clock + |es|, middle, after)
    ensures Takes(es + fs, clock, before, after)
  {
    forall w: World | At(w, KEY) == before && w.clock == clock
      ensures At(Run(PinnedConfig(), w, es + fs), KEY) == after
    {
      RunConcat(PinnedConfig(), w, es, fs);
      RunClock(PinnedConfig(), w, es);
    }
  }

  lemma Pop(ms: ManagedService, clock: nat)
    ensures Takes([Go()], clock, Queued(Some(ms), None), Unqueued(Some(ms), Some(Popped)))
  {
    One(Go(), clock, Queued(Some(ms), None), Unqueued(Some(ms), Some(Popped)));
  }

  lemma Read(ms: ManagedService, clock: nat)
    ensures Takes([Go()], clock, Unqueued(Some(ms), Some(Popped)), Unqueued(Some(ms), Some(ReadDeployment(ms))))
  {
    PinnedConfigPasses();
    One(Go(), clock, Unqueued(Some(ms), Some(Popped)), Unqueued(Some(ms), Some(ReadDeployment(ms))));
  }

  lemma FailOnce(ms: ManagedService, text: string, clock: nat)
    ensures Takes([Fail(text)], clock,
      Unqueued(Some(ms), Some(ReadDeployment(ms))), Unqueued(Some(ms), Some(WriteStatus(ms, FailedPlan(text)))))
  {
    One(Fail(text), clock,
      Unqueued(Some(ms), Some(ReadDeployment(ms))), Unqueued(Some(ms), Some(WriteStatus(ms, FailedPlan(text)))));
  }

  lemma Delete(ms: ManagedService, plan: Plan, clock: nat)
    ensures Takes([Env(DeleteManagedService)], clock,
      Unqueued(Some(ms), Some(WriteStatus(ms, plan))), Queued(None, Some(WriteStatus(ms, plan))))
  {
    One(Env(DeleteManagedService), clock,
      Unqueued(Some(ms), Some(WriteStatus(ms, plan))), Queued(None, Some(WriteStatus(ms, plan))));
  }

  lemma Create(local: Option<Local>, queued: bool, clock: nat)
    ensures Takes([Env(CreateManagedService(FIRST))], clock,
      Cell(None, None, None, queued, local), Queued(Some(Incarnation(clock, [FIRST], EMPTY_STATUS)), local))
  {
    One(Env(CreateManagedService(FIRST)), clock,
      Cell(None, None, None, queued, local), Queued(Some(Incarnation(clock, [FIRST], EMPTY_STATUS)), local));
  }

  lemma Edit(clock: nat)
    ensures Takes([Env(EditSpec(SECOND))], clock,
      Queued(Some(Incarnation(0, [FIRST], EMPTY_STATUS)), None), Queued(Some(Incarnation(0, [FIRST, SECOND], EMPTY_STATUS)), None))
  {
    assert [FIRST] + [SECOND] == [FIRST, SECOND];
    One(Env(EditSpec(SECOND)), clock,
      Queued(Some(Incarnation(0, [FIRST], EMPTY_STATUS)), None), Queued(Some(Incarnation(0, [FIRST, SECOND], EMPTY_STATUS)), None));
  }

  /** What the operator records after the failure, for an incarnation of one spec that it never wrote before. */
  function FirstStatus(): Status {
    StatusFor(KEY, Incarnation(0, [FIRST], EMPTY_STATUS), FailedPlan("x"), 0)
  }

  lemma Patch(clock: nat)
    ensures var ms := Incarnation(0, [FIRST], EMPTY_STATUS);
      Takes([Go()], clock,
        Unqueued(Some(ms), Some(WriteStatus(ms, FailedPlan("x")))), Queued(Some(Incarnation(0, [FIRST], FirstStatus())), None))
  {
    var ms := Incarnation(0, [FIRST], EMPTY_STATUS);
    MergePatch.MergeExact(EMPTY_STATUS, EMPTY_STATUS, FirstStatus());
    One(Go(), clock,
      Unqueued(Some(ms), Some(WriteStatus(ms, FailedPlan("x")))), Queued(Some(Incarnation(0, [FIRST], FirstStatus())), None));
  }

  // ----- The runs, up to the stale patch

  function Reading(text: string): seq<Event> { [Go()] + [Go()] + [Fail(text)] }

  function Recreating(): seq<Event> { [Env(DeleteManagedService)] + [Env(CreateManagedService(FIRST))] }

  /** Created and edited before the operator reads it for the first time; re-created before the patch. */
  function Edited(): seq<Event> {
    [Env(CreateManagedService(FIRST))] + [Env(EditSpec(SECOND))] + Reading("x") + Recreating()
  }

  /** Read, failed and patched; read again and failed differently; re-created before the second patch. */
  function Written(): seq<Event> {
    [Env(CreateManagedService(FIRST))] + Reading("x") + [Go()] + Reading("y") + Recreating()
  }

  lemma ReadingTakes(ms: ManagedService, text: string, clock: nat)
    ensures Takes(Reading(text), clock, Queued(Some(ms), None), Unqueued(Some(ms), Some(WriteStatus(ms, FailedPlan(text)))))
  {
    var a, b, c, d := Queued(Some(ms), None), Unqueued(Some(ms), Some(Popped)), Unqueued(Some(ms), Some(ReadDeployment(ms))),
      Unqueued(Some(ms), Some(WriteStatus(ms, FailedPlan(text))));
    Pop(ms, clock);
    Read(ms, clock + 1);
    FailOnce(ms, text, clock + 2);
    Then([Go()], [Go()], clock, a, b, c);
    Then([Go()] + [Go()], [Fail(text)], clock, a, c, d);
  }

  lemma RecreatingTakes(ms: ManagedService, plan: Plan, clock: nat)
    ensures Takes(Recreating(), clock, Unqueued(Some(ms), Some(WriteStatus(ms, plan))),
      Queued(Some(Incarnation(clock + 1, [FIRST], EMPTY_STATUS)), Some(WriteStatus(ms, plan))))
  {
    Delete(ms, plan, clock);
    Create(Some(WriteStatus(ms, plan)), true, clock + 1);
    Then([Env(DeleteManagedService)], [Env(CreateManagedService(FIRST))], clock,
      Unqueued(Some(ms), Some(WriteStatus(ms, plan))), Queued(None, Some(WriteStatus(ms, plan))),
      Queued(Some(Incarnation(clock + 1, [FIRST], EMPTY_STATUS)), Some(WriteStatus(ms, plan))));
  }

  lemma EditingTakes()
    ensures Takes([Env(CreateManagedService(FIRST))] + [Env(EditSpec(SECOND))], 0, BARE,
      Queued(Some(Incarnation(0, [FIRST, SECOND], EMPTY_STATUS)), None))
  {
    Create(None, false, 0);
    Edit(1);
    Then([Env(CreateManagedService(FIRST))], [Env(EditSpec(SECOND))], 0, BARE,
      Queued(Some(Incarnation(0, [FIRST], EMPTY_STATUS)), None), Queued(Some(Incarnation(0, [FIRST, SECOND], EMPTY_STATUS)), None));
  }

  lemma EditedTakes()
    ensures Takes(Edited(), 0, BARE,
      Queued(Some(Incarnation(6, [FIRST], EMPTY_STATUS)), Some(WriteStatus(Incarnation(0, [FIRST, SECOND], EMPTY_STATUS), FailedPlan("x")))))
  {
    var ms, plan := Incarnation(0, [FIRST, SECOND], EMPTY_STATUS), FailedPlan("x");
    var c, d := Queued(Some(ms), None), Unqueued(Some(ms), Some(WriteStatus(ms, plan)));
    var editing := [Env(CreateManagedService(FIRST))] + [Env(EditSpec(SECOND))];
    EditingTakes();
    ReadingTakes(ms, "x", 2);
    RecreatingTakes(ms, plan, 5);
    Then(editing, Reading("x"), 0, BARE, c, d);
    Then(editing + Reading("x"), Recreating(), 0, BARE, d,
      Queued(Some(Incarnation(6, [FIRST], EMPTY_STATUS)), Some(WriteStatus(ms, plan))));
  }

  lemma WritingTakes()
    ensures Takes([Env(CreateManagedService(FIRST))] + Reading("x") + [Go()], 0, BARE,
      Queued(Some(Incarnation(0, [FIRST], FirstStatus())), None))
  {
    var ms, create := Incarnation(0, [FIRST], EMPTY_STATUS), [Env(CreateManagedService(FIRST))];
    var b, c := Queued(Some(ms), None), Unqueued(Some(ms), Some(WriteStatus(ms, FailedPlan("x"))));
    Create(None, false, 0);
    ReadingTakes(ms, "x", 1);
    Patch(4);
    Then(create, Reading("x"), 0, BARE, b, c);
    Then(create + Reading("x"), [Go()], 0, BARE, c, Queued(Some(Incarnation(0, [FIRST], FirstStatus())), None));
  }

  lemma WrittenTakes()
    ensures Takes(Written(), 0, BARE,
      Queued(Some(Incarnation(9, [FIRST], EMPTY_STATUS)), Some(WriteStatus(Incarnation(0, [FIRST], FirstStatus()), FailedPlan("y")))))
  {
    var written, plan := Incarnation(0, [FIRST], FirstStatus()), FailedPlan("y");
    var d, e := Queued(Some(written), None), Unqueued(Some(written), Some(WriteStatus(written, plan)));
    var writing := [Env(CreateManagedService(FIRST))] + Reading("x") + [Go()];
    WritingTakes();
    ReadingTakes(written, "y", 5);
    RecreatingTakes(written, plan, 8);
    Then(writing, Reading("y"), 0, BARE, d, e);
    Then(writing + Reading("y"), Recreating(), 0, BARE, e,
      Queued(Some(Incarnation(9, [FIRST], EMPTY_STATUS)), Some(WriteStatus(written, plan))));
  }

  // ----- The claims that fail

  lemma NothingStored()
    ensures IncarnationsInv(NOTHING) && (forall claim :: HoldsAt(claim, NOTHING))
  {
  }

  /** The operator can record an observed generation that the ManagedService has not reached. */
  lemma GenerationCanBeOvertaken()
    ensures !HoldsThroughout(GenerationBounded, PinnedConfig(), NOTHING, Edited() + [Go()])
  {
    var cfg, before := PinnedConfig(), Edited();
    var es := before + [Go()];
    NothingStored();
    ClaimThroughout(cfg, GenerationBounded, NOTHING, es);
    assert es[..|es| - 1] == before && es[|es| - 1] == Go();
    EditedBreaks();
  }

  lemma EditedBreaks()
    ensures BreaksAt(GenerationBounded, Run(PinnedConfig(), NOTHING, Edited()), Go())
  {
    EditedTakes();
  }

  /** The failure text shows in the Degraded condition. */
  lemma TextsDiffer()
    ensures var ms := Incarnation(0, [FIRST], FirstStatus());
      && ms.status.conditions != [] && ms.status.observedGeneration == 1
      && StatusFor(KEY, ms, FailedPlan("y"), 0).conditions != ms.status.conditions
  {
    var ms := Incarnation(0, [FIRST], FirstStatus());
    var x, y := FailedPlan("x"), FailedPlan("y");
    UpsertWanted([], FIRST, 1, x, 0);
    UpsertWanted(ms.status.conditions, FIRST, 1, y, 0);
    assert x.message[|x.message| - 1] == 'x' && y.message[|y.message| - 1] == 'y';
    assert ms.status.conditions[2].message == x.message;
    assert StatusFor(KEY, ms, y, 0).conditions[2].message == y.message;
  }

  /** A status can carry conditions observed at another generation than its own. */
  lemma GenerationsCanDisagree()
    ensures !HoldsThroughout(GenerationsAgree, PinnedConfig(), NOTHING, Written() + [Go()])
  {
    var cfg, before := PinnedConfig(), Written();
    var es := before + [Go()];
    NothingStored();
    ClaimThroughout(cfg, GenerationsAgree, NOTHING, es);
    assert es[..|es| - 1] == before && es[|es| - 1] == Go();
    WrittenBreaks();
  }

  lemma WrittenBreaks()
    ensures BreaksAt(GenerationsAgree, Run(PinnedConfig(), NOTHING, Written()), Go())
  {
    WrittenTakes();
    TextsDiffer();
  }

  /** What the stray patch leaves on the new incarnation. */
  function StrayStatus(): Status {
    StatusFor(KEY, Incarnation(0, [FIRST, SECOND], EMPTY_STATUS), FailedPlan("x"), 0)
  }

  lemma StrayPatch(clock: nat)
    ensures Takes([Go()], clock,
      Queued(Some(Incarnation(6, [FIRST], EMPTY_STATUS)), Some(WriteStatus(Incarnation(0, [FIRST, SECOND], EMPTY_STATUS), FailedPlan("x")))),
      Queued(Some(Incarnation(6, [FIRST], StrayStatus())), None))
  {
    var copy := Incarnation(0, [FIRST, SECOND], EMPTY_STATUS);
    MergePatch.MergeExact(EMPTY_STATUS, EMPTY_STATUS, StrayStatus());
    One(Go(), clock,
      Queued(Some(Incarnation(6, [FIRST], EMPTY_STATUS)), Some(WriteStatus(copy, FailedPlan("x")))),
      Queued(Some(Incarnation(6, [FIRST], StrayStatus())), None));
  }

  /** The new incarnation, read with the stray status on it. */
  lemma StrayReadTakes()
    ensures var ms := Incarnation(6, [FIRST], StrayStatus());
      Takes(Edited() + [Go()] + Reading("x"), 0, BARE, Unqueued(Some(ms), Some(WriteStatus(ms, FailedPlan("x")))))
  {
    var ms := Incarnation(6, [FIRST], StrayStatus());
    var stray := Queued(Some(Incarnation(6, [FIRST], EMPTY_STATUS)),
      Some(WriteStatus(Incarnation(0, [FIRST, SECOND], EMPTY_STATUS), FailedPlan("x"))));
    EditedTakes();
    StrayPatch(7);
    ReadingTakes(ms, "x", 8);
    Then(Edited(), [Go()], 0, BARE, stray, Queued(Some(ms), None));
    Then(Edited() + [Go()], Reading("x"), 0, BARE, Queued(Some(ms), None), Unqueued(Some(ms), Some(WriteStatus(ms, FailedPlan("x")))));
  }

  lemma StrayReadRetreats()
    ensures RetreatsAt(Run(PinnedConfig(), NOTHING, Edited() + [Go()] + Reading("x")), Go())
  {
    StrayReadTakes();
    assert StrayStatus().observedGeneration == 2;
  }

  /** Within one incarnation the observed generation can go back, here from 2 to 1. */
  lemma ObservedGenerationCanRetreat()
    ensures !GrowsThroughout(PinnedConfig(), NOTHING, Edited() + [Go()] + Reading("x") + [Go()])
  {
    var before := Edited() + [Go()] + Reading("x");
    var es := before + [Go()];
    NothingStored();
    StrayReadRetreats();
    assert es[..|es| - 1] == before && es[|es| - 1] == Go();
    GrowsIffNeverRetreats(PinnedConfig(), NOTHING, es);
  }

  lemma WrittenMiscounts()
    ensures MiscountsAt(Run(PinnedConfig(), NOTHING, Written()), Go())
  {
    WrittenTakes();
    TextsDiffer();
  }

  lemma LastStepMiscounts(cfg: Config, w: World, es: seq<Event>, e: Event)
    requires MiscountsAt(Run(cfg, w, es), e)
    ensures !CountsWell(cfg, w, es + [e])
  {
    assert (es + [e])[..|es|] == es;
  }

  /** The transition counters can fall behind the persisted history. */
  lemma CountersCanFallBehind()
    ensures var es := Written() + [Go()];
            Run(PinnedConfig(), NOTHING, es).transitions != NOTHING.transitions + SeriesOf(HistoryOf(PinnedConfig(), NOTHING, es))
  {
    WrittenMiscounts();
    NothingStored();
    LastStepMiscounts(PinnedConfig(), NOTHING, Written(), Go());
    CountersAndHistory(PinnedConfig(), NOTHING, Written() + [Go()]);
  }
}
