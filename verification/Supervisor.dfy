/**
 ServeUntilShutdown in its own form: loops that append listeners, start goroutines, shut servers down and
 drain the channel, while a schedule lets the serving goroutines and the context act in between. Every
 statement is proved to be a step of the Lifecycle protocol.
 */
module Supervisor {
  import opened Wrappers
  import opened Lifecycle

  /** What others do before the caller's next statement, and how its next call fares. */
  datatype Turn = Turn(events: seq<Event>, error: Option<string>, delay: nat, preferContext: bool)

  /** The events that are not the caller's own. */
  predicate Foreign(e: Event) { Outside(e) || OfGoroutine(e) }

  /** Others touch neither the caller's variables nor its place. */
  lemma ForeignFrame(cfg: Setup, s: State, e: Event)
    requires Foreign(e)
    ensures var t := Step(cfg, s, e);
      t == s.(sockets := t.sockets, goroutines := t.goroutines, channel := t.channel, cancelled := t.cancelled, clock := t.clock)
  {
  }

  lemma ForeignGrows(cfg: Setup, s: State, e: Event)
    requires Foreign(e)
    ensures var t := Step(cfg, s, e);
      && s.channel <= t.channel && (s.cancelled ==> t.cancelled)
      && |s.sockets| == |t.sockets| && |s.goroutines| == |t.goroutines|
      && (s.phase !in {Selecting, Draining} ==> s.clock == t.clock)
  {
  }

  /** The caller carries the invariant as a function, so that its methods need only what the lemmas below say of it. */
  ghost predicate IsInv(cfg: Setup, inv: State -> bool) {
    forall s {:trigger Inv(cfg, s)} :: inv(s) == Inv(cfg, s)
  }

  lemma InitKept(cfg: Setup, inv: State -> bool, clock: int)
    requires IsInv(cfg, inv)
    ensures inv(Init(clock))
  {
    assert Run(cfg, Init(clock), []) == Init(clock);
    RunKept(cfg, clock, []);
  }

  lemma Kept(cfg: Setup, inv: State -> bool, s: State, e: Event)
    requires IsInv(cfg, inv) && inv(s)
    ensures inv(Step(cfg, s, e)) && Sizes(cfg, Step(cfg, s, e))
  {
    assert inv(s) == Inv(cfg, s);
    StepKept(cfg, s, e);
    assert inv(Step(cfg, s, e)) == Inv(cfg, Step(cfg, s, e));
  }

  /** Blocked without a schedule: the next step of a goroutine, or the end of the context. */
  lemma Unblocked(cfg: Setup, inv: State -> bool, s: State)
    requires IsInv(cfg, inv) && inv(s) && s.channel == []
    requires (s.phase.Selecting? && !s.cancelled) || (s.phase.Draining? && |s.received| < cfg.Count())
    ensures Sizes(cfg, s) && Work(cfg, s) >= 0
    ensures NextOf(s, 0).None? ==> s.phase.Selecting?
    ensures NextOf(s, 0).Some? ==>
      var e := NextOf(s, 0).value;
      Foreign(e) && Enabled(cfg, s, e) && Work(cfg, Step(cfg, s, e)) < Work(cfg, s)
  {
    assert inv(s) == Inv(cfg, s);
    NextEnabled(cfg, s);
    NextOfNone(s, 0);
    WorkBounded(cfg, s);
    if NextOf(s, 0).Some? { WorkDrops(cfg, s, NextOf(s, 0).value); }
  }

  class Servers {
    const cfg: Setup
    ghost const inv: State -> bool
    /** Empty once it is used up: then nobody interferes and no call fails. */
    var schedule: seq<Turn>

    // What the caller shares with the serving goroutines and the servers.
    var sockets: seq<bool>
    var goroutines: seq<Goroutine>
    var results: seq<Message>
    var stopping: nat
    var cancelled: bool
    var clock: int

    // The caller's place, its variables and its history.
    var phase: Phase
    var attempts: seq<Option<string>>
    var received: seq<Message>
    var resultErr: seq<Problem>
    var choice: Choice
    var calls: seq<Call>
    var begun: int
    var ended: int

    function Now(): State
      reads this
    {
      State(phase, attempts, sockets, goroutines, results, received, choice, stopping, calls, resultErr, cancelled, clock, begun, ended)
    }

    ghost predicate Valid()
      reads this
    {
      IsInv(cfg, inv) && inv(Now()) && Sizes(cfg, Now())
    }

    constructor (cfg: Setup, clock: int, schedule: seq<Turn>)
      ensures Valid() && Now() == Init(clock) && this.cfg == cfg
    {
      this.cfg, this.clock, this.schedule := cfg, clock, schedule;
      attempts, sockets, goroutines, results, received, resultErr, calls := [], [], [], [], [], [], [];
      stopping, cancelled := 0, false;
      phase, choice, begun, ended := Listening, Undecided, clock, clock;
      inv := (s: State) => Inv(cfg, s);
      new;
      InitKept(cfg, inv, clock);
    }

    // ----- Others

    /** One event by others. */
    method Happen(e: Event)
      requires Valid() && Foreign(e)
      modifies this`sockets, this`goroutines, this`results, this`cancelled, this`clock
      ensures Valid() && Now() == Step(cfg, old(Now()), e)
    {
      ForeignFrame(cfg, Now(), e);
      Kept(cfg, inv, Now(), e);
      Adopt(Step(cfg, Now(), e));
    }

    /** What others can change becomes as in `t`. */
    method Adopt(t: State)
      modifies this`sockets, this`goroutines, this`results, this`cancelled, this`clock
      ensures Now() == old(Now()).(
        sockets := t.sockets, goroutines := t.goroutines, channel := t.channel, cancelled := t.cancelled, clock := t.clock)
    {
      sockets, goroutines, results, cancelled, clock := t.sockets, t.goroutines, t.channel, t.cancelled, t.clock;
    }

    /** Others act for one turn. */
    method Interfere() returns (turn: Turn)
      requires Valid()
      modifies this`schedule, this`sockets, this`goroutines, this`results, this`cancelled, this`clock
      ensures Valid() && old(results) <= results && (old(cancelled) ==> cancelled)
      ensures |sockets| == old(|sockets|) && |goroutines| == old(|goroutines|)
      ensures phase !in {Selecting, Draining} ==> clock == old(clock)
      ensures if old(schedule) == [] then schedule == [] && Now() == old(Now()) else |schedule| < old(|schedule|)
    {
      if schedule == [] {
        return Turn([], None, 0, false);
      }
      turn := schedule[0];
      schedule := schedule[1..];
      for i := 0 to |turn.events|
        invariant Valid() && old(results) <= results && (old(cancelled) ==> cancelled)
        invariant schedule == old(schedule)[1..]
        invariant |sockets| == old(|sockets|) && |goroutines| == old(|goroutines|)
        invariant phase !in {Selecting, Draining} ==> clock == old(clock)
      {
        if Foreign(turn.events[i]) {
          ForeignGrows(cfg, Now(), turn.events[i]);
          Happen(turn.events[i]);
        }
      }
    }

    // ----- Listeners

    /** Closes every listener opened so far. */
    method CloseListeners()
      modifies this`sockets
      ensures sockets == AllClosed(old(|sockets|))
    {
      for i := 0 to |sockets|
        invariant |sockets| == old(|sockets|)
        invariant forall j | 0 <= j < i :: !sockets[j]
      {
        sockets := sockets[i := false];
      }
    }

    /** Opens a listener for every server, or closes those opened and reports the first failure. */
    method ListenAll()
      requires Valid() && phase.Listening? && sockets == [] && cfg.servers != []
      modifies this
      ensures Valid() && phase in {Starting, Returned}
      ensures phase.Starting? ==> goroutines == []
      ensures SetupChecked(cfg, Now()) && ListensReported()
    {
      for k := 0 to |cfg.servers|
        invariant Valid() && |sockets| == k && goroutines == []
        invariant phase == if k < cfg.Count() then Listening else Starting
      {
        var turn := Interfere();
        ListenOne(k, turn.error);
        if phase.Returned? {
          ListensChecked();
          return;
        }
      }
      ListensChecked();
    }

    method ListenOne(k: nat, error: Option<string>)
      requires Valid() && phase.Listening? && |sockets| == k < cfg.Count() && goroutines == []
      modifies this`attempts, this`sockets, this`resultErr, this`phase
      ensures Valid()
      ensures phase.Returned? || (|sockets| == k + 1 && phase == if k + 1 < cfg.Count() then Listening else Starting)
    {
      Kept(cfg, inv, Now(), Listen(error));
      var server := cfg.servers[k];
      if server.name == "" || !server.configured {
        CloseListeners();
        resultErr, phase := [InvalidServer(k)], Returned;
        return;
      }
      attempts := attempts + [error];
      if error.Some? {
        CloseListeners();
        resultErr, phase := [ListenFailed(k, error.value)], Returned;
        return;
      }
      sockets := sockets + [true];
      phase := if k + 1 == cfg.Count() then Starting else Listening;
    }

    /** A failed listen is the last one, and its error is the one to return. */
    ghost predicate ListensReported()
      reads this
    {
      && (goroutines != [] || phase.Starting? ==> |attempts| == cfg.Count() && AllOpened(attempts))
      && (phase.Returned? && goroutines == [] ==>
            forall k: nat, text: string :: resultErr == [ListenFailed(k, text)] <==> FailedAt(attempts, k, text))
    }

    lemma ListensChecked()
      requires Valid()
      ensures SetupChecked(cfg, Now()) && ListensReported()
    {
      assert inv(Now()) == Inv(cfg, Now());
      if phase.Returned? && goroutines == [] { FailureRead(cfg, Now()); }
    }

    // ----- Goroutines

    method StartAll()
      requires Valid() && phase.Starting? && goroutines == []
      modifies this
      ensures Valid() && phase.Selecting?
    {
      for k := 0 to |cfg.servers|
        invariant Valid() && |goroutines| == k
        invariant phase == if k < cfg.Count() then Starting else Selecting
      {
        var turn := Interfere();
        Kept(cfg, inv, Now(), Event.Start);
        goroutines := goroutines + [Spawned];
        phase := if k + 1 == cfg.Count() then Selecting else Starting;
      }
    }

    // ----- The channel

    /** Whether a blocked caller can go on. */
    predicate Ready()
      reads this
    {
      results != [] || (phase.Selecting? && cancelled)
    }

    /** Blocks until something can be received or the context is done. Without a schedule the rest takes its course. */
    method Await()
      requires Valid() && (phase.Selecting? || (phase.Draining? && |received| < cfg.Count()))
      modifies this`schedule, this`sockets, this`goroutines, this`results, this`cancelled, this`clock
      ensures Valid() && Ready()
    {
      while !Ready()
        invariant Valid()
        decreases |schedule|, Work(cfg, Now())
      {
        Unblocked(cfg, inv, Now());
        var turn := Interfere();
        if schedule == [] && !Ready() {
          Unblocked(cfg, inv, Now());
          var next := NextOf(Now(), 0);
          if next.None? {
            Happen(Cancel);
            return;
          }
          Happen(next.value);
        }
      }
    }

    /** What the first result says: a failure, or a stop that nobody asked for. */
    method Judge(first: Message) returns (problems: seq<Problem>)
      ensures problems == FirstProblem(first, cancelled)
    {
      problems := [];
      if first.result.Failed? {
        problems := [ServeFailed(first.sender, first.result.text)];
      } else if !cancelled {
        problems := [StoppedUnexpectedly(first.sender)];
      }
    }

    method TakeFirst()
      requires Valid() && phase.Selecting? && results != []
      modifies this`results, this`received, this`resultErr, this`phase, this`choice, this`begun
      ensures Valid() && phase.Stopping? && stopping == 0 && begun == clock
    {
      Kept(cfg, inv, Now(), Event.TakeFirst);
      var first := results[0];
      var problems := Judge(first);
      results, received, resultErr := results[1..], received + [first], resultErr + problems;
      phase, choice, begun := Stopping, ByResult(first, cancelled), clock;
    }

    method TakeCancel()
      requires Valid() && phase.Selecting? && cancelled
      modifies this`phase, this`choice, this`begun
      ensures Valid() && phase.Stopping? && stopping == 0 && begun == clock
    {
      Kept(cfg, inv, Now(), Event.TakeCancel);
      phase, choice, begun := Stopping, ByContext, clock;
    }

    /** The select: a first result, or the end of the context; either may win if both are there. */
    method SelectFirst(preferContext: bool)
      requires Valid() && phase.Selecting?
      modifies this
      ensures Valid() && phase.Stopping? && stopping == 0 && begun == clock
    {
      Await();
      if cancelled && (preferContext || results == []) {
        TakeCancel();
      } else {
        TakeFirst();
      }
    }

    // ----- Shutdown

    method BeginShutdown(k: nat)
      requires Valid() && phase.Stopping? && stopping == k < cfg.Count()
      modifies this`sockets, this`stopping, this`phase
      ensures Valid() && phase.Waiting? && stopping == k + 1
    {
      Kept(cfg, inv, Now(), Event.BeginShutdown);
      if goroutines[k].Serving? {
        sockets := sockets[k := false];
      }
      stopping, phase := k + 1, Waiting;
    }

    method EndShutdown(k: nat, deadline: int, turn: Turn)
      requires Valid() && phase.Waiting? && stopping == k + 1 && deadline == begun + cfg.timeout
      modifies this`clock, this`calls, this`resultErr, this`phase, this`ended
      ensures Valid()
      ensures phase == if turn.error.Some? then Closing else if k + 1 < cfg.Count() then Stopping else Draining
    {
      var at := if clock + turn.delay <= Max(clock, deadline) then clock + turn.delay else Max(clock, deadline);
      Kept(cfg, inv, Now(), Event.EndShutdown(turn.error, at));
      assert resultErr + [] == resultErr;
      clock := at;
      calls := calls + [ShutdownCall(k, turn.error)];
      if turn.error.Some? {
        resultErr := resultErr + [ShutdownFailed(k, turn.error.value)];
        phase := Closing;
      } else if k + 1 < cfg.Count() {
        phase := Stopping;
      } else {
        phase, ended := Draining, clock;
      }
    }

    /** Server.Shutdown under a context that ends at `deadline`. */
    method Shutdown(k: nat, deadline: int) returns (failed: bool)
      requires Valid() && phase.Stopping? && stopping == k < cfg.Count() && deadline == begun + cfg.timeout
      modifies this
      ensures Valid() && stopping == k + 1 && begun == old(begun)
      ensures phase == if failed then Closing else if k + 1 < cfg.Count() then Stopping else Draining
    {
      BeginShutdown(k);
      var turn := Interfere();
      EndShutdown(k, deadline, turn);
      failed := turn.error.Some?;
    }

    /** Server.Close. */
    method CloseServer(k: nat, error: Option<string>)
      requires Valid() && phase.Closing? && stopping == k + 1
      modifies this`calls, this`resultErr, this`phase, this`ended
      ensures Valid() && phase == if k + 1 < cfg.Count() then Stopping else Draining
    {
      Kept(cfg, inv, Now(), Event.CloseServer(error));
      assert resultErr + [] == resultErr;
      calls := calls + [CloseCall(k, error)];
      if error.Some? {
        resultErr := resultErr + [CloseFailed(k, error.value)];
      }
      if k + 1 < cfg.Count() {
        phase := Stopping;
      } else {
        phase, ended := Draining, clock;
      }
    }

    method ShutDownAll()
      requires Valid() && phase.Stopping? && stopping == 0 && begun == clock
      modifies this
      ensures Valid() && phase.Draining?
    {
      var deadline := clock + cfg.timeout;
      for k := 0 to |cfg.servers|
        invariant Valid() && stopping == k && deadline == begun + cfg.timeout
        invariant phase == if k < cfg.Count() then Stopping else Draining
      {
        var failed := Shutdown(k, deadline);
        if failed {
          var turn := Interfere();
          CloseServer(k, turn.error);
        }
      }
    }

    // ----- Drain

    method DrainOne()
      requires Valid() && phase.Draining? && results != [] && |received| < cfg.Count()
      modifies this`results, this`received, this`resultErr
      ensures Valid() && |received| == old(|received|) + 1
    {
      Kept(cfg, inv, Now(), Event.Drain);
      assert resultErr + [] == resultErr;
      var m := results[0];
      results, received := results[1..], received + [m];
      if m.result.Failed? {
        resultErr := resultErr + [ServeFailed(m.sender, m.result.text)];
      }
    }

    method DrainAll()
      requires Valid() && phase.Draining?
      modifies this
      ensures Valid() && phase.Returned?
    {
      while |received| < |cfg.servers|
        invariant Valid() && phase.Draining?
        decreases |cfg.servers| - |received|
      {
        Await();
        DrainOne();
      }
      Kept(cfg, inv, Now(), Event.Finish);
      phase := Returned;
    }

    /**
     Returns for every schedule. Nothing leaks on any way out; the error is one setup problem, or exactly the
     problems that occurred; every server was shut down once, and closed if that failed.
     */
    method ServeUntilShutdown(preferContext: bool) returns (error: seq<Problem>)
      requires Valid() && phase.Listening? && sockets == []
      modifies this
      ensures Clear(Now())
      ensures error == resultErr && SetupChecked(cfg, Now()) && ListensReported()
      ensures goroutines != [] ==>
        && ReceivedAll(cfg, Now())
        && (forall i | 0 <= i < cfg.Count() :: OneShutdown(CallsOf(calls, i), i))
        && (forall p: Problem :: Times(error, p) == if Occurred(Now(), p) then 1 else 0)
        && 0 <= ended - begun <= Max(0, cfg.timeout)
    {
      if |cfg.servers| == 0 {
        Kept(cfg, inv, Now(), Listen(None));
        resultErr, phase := [NoServers], Returned;
      } else {
        ListenAll();
        if phase.Starting? {
          StartAll();
          SelectFirst(preferContext);
          ShutDownAll();
          DrainAll();
        }
      }
      AtReturn();
      ListensChecked();
      error := resultErr;
    }

    lemma AtReturn()
      requires Valid() && phase.Returned?
      ensures Clear(Now())
      ensures SetupChecked(cfg, Now())
      ensures goroutines != [] ==>
        && ReceivedAll(cfg, Now())
        && (forall i | 0 <= i < cfg.Count() :: OneShutdown(CallsOf(calls, i), i))
        && (forall p: Problem :: Times(resultErr, p) == if Occurred(Now(), p) then 1 else 0)
        && 0 <= ended - begun <= Max(0, cfg.timeout)
    {
      assert inv(Now()) == Inv(cfg, Now());
      ReturnedClear(cfg, Now());
      if goroutines != [] {
        forall i | 0 <= i < cfg.Count() ensures OneShutdown(CallsOf(calls, i), i) { CallsOfEach(calls, stopping, i); }
        forall p: Problem ensures Times(resultErr, p) == if Occurred(Now(), p) then 1 else 0 { ProblemTimes(cfg, Now(), p); }
      }
    }
  }
}
