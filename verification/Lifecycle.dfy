/**
 ServeUntilShutdown as a protocol (internal/telemetry/server.go, lines 96-186): the calling goroutine, one
 serving goroutine for each server, the buffered result channel and the context, in any interleaving.
 Servers are told apart by their index and are distinct.
 */
module Lifecycle {
  import opened Wrappers

  // ----- State

  datatype Server = Server(name: string, configured: bool)

  datatype Setup = Setup(servers: seq<Server>, timeout: int) {
    function Count(): nat { |servers| }
  }

  /** What Serve returned: nil or ErrServerClosed, or any other error. */
  datatype ServeResult = Clean | Failed(text: string)

  datatype Message = Message(sender: nat, result: ServeResult)

  /** A serving goroutine: before Serve, inside it, at its send, and gone. */
  datatype Goroutine = Spawned | Serving | Sending(result: ServeResult) | Sent(result: ServeResult)

  datatype Call = ShutdownCall(server: nat, error: Option<string>) | CloseCall(server: nat, error: Option<string>)

  datatype Problem =
    | NoServers
    | InvalidServer(server: nat)
    | ListenFailed(server: nat, text: string)
    | ServeFailed(server: nat, text: string)
    | StoppedUnexpectedly(server: nat)
    | ShutdownFailed(server: nat, text: string)
    | CloseFailed(server: nat, text: string)

  /** Where the calling goroutine is; `Waiting` is inside Shutdown. */
  datatype Phase = Listening | Starting | Selecting | Stopping | Waiting | Closing | Draining | Returned

  /** The branch the select took, and what ctx.Err() said then. */
  datatype Choice = Undecided | ByContext | ByResult(first: Message, cancelled: bool)

  /**
   `attempts` holds the error, if any, of every listen so far; `stopping` counts the servers whose Shutdown has
   begun; `begun` and `ended` time the shutdown loop.
   */
  datatype State = State(
    phase: Phase, attempts: seq<Option<string>>, sockets: seq<bool>, goroutines: seq<Goroutine>, channel: seq<Message>, received: seq<Message>,
    choice: Choice, stopping: nat, calls: seq<Call>, errors: seq<Problem>,
    cancelled: bool, clock: int, begun: int, ended: int)

  function Init(clock: int): State {
    State(Listening, [], [], [], [], [], Undecided, 0, [], [], false, clock, clock, clock)
  }

  // ----- Events

  datatype Event =
    | Cancel
    | Pass(until: int)
    | Listen(error: Option<string>)
    | Start
    | TakeFirst
    | TakeCancel
    | BeginShutdown
    | EndShutdown(error: Option<string>, at: int)
    | CloseServer(error: Option<string>)
    | Drain
    | Finish
    | Enter(goroutine: nat)
    | Fail(goroutine: nat, text: string)
    | Stop(goroutine: nat)
    | Send(goroutine: nat)

  /** The events of the world outside: the context, and the time spent blocked. */
  predicate Outside(e: Event) { e.Cancel? || e.Pass? }

  function Max(a: int, b: int): int { if a < b then b else a }

  predicate Enabled(cfg: Setup, s: State, e: Event) {
    match e
    case Cancel => true
    case Pass(until) => s.phase in {Selecting, Draining} && s.clock <= until
    case Listen(_) => s.phase.Listening?
    case Start => s.phase.Starting?
    case TakeFirst => s.phase.Selecting? && s.channel != []
    case TakeCancel => s.phase.Selecting? && s.cancelled
    case BeginShutdown => s.phase.Stopping?
    // Shutdown returns by the deadline of its context, or at once if that has passed.
    case EndShutdown(_, at) => s.phase.Waiting? && s.clock <= at <= Max(s.clock, s.begun + cfg.timeout)
    case CloseServer(_) => s.phase.Closing?
    case Drain => s.phase.Draining? && |s.received| < cfg.Count() && s.channel != []
    case Finish => s.phase.Draining? && |s.received| >= cfg.Count()
    case Enter(i) => i < |s.goroutines| && s.goroutines[i].Spawned?
    case Fail(i, _) => i < |s.goroutines| && (s.goroutines[i].Spawned? || s.goroutines[i].Serving?)
    case Stop(i) => i < |s.goroutines| && s.goroutines[i].Serving?
    case Send(i) => i < |s.goroutines| && s.goroutines[i].Sending? && |s.channel| < cfg.Count()
  }

  // ----- Steps

  function AllClosed(n: nat): seq<bool> { seq(n, _ => false) }

  /** A server that can be listened for. */
  predicate Listenable(server: Server) { server.name != "" && server.configured }

  /** The listen for the next server, whatever comes of it. */
  function Attempt(cfg: Setup, s: State, error: Option<string>): State {
    if |s.sockets| < cfg.Count() && Listenable(cfg.servers[|s.sockets|]) then s.(attempts := s.attempts + [error]) else s
  }

  /** The listen loop's three ways out, or on to the next server. */
  function ListenStep(cfg: Setup, s: State, error: Option<string>): State {
    var k, n := |s.sockets|, cfg.Count();
    if k >= n then s.(phase := Returned, sockets := AllClosed(k), errors := [NoServers])
    else if cfg.servers[k].name == "" || !cfg.servers[k].configured then
      s.(phase := Returned, sockets := AllClosed(k), errors := [InvalidServer(k)])
    else if error.Some? then
      s.(phase := Returned, sockets := AllClosed(k), errors := [ListenFailed(k, error.value)])
    else s.(phase := if k + 1 == n then Starting else Listening, sockets := s.sockets + [true])
  }

  function StartStep(cfg: Setup, s: State): State {
    s.(phase := if |s.goroutines| + 1 == cfg.Count() then Selecting else Starting, goroutines := s.goroutines + [Spawned])
  }

  function ServeProblem(m: Message): seq<Problem> {
    if m.result.Failed? then [ServeFailed(m.sender, m.result.text)] else []
  }

  /** What the select reports of the first result. */
  function FirstProblem(m: Message, cancelled: bool): seq<Problem> {
    if m.result.Clean? && !cancelled then [StoppedUnexpectedly(m.sender)] else ServeProblem(m)
  }

  function CallProblem(c: Call): seq<Problem> {
    match c
    case ShutdownCall(i, error) => if error.Some? then [ShutdownFailed(i, error.value)] else []
    case CloseCall(i, error) => if error.Some? then [CloseFailed(i, error.value)] else []
  }

  function TakeFirstStep(s: State): State
    requires s.channel != []
  {
    var m := s.channel[0];
    s.(phase := Stopping, channel := s.channel[1..], received := s.received + [m], choice := ByResult(m, s.cancelled),
       errors := s.errors + FirstProblem(m, s.cancelled), begun := s.clock)
  }

  /** Shutdown closes the listener that Serve has registered; one that Serve has not seen stays open. */
  function BeginShutdownStep(s: State): State {
    var k := s.stopping;
    s.(phase := Waiting, stopping := k + 1,
       sockets := if k < |s.goroutines| && k < |s.sockets| && s.goroutines[k].Serving? then s.sockets[k := false] else s.sockets)
  }

  function NextServer(cfg: Setup, s: State): State {
    if s.stopping < cfg.Count() then s.(phase := Stopping) else s.(phase := Draining, ended := s.clock)
  }

  function EndShutdownStep(cfg: Setup, s: State, error: Option<string>, at: int): State
    requires s.stopping > 0
  {
    var c := ShutdownCall(s.stopping - 1, error);
    var t := s.(calls := s.calls + [c], errors := s.errors + CallProblem(c), clock := at);
    if error.Some? then t.(phase := Closing) else NextServer(cfg, t)
  }

  function CloseStep(cfg: Setup, s: State, error: Option<string>): State
    requires s.stopping > 0
  {
    var c := CloseCall(s.stopping - 1, error);
    NextServer(cfg, s.(calls := s.calls + [c], errors := s.errors + CallProblem(c)))
  }

  function DrainStep(s: State): State
    requires s.channel != []
  {
    var m := s.channel[0];
    s.(channel := s.channel[1..], received := s.received + [m], errors := s.errors + ServeProblem(m))
  }

  /** Serve returns; it closes its listener on every way out. */
  function ServeReturns(s: State, i: nat, r: ServeResult): State
    requires i < |s.goroutines|
  {
    s.(goroutines := s.goroutines[i := Sending(r)], sockets := if i < |s.sockets| then s.sockets[i := false] else s.sockets)
  }

  /** Serve on a server that is shutting down returns ErrServerClosed at once. */
  function EnterStep(s: State, i: nat): State
    requires i < |s.goroutines|
  {
    if i < s.stopping then ServeReturns(s, i, Clean) else s.(goroutines := s.goroutines[i := Serving])
  }

  function SendStep(s: State, i: nat): State
    requires i < |s.goroutines| && s.goroutines[i].Sending?
  {
    var r := s.goroutines[i].result;
    s.(goroutines := s.goroutines[i := Sent(r)], channel := s.channel + [Message(i, r)])
  }

  function Apply(cfg: Setup, s: State, e: Event): State
    requires Enabled(cfg, s, e) && (s.phase in {Waiting, Closing} ==> s.stopping > 0)
  {
    match e
    case Cancel => s.(cancelled := true)
    case Pass(until) => s.(clock := until)
    case Listen(error) => ListenStep(cfg, Attempt(cfg, s, error), error)
    case Start => StartStep(cfg, s)
    case TakeFirst => TakeFirstStep(s)
    case TakeCancel => s.(phase := Stopping, choice := ByContext, begun := s.clock)
    case BeginShutdown => BeginShutdownStep(s)
    case EndShutdown(error, at) => EndShutdownStep(cfg, s, error, at)
    case CloseServer(error) => CloseStep(cfg, s, error)
    case Drain => DrainStep(s)
    case Finish => s.(phase := Returned)
    case Enter(i) => EnterStep(s, i)
    case Fail(i, text) => ServeReturns(s, i, Failed(text))
    case Stop(i) => ServeReturns(s, i, Clean)
    case Send(i) => SendStep(s, i)
  }

  /** An event that is not enabled does not happen. */
  function Step(cfg: Setup, s: State, e: Event): State {
    if Enabled(cfg, s, e) && (s.phase in {Waiting, Closing} ==> s.stopping > 0) then Apply(cfg, s, e) else s
  }

  function Run(cfg: Setup, s: State, es: seq<Event>): State
    decreases |es|
  {
    if es == [] then s else Step(cfg, Run(cfg, s, es[..|es| - 1]), es[|es| - 1])
  }

  // ----- The invariant: sizes, listeners and goroutines

  function CountSent(gs: seq<Goroutine>): nat {
    if gs == [] then 0 else CountSent(gs[..|gs| - 1]) + (if gs[|gs| - 1].Sent? then 1 else 0)
  }

  predicate Started(s: State) { s.phase !in {Listening, Starting} && s.goroutines != [] }

  predicate Sizes(cfg: Setup, s: State) {
    var n := cfg.Count();
    && (s.phase.Listening? ==> |s.sockets| <= n && (|s.sockets| < n || n == 0) && s.goroutines == [])
    && (s.phase.Starting? ==> |s.sockets| == n && |s.goroutines| < n)
    && (s.phase !in {Listening, Starting, Returned} ==> Started(s))
    && (Started(s) ==> |s.sockets| == n && |s.goroutines| == n && n > 0)
    && (s.phase in {Listening, Starting, Selecting} ==> s.stopping == 0 && s.received == [] && s.errors == [] && s.calls == [] && s.choice.Undecided?)
    && (s.phase.Stopping? ==> s.stopping < n)
    && (s.phase in {Waiting, Closing} ==> 0 < s.stopping <= n)
    && (s.phase.Draining? || (s.phase.Returned? && Started(s)) ==> s.stopping == n)
    && (s.phase.Returned? && !Started(s) ==>
          |s.errors| == 1 && SetupProblem(s.errors[0]) && s.received == [] && s.calls == [] && s.channel == [])
    && |s.received| <= n
    && (s.phase in {Listening, Starting} && s.goroutines == [] ==> s.channel == [])
  }

  predicate SetupProblem(p: Problem) { p.NoServers? || p.InvalidServer? || p.ListenFailed? }

  /** A goroutine that is past Serve has left its listener closed. */
  predicate Sockets(cfg: Setup, s: State) {
    && |s.goroutines| <= |s.sockets|
    && (forall i | 0 <= i < |s.goroutines| :: s.sockets[i] ==> s.goroutines[i].Spawned? || s.goroutines[i].Serving?)
    && (s.phase.Returned? ==>
          && (s.goroutines == [] ==> forall i | 0 <= i < |s.sockets| :: !s.sockets[i])
          && (s.goroutines != [] ==> |s.received| == cfg.Count()))
  }

  /** The events of the serving goroutines. */
  predicate OfGoroutine(e: Event) { e.Enter? || e.Fail? || e.Stop? || e.Send? }

  lemma GoroutineSizesKept(cfg: Setup, s: State, e: Event)
    requires Sizes(cfg, s) && OfGoroutine(e)
    ensures Sizes(cfg, Step(cfg, s, e))
  {
  }

  lemma CallerSizesKept(cfg: Setup, s: State, e: Event)
    requires Sizes(cfg, s) && !OfGoroutine(e)
    ensures Sizes(cfg, Step(cfg, s, e))
  {
  }

  lemma SizesKept(cfg: Setup, s: State, e: Event)
    requires Sizes(cfg, s)
    ensures Sizes(cfg, Step(cfg, s, e))
  {
    if OfGoroutine(e) {
      GoroutineSizesKept(cfg, s, e);
    } else {
      CallerSizesKept(cfg, s, e);
    }
  }

  lemma CallerSocketsKept(cfg: Setup, s: State, e: Event)
    requires Sizes(cfg, s) && Sockets(cfg, s) && !OfGoroutine(e)
    ensures Sockets(cfg, Step(cfg, s, e))
  {
  }

  lemma GoroutineSocketsKept(cfg: Setup, s: State, e: Event)
    requires Sizes(cfg, s) && Sockets(cfg, s) && OfGoroutine(e)
    ensures Sockets(cfg, Step(cfg, s, e))
  {
  }

  lemma SocketsKept(cfg: Setup, s: State, e: Event)
    requires Sizes(cfg, s) && Sockets(cfg, s)
    ensures Sockets(cfg, Step(cfg, s, e))
  {
    if OfGoroutine(e) {
      GoroutineSocketsKept(cfg, s, e);
    } else {
      CallerSocketsKept(cfg, s, e);
    }
  }

  // ----- The invariant: what the setup found

  predicate AllOpened(attempts: seq<Option<string>>) { forall i | 0 <= i < |attempts| :: attempts[i].None? }

  /** What a setup problem says of the servers and of the listens. */
  predicate Explains(cfg: Setup, s: State, p: Problem) {
    var k := |s.sockets|;
    match p
    case NoServers => cfg.servers == [] && s.attempts == []
    case InvalidServer(i) => i == k < cfg.Count() && !Listenable(cfg.servers[k]) && |s.attempts| == k && AllOpened(s.attempts)
    case ListenFailed(i, text) =>
      && i == k < cfg.Count() && Listenable(cfg.servers[k])
      && |s.attempts| == k + 1 && s.attempts[k] == Some(text) && AllOpened(s.attempts[..k])
    case _ => false
  }

  /** The servers with a socket could be listened for and were, and a setup that failed says why. */
  predicate SetupChecked(cfg: Setup, s: State) {
    && |s.sockets| <= cfg.Count()
    && (forall i | 0 <= i < |s.sockets| :: Listenable(cfg.servers[i]))
    && (if s.phase.Returned? && s.goroutines == [] then |s.errors| == 1 && Explains(cfg, s, s.errors[0])
        else |s.attempts| == |s.sockets| && AllOpened(s.attempts))
  }

  lemma SetupCheckedKept(cfg: Setup, s: State, e: Event)
    requires Sizes(cfg, s) && SetupChecked(cfg, s)
    ensures SetupChecked(cfg, Step(cfg, s, e))
  {
    var t := Step(cfg, s, e);
    if s.phase.Listening? && e.Listen? {
      ListenChecked(cfg, s, e.error);
    } else {
      assert t.attempts == s.attempts && |t.sockets| == |s.sockets| && (t.phase.Returned? && t.goroutines == [] ==> t == s || e.Cancel?);
    }
  }

  lemma ListenChecked(cfg: Setup, s: State, error: Option<string>)
    requires Sizes(cfg, s) && SetupChecked(cfg, s) && s.phase.Listening?
    ensures SetupChecked(cfg, ListenStep(cfg, Attempt(cfg, s, error), error))
  {
    assert (s.attempts + [error])[..|s.attempts|] == s.attempts;
  }

  // ----- The invariant: every result travels once

  /** Each goroutine that has sent has one message, in the channel or received, and it is its result. */
  ghost predicate Delivered(s: State) {
    && |s.channel| + |s.received| == CountSent(s.goroutines)
    && forall m: Message :: (multiset(s.channel) + multiset(s.received))[m]
         == if m.sender < |s.goroutines| && s.goroutines[m.sender] == Sent(m.result) then 1 else 0
  }

  lemma {:induction false} CountSentUpdate(gs: seq<Goroutine>, i: nat, g: Goroutine)
    requires i < |gs|
    ensures CountSent(gs[i := g]) == CountSent(gs) - (if gs[i].Sent? then 1 else 0) + (if g.Sent? then 1 else 0)
  {
    var last := |gs| - 1;
    if i == last {
      assert gs[i := g][..last] == gs[..last];
    } else {
      assert gs[i := g][..last] == gs[..last][i := g];
      CountSentUpdate(gs[..last], i, g);
    }
  }

  lemma {:induction false} CountSentBound(gs: seq<Goroutine>)
    ensures CountSent(gs) <= |gs|
    ensures CountSent(gs) == |gs| <==> forall i | 0 <= i < |gs| :: gs[i].Sent?
  {
    if gs != [] {
      var last := |gs| - 1;
      CountSentBound(gs[..last]);
      assert gs == gs[..last] + [gs[last]];
    }
  }

  /** What a step may do to the goroutines and their messages. */
  predicate Traffic(s: State, e: Event, t: State) {
    match e
    case TakeFirst => s.channel != [] && t == s.(channel := s.channel[1..], received := s.received + [s.channel[0]])
    case Drain => s.channel != [] && t == s.(channel := s.channel[1..], received := s.received + [s.channel[0]])
    case Start => t == s.(goroutines := s.goroutines + [Spawned])
    case Enter(i) => Moved(s, i, t)
    case Fail(i, _) => Moved(s, i, t)
    case Stop(i) => Moved(s, i, t)
    case Send(i) => i < |s.goroutines| && s.goroutines[i].Sending? && t == s.(
      goroutines := s.goroutines[i := Sent(s.goroutines[i].result)], channel := s.channel + [Message(i, s.goroutines[i].result)])
    case _ => t == s
  }

  predicate Moved(s: State, i: nat, t: State) {
    && i < |s.goroutines| == |t.goroutines|
    && !s.goroutines[i].Sent? && !t.goroutines[i].Sent?
    && t == s.(goroutines := s.goroutines[i := t.goroutines[i]])
  }

  lemma TrafficCases(cfg: Setup, s: State, e: Event)
    requires Sizes(cfg, s)
    ensures var t := Step(cfg, s, e);
      t == s || Traffic(s, e, s.(goroutines := t.goroutines, channel := t.channel, received := t.received))
  {
  }

  lemma MovedKept(s: State, i: nat, t: State)
    requires Delivered(s) && Moved(s, i, t)
    ensures Delivered(t)
  {
    CountSentUpdate(s.goroutines, i, t.goroutines[i]);
  }

  lemma SpawnedKept(s: State, t: State)
    requires Delivered(s) && t == s.(goroutines := s.goroutines + [Spawned])
    ensures Delivered(t)
  {
    assert t.goroutines[..|t.goroutines| - 1] == s.goroutines;
  }

  lemma SentKept(s: State, i: nat, m: Message, t: State)
    requires Delivered(s) && i < |s.goroutines| && s.goroutines[i].Sending? && m == Message(i, s.goroutines[i].result)
    requires t == s.(goroutines := s.goroutines[i := Sent(m.result)], channel := s.channel + [m])
    ensures Delivered(t)
  {
    CountSentUpdate(s.goroutines, i, Sent(m.result));
    assert multiset(t.channel) == multiset(s.channel) + multiset{m};
  }

  lemma TrafficKept(s: State, e: Event, t: State)
    requires Delivered(s) && Traffic(s, e, t)
    ensures Delivered(t)
  {
    match e
    case TakeFirst => TakeHead(s, t);
    case Drain => TakeHead(s, t);
    case Start => SpawnedKept(s, t);
    case Enter(i) => MovedKept(s, i, t);
    case Fail(i, _) => MovedKept(s, i, t);
    case Stop(i) => MovedKept(s, i, t);
    case Send(i) => SentKept(s, i, Message(i, s.goroutines[i].result), t);
    case _ =>
  }

  lemma TakeHead(s: State, t: State)
    requires Delivered(s) && s.channel != []
    requires t.channel == s.channel[1..] && t.received == s.received + [s.channel[0]] && t.goroutines == s.goroutines
    ensures Delivered(t)
  {
    assert s.channel == [s.channel[0]] + s.channel[1..];
    assert multiset(t.channel) + multiset(t.received) == multiset(s.channel) + multiset(s.received);
  }

  lemma DeliveredKept(cfg: Setup, s: State, e: Event)
    requires Sizes(cfg, s) && Delivered(s)
    ensures Delivered(Step(cfg, s, e))
  {
    var t := Step(cfg, s, e);
    TrafficCases(cfg, s, e);
    if t != s {
      TrafficKept(s, e, s.(goroutines := t.goroutines, channel := t.channel, received := t.received));
    }
  }

  // ----- The invariant: one Shutdown a server, a Close after each that failed

  /** The complete calls for the first `k` servers, in order. */
  ghost predicate CallsFor(calls: seq<Call>, k: nat)
    decreases k, 1
  {
    if k == 0 then calls == []
    else
      var last := |calls| - 1;
      || (last >= 0 && calls[last] == ShutdownCall(k - 1, None) && CallsFor(calls[..last], k - 1))
      || (last >= 1 && calls[last].CloseCall? && calls[last].server == k - 1 && FailedShutdown(calls[..last], k))
  }

  /** The first `k - 1` servers are dealt with, and the Shutdown of the next has failed. */
  ghost predicate FailedShutdown(calls: seq<Call>, k: nat)
    requires k > 0
    decreases k, 0
  {
    && calls != []
    && var last := |calls| - 1;
    && calls[last].ShutdownCall? && calls[last].server == k - 1 && calls[last].error.Some?
    && CallsFor(calls[..last], k - 1)
  }

  ghost predicate Called(s: State) {
    if s.phase.Waiting? then s.stopping > 0 && CallsFor(s.calls, s.stopping - 1)
    else if s.phase.Closing? then s.stopping > 0 && FailedShutdown(s.calls, s.stopping)
    else CallsFor(s.calls, s.stopping)
  }

  lemma EndShutdownCalled(s: State, t: State, error: Option<string>)
    requires s.phase.Waiting? && Called(s) && t.stopping == s.stopping
    requires t.calls == s.calls + [ShutdownCall(s.stopping - 1, error)]
    requires !t.phase.Waiting? && (t.phase.Closing? <==> error.Some?)
    ensures Called(t)
  {
    assert t.calls[..|t.calls| - 1] == s.calls;
  }

  lemma CloseCalled(s: State, t: State, error: Option<string>)
    requires s.phase.Closing? && Called(s) && t.stopping == s.stopping
    requires t.calls == s.calls + [CloseCall(s.stopping - 1, error)]
    requires !t.phase.Waiting? && !t.phase.Closing?
    ensures Called(t)
  {
    assert t.calls[..|t.calls| - 1] == s.calls;
  }

  /** No call is made, and nothing moves in or out of a call. */
  predicate Uncalled(s: State, t: State) {
    && t.calls == s.calls && t.stopping == s.stopping
    && (t.phase == s.phase || (t.phase !in {Waiting, Closing} && s.phase !in {Waiting, Closing}))
  }

  lemma CallerUncalled(cfg: Setup, s: State, e: Event)
    requires Sizes(cfg, s) && !OfGoroutine(e) && !e.BeginShutdown? && !e.EndShutdown? && !e.CloseServer?
    ensures Uncalled(s, Step(cfg, s, e))
  {
  }

  lemma GoroutineUncalled(cfg: Setup, s: State, e: Event)
    requires Sizes(cfg, s) && OfGoroutine(e)
    ensures Uncalled(s, Step(cfg, s, e))
  {
  }

  lemma BeginCalls(cfg: Setup, s: State)
    requires Sizes(cfg, s) && s.phase.Stopping?
    ensures var t := Step(cfg, s, BeginShutdown);
      t.calls == s.calls && t.stopping == s.stopping + 1 && t.phase.Waiting?
  {
  }

  lemma EndCalls(cfg: Setup, s: State, error: Option<string>, at: int)
    requires Sizes(cfg, s) && Enabled(cfg, s, EndShutdown(error, at))
    ensures var t := Step(cfg, s, EndShutdown(error, at));
      && t.stopping == s.stopping && t.calls == s.calls + [ShutdownCall(s.stopping - 1, error)]
      && !t.phase.Waiting? && (t.phase.Closing? <==> error.Some?)
  {
  }

  lemma CloseCalls(cfg: Setup, s: State, error: Option<string>)
    requires Sizes(cfg, s) && s.phase.Closing?
    ensures var t := Step(cfg, s, CloseServer(error));
      && t.stopping == s.stopping && t.calls == s.calls + [CloseCall(s.stopping - 1, error)]
      && !t.phase.Waiting? && !t.phase.Closing?
  {
  }

  lemma CalledKept(cfg: Setup, s: State, e: Event)
    requires Sizes(cfg, s) && Called(s)
    ensures Called(Step(cfg, s, e))
  {
    if !Enabled(cfg, s, e) {
    } else if OfGoroutine(e) {
      GoroutineUncalled(cfg, s, e);
    } else {
      match e
      case BeginShutdown => BeginCalls(cfg, s);
      case EndShutdown(error, at) =>
        EndCalls(cfg, s, error, at);
        EndShutdownCalled(s, Step(cfg, s, e), error);
      case CloseServer(error) =>
        CloseCalls(cfg, s, error);
        CloseCalled(s, Step(cfg, s, e), error);
      case _ => CallerUncalled(cfg, s, e);
    }
  }

  // ----- The invariant: every problem is reported once

  function Times<T(==)>(s: seq<T>, x: T): nat { multiset(s)[x] }

  /** How often a problem is in the returned error, from what has happened. */
  function Reports(s: State, p: Problem): nat {
    match p
    case ServeFailed(i, text) => Times(s.received, Message(i, Failed(text)))
    case ShutdownFailed(i, text) => Times(s.calls, ShutdownCall(i, Some(text)))
    case CloseFailed(i, text) => Times(s.calls, CloseCall(i, Some(text)))
    case StoppedUnexpectedly(i) => if s.choice == ByResult(Message(i, Clean), false) then 1 else 0
    case _ => 0
  }

  ghost predicate Accounted(s: State) {
    Started(s) ==> forall p: Problem :: Times(s.errors, p) == Reports(s, p)
  }

  /** One more element, or none. */
  lemma Counted<T>(xs: seq<T>, ys: seq<T>, x: T)
    requires |ys| <= 1
    ensures Times(xs + ys, x) == Times(xs, x) + (if ys == [x] then 1 else 0)
  {
    if ys != [] { assert ys == [ys[0]]; }
  }

  /** What a step does to the history and to the list of problems. */
  predicate Reporting(s: State, e: Event, t: State) {
    match e
    case TakeFirst => s.channel != [] && s.choice.Undecided? && t == s.(
      received := s.received + [s.channel[0]], choice := ByResult(s.channel[0], s.cancelled),
      errors := s.errors + FirstProblem(s.channel[0], s.cancelled))
    case TakeCancel => s.choice.Undecided? && t == s.(choice := ByContext)
    case Drain => s.channel != [] && t == s.(received := s.received + [s.channel[0]], errors := s.errors + ServeProblem(s.channel[0]))
    case EndShutdown(error, _) => s.stopping > 0 && var c := ShutdownCall(s.stopping - 1, error);
      t == s.(calls := s.calls + [c], errors := s.errors + CallProblem(c))
    case CloseServer(error) => s.stopping > 0 && var c := CloseCall(s.stopping - 1, error);
      t == s.(calls := s.calls + [c], errors := s.errors + CallProblem(c))
    case _ => t == s
  }

  lemma ReportingCases(cfg: Setup, s: State, e: Event)
    requires Sizes(cfg, s) && Started(s)
    ensures var t := Step(cfg, s, e);
      t == s || Reporting(s, e, s.(received := t.received, choice := t.choice, calls := t.calls, errors := t.errors))
  {
  }

  lemma ReportingKept(s: State, e: Event, t: State, p: Problem)
    requires Times(s.errors, p) == Reports(s, p) && Reporting(s, e, t)
    ensures Times(t.errors, p) == Reports(t, p)
  {
    match e
    case TakeFirst => TakeReported(s, t, p);
    case Drain =>
      var m := s.channel[0];
      Counted(s.errors, ServeProblem(m), p);
      if p.ServeFailed? { Counted(s.received, [m], Message(p.server, Failed(p.text))); }
    case EndShutdown(error, _) => CallReported(s, t, ShutdownCall(s.stopping - 1, error), p);
    case CloseServer(error) => CallReported(s, t, CloseCall(s.stopping - 1, error), p);
    case _ =>
  }

  lemma TakeReported(s: State, t: State, p: Problem)
    requires Times(s.errors, p) == Reports(s, p) && Reporting(s, TakeFirst, t)
    ensures Times(t.errors, p) == Reports(t, p)
  {
    var m := s.channel[0];
    Counted(s.errors, FirstProblem(m, s.cancelled), p);
    if p.ServeFailed? { Counted(s.received, [m], Message(p.server, Failed(p.text))); }
  }

  lemma CallReported(s: State, t: State, c: Call, p: Problem)
    requires Times(s.errors, p) == Reports(s, p)
    requires t == s.(calls := s.calls + [c], errors := s.errors + CallProblem(c))
    ensures Times(t.errors, p) == Reports(t, p)
  {
    Counted(s.errors, CallProblem(c), p);
    if p.ShutdownFailed? { Counted(s.calls, [c], ShutdownCall(p.server, Some(p.text))); }
    if p.CloseFailed? { Counted(s.calls, [c], CloseCall(p.server, Some(p.text))); }
  }

  lemma AllReported(s: State, e: Event, t: State)
    requires Accounted(s) && Started(s)
    requires t == s || Reporting(s, e, s.(received := t.received, choice := t.choice, calls := t.calls, errors := t.errors))
    ensures Accounted(t)
  {
    var r := s.(received := t.received, choice := t.choice, calls := t.calls, errors := t.errors);
    if t != s {
      forall p: Problem ensures Times(t.errors, p) == Reports(t, p) {
        ReportingKept(s, e, r, p);
      }
    }
  }

  lemma AccountedKept(cfg: Setup, s: State, e: Event)
    requires Sizes(cfg, s) && Accounted(s)
    ensures Accounted(Step(cfg, s, e))
  {
    if Started(s) {
      ReportingCases(cfg, s, e);
      AllReported(s, e, Step(cfg, s, e));
    } else if Started(Step(cfg, s, e)) {
      NothingYet(cfg, s, e);
      NothingReported(Step(cfg, s, e));
    }
  }

  lemma NothingReported(t: State)
    requires t.errors == [] && t.received == [] && t.calls == [] && t.choice.Undecided?
    ensures Accounted(t)
  {
  }

  lemma NothingYet(cfg: Setup, s: State, e: Event)
    requires Sizes(cfg, s) && !Started(s) && Started(Step(cfg, s, e))
    ensures var t := Step(cfg, s, e); t.errors == [] && t.received == [] && t.calls == [] && t.choice.Undecided?
  {
  }

  // ----- The invariant: one budget for the whole shutdown loop

  predicate Budgeted(cfg: Setup, s: State) {
    && (s.phase in {Stopping, Waiting, Closing} ==> s.begun <= s.clock <= Max(s.begun, s.begun + cfg.timeout))
    && (s.phase.Draining? || (s.phase.Returned? && Started(s)) ==> s.begun <= s.ended <= Max(s.begun, s.begun + cfg.timeout))
  }

  /** Time and place stay as they are. */
  predicate Timeless(s: State, t: State) {
    t.phase == s.phase && t.clock == s.clock && t.begun == s.begun && t.ended == s.ended && (Started(t) <==> Started(s))
  }

  lemma GoroutineBudgeted(cfg: Setup, s: State, e: Event)
    requires Sizes(cfg, s) && OfGoroutine(e)
    ensures Timeless(s, Step(cfg, s, e))
  {
  }

  lemma OutsideBudgeted(cfg: Setup, s: State, e: Event)
    requires Sizes(cfg, s) && Budgeted(cfg, s) && Outside(e)
    ensures Budgeted(cfg, Step(cfg, s, e))
  {
  }

  lemma ShutdownBudgeted(cfg: Setup, s: State, e: Event)
    requires Sizes(cfg, s) && Budgeted(cfg, s) && (e.BeginShutdown? || e.EndShutdown? || e.CloseServer?)
    ensures Budgeted(cfg, Step(cfg, s, e))
  {
  }

  lemma CallerBudgeted(cfg: Setup, s: State, e: Event)
    requires Sizes(cfg, s) && Budgeted(cfg, s) && !OfGoroutine(e) && !Outside(e)
    requires !e.BeginShutdown? && !e.EndShutdown? && !e.CloseServer?
    ensures Budgeted(cfg, Step(cfg, s, e))
  {
  }

  lemma BudgetedKept(cfg: Setup, s: State, e: Event)
    requires Sizes(cfg, s) && Budgeted(cfg, s)
    ensures Budgeted(cfg, Step(cfg, s, e))
  {
    if OfGoroutine(e) {
      GoroutineBudgeted(cfg, s, e);
    } else if Outside(e) {
      OutsideBudgeted(cfg, s, e);
    } else if e.BeginShutdown? || e.EndShutdown? || e.CloseServer? {
      ShutdownBudgeted(cfg, s, e);
    } else {
      CallerBudgeted(cfg, s, e);
    }
  }

  // ----- Every reachable state

  ghost predicate Inv(cfg: Setup, s: State) {
    Sizes(cfg, s) && Sockets(cfg, s) && SetupChecked(cfg, s) && Delivered(s) && Called(s) && Accounted(s) && Budgeted(cfg, s)
  }

  lemma StepKept(cfg: Setup, s: State, e: Event)
    requires Inv(cfg, s)
    ensures Inv(cfg, Step(cfg, s, e))
  {
    SizesKept(cfg, s, e);
    SocketsKept(cfg, s, e);
    SetupCheckedKept(cfg, s, e);
    DeliveredKept(cfg, s, e);
    CalledKept(cfg, s, e);
    AccountedKept(cfg, s, e);
    BudgetedKept(cfg, s, e);
  }

  lemma {:induction false} RunKept(cfg: Setup, clock: int, es: seq<Event>)
    ensures Inv(cfg, Run(cfg, Init(clock), es))
    decreases |es|
  {
    if es != [] {
      RunKept(cfg, clock, es[..|es| - 1]);
      StepKept(cfg, Run(cfg, Init(clock), es[..|es| - 1]), es[|es| - 1]);
    }
  }

  // ----- Nothing leaks, nothing blocks

  /** At every return no listener is open, no serving goroutine is left and no result is unread. */
  ghost predicate Clear(s: State) {
    && (forall i | 0 <= i < |s.sockets| :: !s.sockets[i])
    && (forall i | 0 <= i < |s.goroutines| :: s.goroutines[i].Sent?)
    && s.channel == []
  }

  /** Every server's result has been received exactly once. */
  ghost predicate ReceivedAll(cfg: Setup, s: State) {
    && |s.received| == |s.goroutines| == cfg.Count()
    && forall m: Message :: Times(s.received, m)
         == if m.sender < |s.goroutines| && s.goroutines[m.sender] == Sent(m.result) then 1 else 0
  }

  lemma LeaksNothing(cfg: Setup, clock: int, es: seq<Event>)
    ensures var s := Run(cfg, Init(clock), es);
      s.phase.Returned? ==>
        && Clear(s)
        && (s.goroutines != [] ==> ReceivedAll(cfg, s))
        && (s.goroutines == [] ==> s.calls == [])
        && SetupChecked(cfg, s)
  {
    var s := Run(cfg, Init(clock), es);
    RunKept(cfg, clock, es);
    if s.phase.Returned? { ReturnedClear(cfg, s); }
  }

  lemma ReturnedClear(cfg: Setup, s: State)
    requires Inv(cfg, s) && s.phase.Returned?
    ensures Clear(s) && (s.goroutines != [] ==> ReceivedAll(cfg, s))
  {
    CountSentBound(s.goroutines);
    if s.goroutines != [] {
      assert s.channel == [];
      forall m: Message
        ensures Times(s.received, m) == if m.sender < |s.goroutines| && s.goroutines[m.sender] == Sent(m.result) then 1 else 0
      {
        assert (multiset(s.channel) + multiset(s.received))[m] == multiset(s.received)[m];
      }
    }
  }

  /** No goroutine ever waits at its send: there is room in the channel. */
  lemma SendNeverBlocks(cfg: Setup, clock: int, es: seq<Event>, i: nat)
    ensures var s := Run(cfg, Init(clock), es);
      i < |s.goroutines| && s.goroutines[i].Sending? ==> Enabled(cfg, s, Send(i))
  {
    var s := Run(cfg, Init(clock), es);
    RunKept(cfg, clock, es);
    CountSentBound(s.goroutines);
  }

  // ----- A failed listen is reported

  /** The errors of the listens among the events of a run, read off the events. */
  function ListensIn(cfg: Setup, clock: int, es: seq<Event>): seq<Option<string>>
    decreases |es|
  {
    if es == [] then []
    else
      var s, e := Run(cfg, Init(clock), es[..|es| - 1]), es[|es| - 1];
      ListensIn(cfg, clock, es[..|es| - 1])
      + (if s.phase.Listening? && |s.sockets| < cfg.Count() && Listenable(cfg.servers[|s.sockets|]) && e.Listen? then [e.error]
         else [])
  }

  lemma StepAttempts(cfg: Setup, s: State, e: Event)
    ensures Step(cfg, s, e).attempts
            == s.attempts
               + (if s.phase.Listening? && |s.sockets| < cfg.Count() && Listenable(cfg.servers[|s.sockets|]) && e.Listen? then [e.error]
                  else [])
  {
    assert s.attempts + [] == s.attempts;
  }

  lemma {:induction false} AttemptsAreListens(cfg: Setup, clock: int, es: seq<Event>)
    ensures Run(cfg, Init(clock), es).attempts == ListensIn(cfg, clock, es)
    decreases |es|
  {
    if es != [] {
      AttemptsAreListens(cfg, clock, es[..|es| - 1]);
      StepAttempts(cfg, Run(cfg, Init(clock), es[..|es| - 1]), es[|es| - 1]);
    }
  }

  /** The first `k` listens opened, and the next failed with that very error. */
  predicate FailedAt(listens: seq<Option<string>>, k: nat, text: string) {
    |listens| == k + 1 && listens[k] == Some(text) && AllOpened(listens[..k])
  }

  /**
   Goroutines are started only after every listen opened. A listen that failed is the last one, its error is the
   one returned, and the listeners before it are closed; and such an error is returned for nothing else.
   */
  lemma FailedListenReported(cfg: Setup, clock: int, es: seq<Event>)
    ensures var s, listens := Run(cfg, Init(clock), es), ListensIn(cfg, clock, es);
      && (s.goroutines != [] ==> |listens| == cfg.Count() && AllOpened(listens))
      && (!AllOpened(listens) ==> s.phase.Returned? && s.goroutines == [] && Clear(s))
      && (forall k: nat, text: string | s.phase.Returned? && s.goroutines == [] ::
            s.errors == [ListenFailed(k, text)] <==> FailedAt(listens, k, text))
  {
    var s := Run(cfg, Init(clock), es);
    RunKept(cfg, clock, es);
    AttemptsAreListens(cfg, clock, es);
    if s.phase.Returned? {
      ReturnedClear(cfg, s);
      if s.goroutines == [] { FailureRead(cfg, s); }
    }
  }

  lemma FailureRead(cfg: Setup, s: State)
    requires SetupChecked(cfg, s) && s.phase.Returned? && s.goroutines == []
    ensures forall k: nat, text: string :: s.errors == [ListenFailed(k, text)] <==> FailedAt(s.attempts, k, text)
  {
    assert s.errors == [s.errors[0]];
    forall k: nat, text: string ensures s.errors == [ListenFailed(k, text)] <==> FailedAt(s.attempts, k, text) {
      if FailedAt(s.attempts, k, text) { assert s.attempts[k].Some?; }
    }
  }

  // ----- Each server is shut down once, and closed if and only if that failed

  function CallsOf(calls: seq<Call>, i: nat): seq<Call> {
    if calls == [] then []
    else
      var last := |calls| - 1;
      CallsOf(calls[..last], i) + (if calls[last].server == i then [calls[last]] else [])
  }

  /** The one Shutdown of a server, and the one Close if it failed. */
  predicate OneShutdown(calls: seq<Call>, i: nat) {
    || calls == [ShutdownCall(i, None)]
    || (|calls| == 2 && calls[0].ShutdownCall? && calls[0].server == i && calls[0].error.Some?
        && calls[1].CloseCall? && calls[1].server == i)
  }

  lemma {:induction false} CallsOfEach(calls: seq<Call>, k: nat, i: nat)
    requires CallsFor(calls, k)
    ensures if i < k then OneShutdown(CallsOf(calls, i), i) else CallsOf(calls, i) == []
    decreases k
  {
    if k > 0 {
      var last := |calls| - 1;
      if calls[last].ShutdownCall? {
        CallsOfEach(calls[..last], k - 1, i);
      } else {
        CallsOfEach(calls[..last][..last - 1], k - 1, i);
      }
    }
  }

  lemma ShutDownOnce(cfg: Setup, clock: int, es: seq<Event>, i: nat)
    ensures var s := Run(cfg, Init(clock), es);
      s.phase.Returned? && s.goroutines != [] && i < cfg.Count() ==> OneShutdown(CallsOf(s.calls, i), i)
  {
    var s := Run(cfg, Init(clock), es);
    RunKept(cfg, clock, es);
    if s.phase.Returned? && s.goroutines != [] { CallsOfEach(s.calls, s.stopping, i); }
  }

  // ----- The returned error

  /** The select took a clean stop that nobody had asked for. */
  predicate Unexpected(s: State, i: nat) { s.choice == ByResult(Message(i, Clean), false) }

  /** Whether a problem occurred, told from the servers' results and the outcomes of the calls alone. */
  predicate Occurred(s: State, p: Problem) {
    match p
    case ServeFailed(i, text) => i < |s.goroutines| && s.goroutines[i] == Sent(Failed(text))
    case ShutdownFailed(i, text) => ShutdownCall(i, Some(text)) in s.calls
    case CloseFailed(i, text) => CloseCall(i, Some(text)) in s.calls
    case StoppedUnexpectedly(i) => Unexpected(s, i)
    case _ => false
  }

  lemma {:induction false} TimesOf(calls: seq<Call>, c: Call)
    ensures Times(calls, c) == Times(CallsOf(calls, c.server), c)
  {
    if calls != [] {
      var last := |calls| - 1;
      TimesOf(calls[..last], c);
      assert calls == calls[..last] + [calls[last]];
      Counted(calls[..last], [calls[last]], c);
      Counted(CallsOf(calls[..last], c.server), if calls[last].server == c.server then [calls[last]] else [], c);
    }
  }

  lemma CallTimes(calls: seq<Call>, k: nat, c: Call)
    requires CallsFor(calls, k)
    ensures Times(calls, c) == if c in calls then 1 else 0
  {
    TimesOf(calls, c);
    CallsOfEach(calls, k, c.server);
    var own := CallsOf(calls, c.server);
    if |own| == 2 { assert own == [own[0]] + [own[1]]; }
    assert Times(calls, c) > 0 <==> c in calls;
  }

  lemma ProblemTimes(cfg: Setup, s: State, p: Problem)
    requires Inv(cfg, s) && s.phase.Returned? && s.goroutines != []
    ensures Times(s.errors, p) == if Occurred(s, p) then 1 else 0
  {
    ReturnedClear(cfg, s);
    match p
    case ShutdownFailed(i, text) => CallTimes(s.calls, s.stopping, ShutdownCall(i, Some(text)));
    case CloseFailed(i, text) => CallTimes(s.calls, s.stopping, CloseCall(i, Some(text)));
    case _ =>
  }

  /** The returned error holds each problem that occurred once and nothing else. */
  lemma ErrorExact(cfg: Setup, clock: int, es: seq<Event>, p: Problem)
    ensures var s := Run(cfg, Init(clock), es);
      s.phase.Returned? && s.goroutines != [] ==> Times(s.errors, p) == if Occurred(s, p) then 1 else 0
  {
    RunKept(cfg, clock, es);
    var s := Run(cfg, Init(clock), es);
    if s.phase.Returned? && s.goroutines != [] { ProblemTimes(cfg, s, p); }
  }

  /** Nil is returned if and only if nothing went wrong. */
  lemma NilIffNothingOccurred(cfg: Setup, clock: int, es: seq<Event>)
    ensures var s := Run(cfg, Init(clock), es);
      s.phase.Returned? ==> (s.errors == [] <==> s.goroutines != [] && forall p: Problem :: !Occurred(s, p))
  {
    var s := Run(cfg, Init(clock), es);
    RunKept(cfg, clock, es);
    if s.phase.Returned? && s.goroutines != [] {
      if s.errors == [] {
        forall p: Problem ensures !Occurred(s, p) { ProblemTimes(cfg, s, p); }
      } else {
        ProblemTimes(cfg, s, s.errors[0]);
        assert multiset(s.errors)[s.errors[0]] > 0;
        assert Occurred(s, s.errors[0]);
      }
    }
  }

  /**
   Two returns with the same results and calls report the same problems, whichever branches their selects
   took, if and only if they agree on an unexpected stop.
   */
  lemma BranchIndependent(cfg: Setup, s: State, t: State)
    requires Inv(cfg, s) && s.phase.Returned? && s.goroutines != []
    requires Inv(cfg, t) && t.phase.Returned? && t.goroutines == s.goroutines && t.calls == s.calls
    ensures multiset(s.errors) == multiset(t.errors) <==> forall i: nat :: Unexpected(s, i) <==> Unexpected(t, i)
  {
    forall p: Problem ensures Times(s.errors, p) == if Occurred(s, p) then 1 else 0 { ProblemTimes(cfg, s, p); }
    forall p: Problem ensures Times(t.errors, p) == if Occurred(t, p) then 1 else 0 { ProblemTimes(cfg, t, p); }
    if forall i: nat :: Unexpected(s, i) <==> Unexpected(t, i) {
      forall p: Problem ensures multiset(s.errors)[p] == multiset(t.errors)[p] {
        assert Times(s.errors, p) == Times(t.errors, p);
      }
      assert multiset(s.errors) == multiset(t.errors);
    }
    if multiset(s.errors) == multiset(t.errors) {
      forall i: nat ensures Unexpected(s, i) <==> Unexpected(t, i) {
        assert Times(s.errors, StoppedUnexpectedly(i)) == Times(t.errors, StoppedUnexpectedly(i));
      }
    }
  }

  // ----- Time

  /** However many servers there are, their shutdowns share one budget. */
  lemma OneBudget(cfg: Setup, clock: int, es: seq<Event>)
    ensures var s := Run(cfg, Init(clock), es);
      s.phase.Returned? && s.goroutines != [] ==> 0 <= s.ended - s.begun <= Max(0, cfg.timeout)
  {
    RunKept(cfg, clock, es);
  }

  // ----- It returns

  function GoroutineWork(gs: seq<Goroutine>): nat {
    if gs == [] then 0
    else
      var g := gs[|gs| - 1];
      GoroutineWork(gs[..|gs| - 1]) + (if g.Spawned? then 3 else if g.Serving? then 2 else if g.Sending? then 1 else 0)
  }

  /** The steps the calling goroutine still has to take. */
  function CallerWork(cfg: Setup, s: State): int {
    var n := cfg.Count();
    var drain := n - |s.received| + 1;
    match s.phase
    case Listening => n - |s.sockets| + 9 * n + 2
    case Starting => 5 * (n - |s.goroutines|) + 4 * n + 2
    case Selecting => 3 * n + 1 + drain
    case Stopping => 3 * (n - s.stopping) + drain
    case Waiting => 3 * (n - s.stopping) + 2 + drain
    case Closing => 3 * (n - s.stopping) + 1 + drain
    case Draining => drain
    case Returned => 0
  }

  function Work(cfg: Setup, s: State): int { CallerWork(cfg, s) + GoroutineWork(s.goroutines) }

  /** A goroutine's life only goes forward. */
  predicate Advances(g: Goroutine, h: Goroutine) {
    g != h && (g.Spawned? || (g.Serving? && !h.Spawned?) || (g.Sending? && h.Sent?))
  }

  lemma {:induction false} GoroutineWorkUpdate(gs: seq<Goroutine>, i: nat, g: Goroutine)
    requires i < |gs|
    requires Advances(gs[i], g)
    ensures GoroutineWork(gs[i := g]) < GoroutineWork(gs)
  {
    var last := |gs| - 1;
    if i == last {
      assert gs[i := g][..last] == gs[..last];
    } else {
      assert gs[i := g][..last] == gs[..last][i := g];
      GoroutineWorkUpdate(gs[..last], i, g);
    }
  }

  lemma SetupWorkDrops(cfg: Setup, s: State, e: Event)
    requires Sizes(cfg, s) && Enabled(cfg, s, e) && (e.Listen? || e.Start?)
    ensures CallerWork(cfg, Step(cfg, s, e)) < CallerWork(cfg, s) - (if e.Start? then 3 else 0)
    ensures Step(cfg, s, e).goroutines == s.goroutines + (if e.Start? then [Spawned] else [])
  {
  }

  lemma ShutdownWorkDrops(cfg: Setup, s: State, e: Event)
    requires Sizes(cfg, s) && Enabled(cfg, s, e) && (e.BeginShutdown? || e.EndShutdown? || e.CloseServer?)
    ensures CallerWork(cfg, Step(cfg, s, e)) < CallerWork(cfg, s)
    ensures Step(cfg, s, e).goroutines == s.goroutines
  {
  }

  lemma ChannelWorkDrops(cfg: Setup, s: State, e: Event)
    requires Sizes(cfg, s) && Enabled(cfg, s, e) && (e.TakeFirst? || e.TakeCancel? || e.Drain? || e.Finish?)
    ensures CallerWork(cfg, Step(cfg, s, e)) < CallerWork(cfg, s)
    ensures Step(cfg, s, e).goroutines == s.goroutines
  {
  }

  lemma CallerWorkDrops(cfg: Setup, s: State, e: Event)
    requires Sizes(cfg, s) && Enabled(cfg, s, e) && !Outside(e) && !OfGoroutine(e)
    ensures CallerWork(cfg, Step(cfg, s, e)) < CallerWork(cfg, s) - (if e.Start? then 3 else 0)
    ensures Step(cfg, s, e).goroutines == s.goroutines + (if e.Start? then [Spawned] else [])
  {
    if e.Listen? || e.Start? {
      SetupWorkDrops(cfg, s, e);
    } else if e.BeginShutdown? || e.EndShutdown? || e.CloseServer? {
      ShutdownWorkDrops(cfg, s, e);
    } else {
      ChannelWorkDrops(cfg, s, e);
    }
  }

  lemma GoroutineSteps(cfg: Setup, s: State, e: Event)
    requires Sizes(cfg, s) && Enabled(cfg, s, e) && OfGoroutine(e)
    ensures var t := Step(cfg, s, e);
      && CallerWork(cfg, t) == CallerWork(cfg, s)
      && e.goroutine < |s.goroutines| == |t.goroutines|
      && t.goroutines == s.goroutines[e.goroutine := t.goroutines[e.goroutine]]
      && Advances(s.goroutines[e.goroutine], t.goroutines[e.goroutine])
  {
  }

  /** Every step of the protocol brings the return closer. */
  lemma WorkDrops(cfg: Setup, s: State, e: Event)
    requires Sizes(cfg, s) && Enabled(cfg, s, e)
    ensures if Outside(e) then Work(cfg, Step(cfg, s, e)) == Work(cfg, s) else Work(cfg, Step(cfg, s, e)) < Work(cfg, s)
  {
    var t := Step(cfg, s, e);
    if Outside(e) {
    } else if OfGoroutine(e) {
      GoroutineSteps(cfg, s, e);
      GoroutineWorkUpdate(s.goroutines, e.goroutine, t.goroutines[e.goroutine]);
    } else {
      CallerWorkDrops(cfg, s, e);
      if e.Start? { assert t.goroutines[..|t.goroutines| - 1] == s.goroutines; }
    }
  }

  /** The protocol's own steps in a run. */
  function Steps(cfg: Setup, s: State, es: seq<Event>): nat
    decreases |es|
  {
    if es == [] then 0
    else
      var before, e := es[..|es| - 1], es[|es| - 1];
      Steps(cfg, s, before) + (if Enabled(cfg, Run(cfg, s, before), e) && !Outside(e) then 1 else 0)
  }

  lemma WorkBounded(cfg: Setup, s: State)
    requires Sizes(cfg, s)
    ensures Work(cfg, s) >= 0
  {
  }

  lemma {:induction false} StepsWithin(cfg: Setup, clock: int, es: seq<Event>)
    ensures Steps(cfg, Init(clock), es) + Work(cfg, Run(cfg, Init(clock), es)) <= 10 * cfg.Count() + 2
    decreases |es|
  {
    if es != [] {
      var before, e := es[..|es| - 1], es[|es| - 1];
      var s := Run(cfg, Init(clock), before);
      StepsWithin(cfg, clock, before);
      RunKept(cfg, clock, before);
      if Enabled(cfg, s, e) { WorkDrops(cfg, s, e); }
    }
  }

  /** No run takes more than ten steps a server and two. */
  lemma StepsBounded(cfg: Setup, clock: int, es: seq<Event>)
    ensures Steps(cfg, Init(clock), es) <= 10 * cfg.Count() + 2
  {
    StepsWithin(cfg, clock, es);
    RunKept(cfg, clock, es);
    WorkBounded(cfg, Run(cfg, Init(clock), es));
  }

  /** Blocked in the select: nobody has cancelled, and every server is serving. */
  predicate Idle(s: State) {
    && s.phase.Selecting? && !s.cancelled && s.channel == []
    && forall i | 0 <= i < |s.goroutines| :: s.goroutines[i].Serving? || s.goroutines[i].Sent?
  }

  /** The next step the protocol takes by itself: Serve returns of itself only once its server is shutting down. */
  function Next(cfg: Setup, s: State): Option<Event> {
    match s.phase
    case Returned => None
    case Listening => Some(Listen(None))
    case Starting => Some(Start)
    case Selecting => if s.channel != [] then Some(TakeFirst) else if s.cancelled then Some(TakeCancel) else NextOf(s, 0)
    case Stopping => Some(BeginShutdown)
    case Waiting => Some(EndShutdown(None, s.clock))
    case Closing => Some(CloseServer(None))
    case Draining =>
      if |s.received| >= cfg.Count() then Some(Finish) else if s.channel != [] then Some(Drain) else NextOf(s, 0)
  }

  /** The next step of the first goroutine that has one. */
  function NextOf(s: State, i: nat): Option<Event>
    decreases |s.goroutines| - i
  {
    if i >= |s.goroutines| then None
    else
      match s.goroutines[i]
      case Spawned => Some(Enter(i))
      case Serving => if i < s.stopping then Some(Stop(i)) else NextOf(s, i + 1)
      case Sending(_) => Some(Send(i))
      case Sent(_) => NextOf(s, i + 1)
  }

  lemma {:induction false} NextOfNone(s: State, i: nat)
    ensures NextOf(s, i).None? <==>
      forall j | i <= j < |s.goroutines| :: (s.goroutines[j].Serving? && j >= s.stopping) || s.goroutines[j].Sent?
    ensures NextOf(s, i).Some? ==>
      var e := NextOf(s, i).value;
      && (e.Enter? || e.Stop? || e.Send?)
      && i <= e.goroutine < |s.goroutines|
      && (e.Enter? ==> s.goroutines[e.goroutine].Spawned?)
      && (e.Stop? ==> s.goroutines[e.goroutine].Serving? && e.goroutine < s.stopping)
      && (e.Send? ==> s.goroutines[e.goroutine].Sending?)
    decreases |s.goroutines| - i
  {
    if i < |s.goroutines| { NextOfNone(s, i + 1); }
  }

  /** The protocol is stuck only at its return, or in a select with nothing to select. */
  lemma NeverStuck(cfg: Setup, clock: int, es: seq<Event>)
    ensures var s := Run(cfg, Init(clock), es);
      && (Next(cfg, s).None? <==> s.phase.Returned? || Idle(s))
      && (Next(cfg, s).Some? ==> Enabled(cfg, s, Next(cfg, s).value) && !Outside(Next(cfg, s).value))
  {
    RunKept(cfg, clock, es);
    NextEnabled(cfg, Run(cfg, Init(clock), es));
  }

  lemma NextEnabled(cfg: Setup, s: State)
    requires Inv(cfg, s)
    ensures Next(cfg, s).None? <==> s.phase.Returned? || Idle(s)
    ensures Next(cfg, s).Some? ==> Enabled(cfg, s, Next(cfg, s).value) && !Outside(Next(cfg, s).value)
  {
    NextOfNone(s, 0);
    CountSentBound(s.goroutines);
  }

  /** The state that events lead to, taken from the front. */
  function After(cfg: Setup, s: State, es: seq<Event>): State
    decreases |es|
  {
    if es == [] then s else After(cfg, Step(cfg, s, es[0]), es[1..])
  }

  lemma {:induction false} RunAfter(cfg: Setup, s: State, past: seq<Event>, es: seq<Event>)
    ensures Run(cfg, s, past + es) == After(cfg, Run(cfg, s, past), es)
    decreases |es|
  {
    if es == [] {
      assert past + es == past;
    } else {
      RunMore(cfg, s, past, es[0]);
      RunAfter(cfg, s, past + [es[0]], es[1..]);
      assert past + es == past + [es[0]] + es[1..];
    }
  }

  /** Once the context is cancelled the protocol returns by its own steps, wherever the run has come. */
  lemma CancelledReturns(cfg: Setup, clock: int, past: seq<Event>) returns (es: seq<Event>)
    requires Run(cfg, Init(clock), past).cancelled
    ensures Run(cfg, Init(clock), past + es).phase.Returned?
    ensures |es| <= Work(cfg, Run(cfg, Init(clock), past)) && forall e | e in es :: !Outside(e)
  {
    RunKept(cfg, clock, past);
    es := ReturnsFrom(cfg, Run(cfg, Init(clock), past));
    RunAfter(cfg, Init(clock), past, es);
  }

  lemma {:induction false} ReturnsFrom(cfg: Setup, s: State) returns (es: seq<Event>)
    requires Inv(cfg, s) && s.cancelled
    ensures After(cfg, s, es).phase.Returned? && |es| <= Work(cfg, s)
    ensures forall e | e in es :: !Outside(e)
    decreases Work(cfg, s)
  {
    WorkBounded(cfg, s);
    if s.phase.Returned? {
      es := [];
    } else {
      var e := NextStep(cfg, s);
      StepKept(cfg, s, e);
      var rest := ReturnsFrom(cfg, Step(cfg, s, e));
      es := [e] + rest;
      assert es[1..] == rest;
    }
  }

  lemma NextStep(cfg: Setup, s: State) returns (e: Event)
    requires Inv(cfg, s) && s.cancelled && !s.phase.Returned?
    ensures !Outside(e) && Step(cfg, s, e).cancelled && Work(cfg, Step(cfg, s, e)) < Work(cfg, s)
  {
    NextEnabled(cfg, s);
    e := Next(cfg, s).value;
    WorkDrops(cfg, s, e);
    CancelKept(cfg, s, e);
  }

  lemma CancelKept(cfg: Setup, s: State, e: Event)
    ensures s.cancelled ==> Step(cfg, s, e).cancelled
  {
  }

  lemma RunMore(cfg: Setup, s: State, es: seq<Event>, e: Event)
    ensures Run(cfg, s, es + [e]) == Step(cfg, Run(cfg, s, es), e)
  {
    assert (es + [e])[..|es|] == es;
  }
}
