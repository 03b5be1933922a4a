/**
 The telemetry middleware with any number of concurrent requests: the in-flight gauge, the request counter
 and the duration histogram (internal/telemetry/http.go, lines 86-149, and metrics.go, lines 81-96). Each
 metric update is a step of its own, so every interleaving of requests is covered; the routes are those of
 the control-plane API.
 */
module Requests {
  import opened Wrappers
  import opened Recorder
  import Routing

  // ----- Labels

  const METHODS := {"CONNECT", "DELETE", "GET", "HEAD", "OPTIONS", "PATCH", "POST", "PUT", "TRACE", "OTHER"}

  function NormalizedMethod(verb: string): string {
    if verb in METHODS then verb else "OTHER"
  }

  /** Each of the nine methods keeps its own label, and no other verb gets one of theirs. */
  lemma MethodLabels(verb: string)
    ensures NormalizedMethod(verb)
            == if verb == "CONNECT" || verb == "DELETE" || verb == "GET" || verb == "HEAD" || verb == "OPTIONS"
                  || verb == "PATCH" || verb == "POST" || verb == "PUT" || verb == "TRACE" then verb
               else "OTHER"
  {
  }

  const CLASSES := {"2xx", "3xx", "4xx", "5xx", "6xx", "7xx", "8xx", "9xx"}

  /** strconv.Itoa(code/100) + "xx" for a code of three digits. */
  function StatusClass(code: int): string
    requires 0 <= code <= 999
  {
    ["0123456789"[code / 100]] + "xx"
  }

  lemma ClassBounded(code: int)
    requires 200 <= code <= 999
    ensures StatusClass(code) in CLASSES
  {
    assert 2 <= code / 100 <= 9;
    assert ['2'] + "xx" == "2xx" && ['3'] + "xx" == "3xx" && ['4'] + "xx" == "4xx" && ['5'] + "xx" == "5xx";
    assert ['6'] + "xx" == "6xx" && ['7'] + "xx" == "7xx" && ['8'] + "xx" == "8xx" && ['9'] + "xx" == "9xx";
  }

  /** The label is a decimal digit and "xx", and the code is among that digit's hundred. */
  predicate LabelsCode(label_: string, code: int) {
    && |label_| == 3 && '0' <= label_[0] <= '9' && label_[1] == 'x' && label_[2] == 'x'
    && Hundreds(label_) <= code < Hundreds(label_) + 100
  }

  /** The value of the digit, times 100. */
  function Hundreds(label_: string): int
    requires label_ != ""
  {
    (label_[0] as int - '0' as int) * 100
  }

  /** A digit's label. */
  function DigitLabel(digit: nat): string
    requires digit <= 9
  {
    [(digit + '0' as int) as char, 'x', 'x']
  }

  lemma ClassLabels(code: int)
    requires 0 <= code <= 999
    ensures LabelsCode(StatusClass(code), code)
  {
    DigitChar(code / 100);
    assert StatusClass(code)[0] == "0123456789"[code / 100];
  }

  lemma DigitChar(d: int)
    requires 0 <= d <= 9
    ensures "0123456789"[d] as int == d + '0' as int
  {
    var s := "0123456789";
    if d <= 4 {
      assert s[0] == '0' && s[1] == '1' && s[2] == '2' && s[3] == '3' && s[4] == '4';
    } else {
      assert s[5] == '5' && s[6] == '6' && s[7] == '7' && s[8] == '8' && s[9] == '9';
    }
  }

  /** A code has a digit's label exactly when it is among that digit's hundred. */
  lemma ClassIff(code: int, digit: nat)
    requires 0 <= code <= 999 && digit <= 9
    ensures StatusClass(code) == DigitLabel(digit) <==> 100 * digit <= code < 100 * digit + 100
  {
    ClassLabels(code);
    var label_ := StatusClass(code);
    assert label_ == [label_[0], label_[1], label_[2]];
  }

  /** Different hundreds have different labels. */
  lemma ClassInjective(a: int, b: int)
    requires 0 <= a <= 999 && 0 <= b <= 999 && StatusClass(a) == StatusClass(b)
    ensures a / 100 == b / 100
  {
    ClassLabels(a);
    ClassLabels(b);
  }

  // ----- State

  datatype Pair = Pair(method_: string, route: string)

  datatype Triple = Triple(pair: Pair, class_: string)

  /**
   A request on its way: refused for want of an identifier; in its handler; then the deferred function has
   read the status, lowered the gauge, raised the counter, and fed the histogram.
   */
  datatype Phase = Refused | Open | Leaving | Lowered | Added | Done

  /**
   `flushed` says whether the committed header has left the server's buffer; `status` is the recorder's field,
   `recorded` the status its deferred reader took, `sent` the client's.
   */
  datatype Request = Request(
    pair: Pair, phase: Phase, wire: Wire, flushed: bool, status: int, recorded: int, sent: Option<int>, panicked: bool) {
    function Label(): Triple
      requires 0 <= recorded <= 999
    {
      Triple(pair, StatusClass(recorded))
    }
  }

  datatype State = State(requests: seq<Request>, gauge: map<Pair, int>, counter: multiset<Triple>, histogram: multiset<Triple>)

  const EMPTY := State([], map[], multiset{}, multiset{})

  // ----- Steps

  datatype Event =
    | Arrive(verb: string, path: string, identified: bool)
    | Reply(request: nat, call: Call)
    | Flush(request: nat)
    | Leave(request: nat, panics: bool)
    | Lower(request: nat)
    | Raise(request: nat)
    | Observe(request: nat)

  function PairOf(verb: string, path: string): Pair {
    Pair(NormalizedMethod(verb), Routing.SafeRoute(Routing.NormalizeRoute(path)))
  }

  function GaugeOf(gauge: map<Pair, int>, p: Pair): int { if p in gauge then gauge[p] else 0 }

  function Bump(gauge: map<Pair, int>, p: Pair, by_: int): map<Pair, int> { gauge[p := GaugeOf(gauge, p) + by_] }

  predicate At(s: State, i: nat) { i < |s.requests| }

  predicate Enabled(s: State, e: Event) {
    match e
    case Arrive(_, _, _) => true
    case Reply(i, call) => At(s, i) && s.requests[i].phase.Open? && Final(call)
    // The server's buffer is full: what is committed goes out.
    case Flush(i) => At(s, i) && s.requests[i].phase.Open? && s.requests[i].wire.committed.Some?
    case Leave(i, _) => At(s, i) && s.requests[i].phase.Open?
    case Lower(i) => At(s, i) && s.requests[i].phase.Leaving?
    case Raise(i) => At(s, i) && s.requests[i].phase.Lowered?
    case Observe(i) => At(s, i) && s.requests[i].phase.Added?
  }

  function StatusCode(status: int): int { if status == 0 then 200 else status }

  /** The recorder's status after a call. */
  function Record(status: int, c: Call): int {
    if status != 0 then status else match c case WriteHeader(code) => code case Write(_) => 200
  }

  /**
   What the client gets. A handler that returns has its response finished, an unwritten one as 200. A panic
   closes the connection on whatever is still in the buffer.
   */
  function Sent(w: Wire, flushed: bool, panics: bool): Option<int> {
    if panics && !flushed then None else if w.committed.Some? then w.committed else Some(200)
  }

  function Update(s: State, i: nat, r: Request): State
    requires At(s, i)
  {
    s.(requests := s.requests[i := r])
  }

  /** One step of the request. */
  function Advance(r: Request, e: Event): Request {
    match e
    case Arrive(_, _, _) => r
    case Reply(_, call) => r.(wire := OnWire(r.wire, call), status := Record(r.status, call))
    case Flush(_) => r.(flushed := true)
    case Leave(_, panics) =>
      r.(phase := Leaving, recorded := StatusCode(r.status), sent := Sent(r.wire, r.flushed, panics), panicked := panics)
    case Lower(_) => r.(phase := Lowered)
    case Raise(_) => r.(phase := Added)
    case Observe(_) => r.(phase := Done)
  }

  function Arrival(verb: string, path: string, identified: bool): Request {
    Request(PairOf(verb, path), if identified then Open else Refused, UNWRITTEN, false, 0, 200, None, false)
  }

  function Step(s: State, e: Event): State {
    if !Enabled(s, e) then s
    else if e.Arrive? then
      s.(requests := s.requests + [Arrival(e.verb, e.path, e.identified)],
         gauge := if e.identified then Bump(s.gauge, PairOf(e.verb, e.path), 1) else s.gauge)
    else
      var r := s.requests[e.request];
      var t := Update(s, e.request, Advance(r, e));
      if e.Lower? then t.(gauge := Bump(s.gauge, r.pair, -1))
      else if e.Raise? && 0 <= r.recorded <= 999 then t.(counter := s.counter + multiset{r.Label()})
      else if e.Observe? && 0 <= r.recorded <= 999 then t.(histogram := s.histogram + multiset{r.Label()})
      else t
  }

  function Run(es: seq<Event>): State
    decreases |es|
  {
    if es == [] then EMPTY else Step(Run(es[..|es| - 1]), es[|es| - 1])
  }

  // ----- Counting requests

  function Count(rs: seq<Request>, p: Request -> bool): nat {
    if rs == [] then 0 else Count(rs[..|rs| - 1], p) + Bit(p(rs[|rs| - 1]))
  }

  lemma {:induction false} CountUpdate(rs: seq<Request>, i: nat, r: Request, p: Request -> bool)
    requires i < |rs|
    ensures Count(rs[i := r], p) == Count(rs, p) - Bit(p(rs[i])) + Bit(p(r))
  {
    var last := |rs| - 1;
    if i == last {
      assert rs[i := r][..last] == rs[..last];
    } else {
      assert rs[i := r][..last] == rs[..last][i := r];
      CountUpdate(rs[..last], i, r, p);
    }
  }

  lemma CountAppend(rs: seq<Request>, r: Request, p: Request -> bool)
    ensures Count(rs + [r], p) == Count(rs, p) + Bit(p(r))
  {
    assert (rs + [r])[..|rs|] == rs;
  }

  /** A request the gauge counts: it has been let in, and its deferred function has not lowered the gauge. */
  predicate IsLive(r: Request) { r.phase.Open? || r.phase.Leaving? }

  function LiveAt(p: Pair): Request -> bool { (r: Request) => IsLive(r) && r.pair == p }

  predicate Labelled(r: Request, t: Triple) { 0 <= r.recorded <= 999 && r.Label() == t }

  function CountedAs(t: Triple): Request -> bool {
    (r: Request) => (r.phase.Added? || r.phase.Done?) && Labelled(r, t)
  }

  function ObservedAs(t: Triple): Request -> bool { (r: Request) => r.phase.Done? && Labelled(r, t) }

  /** Between its counter and its histogram. */
  function BetweenAs(t: Triple): Request -> bool { (r: Request) => r.phase.Added? && Labelled(r, t) }

  // ----- The invariant

  ghost predicate Exact(s: State) {
    && (forall p: Pair :: GaugeOf(s.gauge, p) == Count(s.requests, LiveAt(p)))
    && (forall t: Triple :: s.counter[t] == Count(s.requests, CountedAs(t)))
    && (forall t: Triple :: s.histogram[t] == Count(s.requests, ObservedAs(t)))
  }

  /** The recorder agrees with the wire while the handler runs, and with the client's response afterwards. */
  predicate Honest(r: Request) {
    && 200 <= r.recorded <= 999
    && (r.status == 0 <==> r.wire.committed.None?)
    && (r.status != 0 ==> r.wire.committed == Some(r.status) && 200 <= r.status <= 999)
    && (r.phase !in {Refused, Open} ==> r.recorded == StatusCode(r.status) && r.sent == Sent(r.wire, r.flushed, r.panicked))
    && r.pair.method_ in METHODS && r.pair.route in Routing.ROUTES
  }

  ghost predicate AllHonest(s: State) { forall i | 0 <= i < |s.requests| :: Honest(s.requests[i]) }

  lemma ArrivalHonest(verb: string, path: string, identified: bool)
    ensures Honest(Arrival(verb, path, identified))
  {
    Routing.RouteLabels(path);
  }

  lemma AdvanceHonest(r: Request, e: Event)
    requires Honest(r) && !e.Arrive? && ((e.Reply? || e.Flush? || e.Leave?) ==> r.phase.Open?) && (e.Reply? ==> Final(e.call))
    requires e.Lower? ==> r.phase.Leaving?
    requires e.Raise? ==> r.phase.Lowered?
    requires e.Observe? ==> r.phase.Added?
    ensures Honest(Advance(r, e))
  {
  }

  lemma HonestKept(s: State, e: Event)
    requires AllHonest(s)
    ensures AllHonest(Step(s, e))
  {
    if Enabled(s, e) {
      if e.Arrive? {
        ArrivalHonest(e.verb, e.path, e.identified);
      } else {
        AdvanceHonest(s.requests[e.request], e);
      }
    }
  }

  lemma GaugeKept(s: State, e: Event, p: Pair)
    requires GaugeOf(s.gauge, p) == Count(s.requests, LiveAt(p))
    ensures GaugeOf(Step(s, e).gauge, p) == Count(Step(s, e).requests, LiveAt(p))
  {
    if Enabled(s, e) {
      if e.Arrive? {
        CountAppend(s.requests, Arrival(e.verb, e.path, e.identified), LiveAt(p));
      } else {
        CountUpdate(s.requests, e.request, Advance(s.requests[e.request], e), LiveAt(p));
      }
    }
  }

  lemma CounterKept(s: State, e: Event, t: Triple)
    requires AllHonest(s) && s.counter[t] == Count(s.requests, CountedAs(t))
    ensures Step(s, e).counter[t] == Count(Step(s, e).requests, CountedAs(t))
  {
    if Enabled(s, e) {
      if e.Arrive? {
        CountAppend(s.requests, Arrival(e.verb, e.path, e.identified), CountedAs(t));
      } else {
        CountUpdate(s.requests, e.request, Advance(s.requests[e.request], e), CountedAs(t));
      }
    }
  }

  lemma HistogramKept(s: State, e: Event, t: Triple)
    requires AllHonest(s) && s.histogram[t] == Count(s.requests, ObservedAs(t))
    ensures Step(s, e).histogram[t] == Count(Step(s, e).requests, ObservedAs(t))
  {
    if Enabled(s, e) {
      if e.Arrive? {
        CountAppend(s.requests, Arrival(e.verb, e.path, e.identified), ObservedAs(t));
      } else {
        CountUpdate(s.requests, e.request, Advance(s.requests[e.request], e), ObservedAs(t));
      }
    }
  }

  lemma StepKept(s: State, e: Event)
    requires AllHonest(s) && Exact(s)
    ensures AllHonest(Step(s, e)) && Exact(Step(s, e))
  {
    HonestKept(s, e);
    forall p: Pair ensures GaugeOf(Step(s, e).gauge, p) == Count(Step(s, e).requests, LiveAt(p)) { GaugeKept(s, e, p); }
    forall t: Triple ensures Step(s, e).counter[t] == Count(Step(s, e).requests, CountedAs(t)) { CounterKept(s, e, t); }
    forall t: Triple ensures Step(s, e).histogram[t] == Count(Step(s, e).requests, ObservedAs(t)) { HistogramKept(s, e, t); }
  }

  lemma {:induction false} RunKept(es: seq<Event>)
    ensures AllHonest(Run(es)) && Exact(Run(es))
    decreases |es|
  {
    if es != [] {
      RunKept(es[..|es| - 1]);
      StepKept(Run(es[..|es| - 1]), es[|es| - 1]);
    }
  }

  // ----- The metrics, in every interleaving

  /** The in-flight gauge is the number of live requests of its method and route. */
  lemma GaugeIsLive(es: seq<Event>, p: Pair)
    ensures GaugeOf(Run(es).gauge, p) == Count(Run(es).requests, LiveAt(p))
  {
    RunKept(es);
  }

  /** The counter is ahead of the histogram by the requests between the two. */
  lemma HistogramFollows(es: seq<Event>, t: Triple)
    ensures Run(es).counter[t] == Run(es).histogram[t] + Count(Run(es).requests, BetweenAs(t))
  {
    RunKept(es);
    CountSplits(Run(es).requests, CountedAs(t), ObservedAs(t), BetweenAs(t));
  }

  lemma {:induction false} CountSplits(rs: seq<Request>, p: Request -> bool, q: Request -> bool, r: Request -> bool)
    requires forall x :: p(x) <==> q(x) || r(x)
    requires forall x :: !(q(x) && r(x))
    ensures Count(rs, p) == Count(rs, q) + Count(rs, r)
  {
    if rs != [] { CountSplits(rs[..|rs| - 1], p, q, r); }
  }

  function IsAdmitted(r: Request): bool { !r.phase.Refused? }

  function IsCounted(r: Request): bool { r.phase.Added? || r.phase.Done? }

  function IsLowered(r: Request): bool { r.phase.Lowered? }

  lemma TotalKept(s: State, e: Event)
    requires AllHonest(s) && |s.counter| == Count(s.requests, IsCounted)
    ensures |Step(s, e).counter| == Count(Step(s, e).requests, IsCounted)
  {
    if Enabled(s, e) {
      if e.Arrive? {
        CountAppend(s.requests, Arrival(e.verb, e.path, e.identified), IsCounted);
      } else {
        CountUpdate(s.requests, e.request, Advance(s.requests[e.request], e), IsCounted);
      }
    }
  }

  /** Every request that was let in is live, or counted once, or on its way from the one to the other. */
  lemma {:induction false} Conserved(es: seq<Event>)
    ensures var s := Run(es);
      && |s.counter| == Count(s.requests, IsCounted)
      && Count(s.requests, IsAdmitted) == Count(s.requests, IsLive) + Count(s.requests, IsLowered) + |s.counter|
    decreases |es|
  {
    if es != [] {
      Conserved(es[..|es| - 1]);
      RunKept(es[..|es| - 1]);
      TotalKept(Run(es[..|es| - 1]), es[|es| - 1]);
    }
    var rs := Run(es).requests;
    CountSplits(rs, r => IsLive(r) || IsLowered(r), IsLive, IsLowered);
    CountSplits(rs, IsAdmitted, r => IsLive(r) || IsLowered(r), IsCounted);
  }

  predicate Settled(s: State) { forall i | 0 <= i < |s.requests| :: s.requests[i].phase in {Refused, Done} }

  lemma {:induction false} CountNone(rs: seq<Request>, p: Request -> bool)
    requires forall i | 0 <= i < |rs| :: !p(rs[i])
    ensures Count(rs, p) == 0
  {
    if rs != [] { CountNone(rs[..|rs| - 1], p); }
  }

  /** Once no request is on its way, nothing is in flight and the histogram has caught up. */
  lemma AtRest(es: seq<Event>)
    requires Settled(Run(es))
    ensures forall p: Pair :: GaugeOf(Run(es).gauge, p) == 0
    ensures Run(es).counter == Run(es).histogram
    ensures |Run(es).counter| == Count(Run(es).requests, IsAdmitted)
  {
    var s := Run(es);
    forall p: Pair ensures GaugeOf(s.gauge, p) == 0 {
      GaugeIsLive(es, p);
      CountNone(s.requests, LiveAt(p));
    }
    forall t: Triple ensures s.counter[t] == s.histogram[t] {
      HistogramFollows(es, t);
      CountNone(s.requests, BetweenAs(t));
    }
    Conserved(es);
    CountNone(s.requests, IsLive);
    CountNone(s.requests, IsLowered);
  }

  lemma {:induction false} CountSome(rs: seq<Request>, p: Request -> bool) returns (i: nat)
    requires Count(rs, p) > 0
    ensures i < |rs| && p(rs[i])
  {
    if p(rs[|rs| - 1]) {
      i := |rs| - 1;
    } else {
      i := CountSome(rs[..|rs| - 1], p);
    }
  }

  /** However many requests and whatever their paths, the label sets are these: 10 methods, 6 routes, 8 classes. */
  lemma LabelsBounded(es: seq<Event>, t: Triple)
    requires t in Run(es).counter
    ensures t.pair.method_ in METHODS && t.pair.route in Routing.ROUTES && t.class_ in CLASSES
  {
    RunKept(es);
    var i := CountSome(Run(es).requests, CountedAs(t));
    ClassBounded(Run(es).requests[i].recorded);
  }

  /** The recorded status is the client's, unless the handler panicked while its response was still in the buffer. */
  lemma RecordedIsSent(es: seq<Event>, i: nat)
    requires i < |Run(es).requests| && Run(es).requests[i].phase !in {Refused, Open}
    ensures var r := Run(es).requests[i];
      && (r.sent == Some(r.recorded) <==> !(r.panicked && !r.flushed))
      && (r.sent != Some(r.recorded) ==> r.sent == None)
  {
    RunKept(es);
    assert Honest(Run(es).requests[i]);
  }

  /** The requests of that method and route that are counted, recorded with a status in the digit's hundred. */
  function CountedIn(p: Pair, digit: nat): Request -> bool {
    (r: Request) => IsCounted(r) && r.pair == p && 100 * digit <= r.recorded < 100 * digit + 100
  }

  function ObservedIn(p: Pair, digit: nat): Request -> bool {
    (r: Request) => r.phase.Done? && r.pair == p && 100 * digit <= r.recorded < 100 * digit + 100
  }

  lemma {:induction false} CountSame(rs: seq<Request>, p: Request -> bool, q: Request -> bool)
    requires forall i | 0 <= i < |rs| :: p(rs[i]) == q(rs[i])
    ensures Count(rs, p) == Count(rs, q)
  {
    if rs != [] { CountSame(rs[..|rs| - 1], p, q); }
  }

  /**
   What is counted as "4xx" is what was recorded from 400 to 499, and so for every class: by method and route,
   the counter and the histogram of a class are the finished requests of its hundred.
   */
  lemma ClassCounts(es: seq<Event>, p: Pair, digit: nat)
    requires digit <= 9
    ensures var s, t := Run(es), Triple(p, DigitLabel(digit));
      && s.counter[t] == Count(s.requests, CountedIn(p, digit))
      && s.histogram[t] == Count(s.requests, ObservedIn(p, digit))
  {
    var s, t := Run(es), Triple(p, DigitLabel(digit));
    RunKept(es);
    forall i | 0 <= i < |s.requests|
      ensures CountedAs(t)(s.requests[i]) == CountedIn(p, digit)(s.requests[i])
      ensures ObservedAs(t)(s.requests[i]) == ObservedIn(p, digit)(s.requests[i])
    {
      assert Honest(s.requests[i]);
      ClassIff(s.requests[i].recorded, digit);
    }
    CountSame(s.requests, CountedAs(t), CountedIn(p, digit));
    CountSame(s.requests, ObservedAs(t), ObservedIn(p, digit));
  }

  lemma RunThen(es: seq<Event>, e: Event)
    ensures Run(es + [e]) == Step(Run(es), e)
  {
    assert (es + [e])[..|es|] == es;
  }

  /** Whatever else goes on, a handler can panic at once: it is counted as a success, and its client gets nothing. */
  lemma SilentPanic(es: seq<Event>)
    ensures var i := |Run(es).requests|;
      var s := Run(es + [Arrive("GET", "/healthz", true)] + [Leave(i, true)] + [Lower(i)] + [Raise(i)]);
      && |s.requests| == i + 1 && s.requests[i].sent == None
      && s.counter == Run(es).counter + multiset{Triple(Pair("GET", "/healthz"), "2xx")}
  {
    var s0 := Run(es);
    var i := |s0.requests|;
    var a := es + [Arrive("GET", "/healthz", true)];
    var b := a + [Leave(i, true)];
    RunThen(es, Arrive("GET", "/healthz", true));
    RunThen(a, Leave(i, true));
    RunThen(b, Lower(i));
    RunThen(b + [Lower(i)], Raise(i));
    PanicPath(s0);
  }

  lemma PanicPath(s0: State)
    ensures var i := |s0.requests|;
      var s := Step(Step(Step(Step(s0, Arrive("GET", "/healthz", true)), Leave(i, true)), Lower(i)), Raise(i));
      && |s.requests| == i + 1 && s.requests[i].sent == None
      && s.counter == s0.counter + multiset{Triple(Pair("GET", "/healthz"), "2xx")}
  {
    var i := |s0.requests|;
    var s1 := Step(s0, Arrive("GET", "/healthz", true));
    var s2 := Step(s1, Leave(i, true));
    var s3 := Step(s2, Lower(i));
    Healthz();
    assert s2.requests[i].recorded == 200 && s2.requests[i].sent == None && s2.requests[i].phase.Leaving?;
    assert s3.requests[i] == s2.requests[i].(phase := Lowered) && s3.counter == s0.counter;
  }

  lemma Healthz()
    ensures PairOf("GET", "/healthz") == Pair("GET", "/healthz") && StatusClass(200) == "2xx"
  {
    Routing.RouteLabels("/healthz");
    assert Routing.HEALTH in {Routing.HEALTH, Routing.READINESS, Routing.API_V1, Routing.MANAGED_SERVICES};
    assert StatusClass(200) == ['2'] + "xx";
  }

  /**
   The same of a handler that panics after it has set a status and written a body that fits the buffer: it is
   counted under that status, whichever it is, and its client gets nothing.
   */
  lemma BufferedPanic(es: seq<Event>, code: int, n: nat)
    requires 200 <= code <= 999
    ensures var i := |Run(es).requests|;
      var s := Run(es + [Arrive("GET", "/healthz", true)] + [Reply(i, WriteHeader(code))] + [Reply(i, Write(n))]
                   + [Leave(i, true)] + [Lower(i)] + [Raise(i)]);
      && |s.requests| == i + 1 && s.requests[i].recorded == code && s.requests[i].sent == None
      && s.counter == Run(es).counter + multiset{Triple(Pair("GET", "/healthz"), StatusClass(code))}
  {
    var s0 := Run(es);
    var i := |s0.requests|;
    var a := es + [Arrive("GET", "/healthz", true)];
    var b := a + [Reply(i, WriteHeader(code))];
    var c := b + [Reply(i, Write(n))];
    var d := c + [Leave(i, true)];
    RunThen(es, Arrive("GET", "/healthz", true));
    RunThen(a, Reply(i, WriteHeader(code)));
    RunThen(b, Reply(i, Write(n)));
    RunThen(c, Leave(i, true));
    RunThen(d, Lower(i));
    RunThen(d + [Lower(i)], Raise(i));
    WrittenPath(s0, code, n);
    LeavingPath(Run(c), i, code);
  }

  /** A status and a body, written in one go. */
  lemma WrittenPath(s0: State, code: int, n: nat)
    requires 200 <= code <= 999
    ensures var i := |s0.requests|;
      var s := Step(Step(Step(s0, Arrive("GET", "/healthz", true)), Reply(i, WriteHeader(code))), Reply(i, Write(n)));
      && |s.requests| == i + 1 && s.counter == s0.counter
      && s.requests[i].pair == Pair("GET", "/healthz") && s.requests[i].phase.Open?
      && s.requests[i].status == code && !s.requests[i].flushed
  {
    Healthz();
  }

  /** From an open, unflushed response through the panic to the counter. */
  lemma LeavingPath(s: State, i: nat, code: int)
    requires At(s, i) && s.requests[i].phase.Open? && s.requests[i].status == code && !s.requests[i].flushed
    requires 200 <= code <= 999
    ensures var t := Step(Step(Step(s, Leave(i, true)), Lower(i)), Raise(i));
      && |t.requests| == |s.requests| && t.requests[i].recorded == code && t.requests[i].sent == None
      && t.counter == s.counter + multiset{Triple(s.requests[i].pair, StatusClass(code))}
  {
    var s1 := Step(s, Leave(i, true));
    var s2 := Step(s1, Lower(i));
    assert s1.requests[i].recorded == code && s1.requests[i].sent == None && s1.requests[i].phase.Leaving?;
    assert s2.requests[i] == s1.requests[i].(phase := Lowered) && s2.counter == s.counter;
  }
}
