/**
 What the control-plane API answers, in the words of its clients: every refusal and every fixed answer by the
 request that gets it, and every field of a view by the object it shows
 (internal/controlplaneapi/handler.go, lines 104-146 and 164-504).
 */
module ApiAnswers {
  import opened Wrappers
  import opened Objects
  import opened Routing
  import opened ControlPlane
  import opened ApiLaws
  import Children
  import Ordering

  // ----- Requests

  /** The request passes the gate and is not redirected: its path is clean, or it is a CONNECT. */
  ghost predicate Reaches(token: string, rq: Request) {
    !Unauthorized(token, rq) && (rq.verb == "CONNECT" || IsClean(rq.path))
  }

  lemma ReachesRouted(token: string, items: Contents, rq: Request, net: Net)
    ensures Reaches(token, rq) ==> Serve(token, items, rq, net) == Routed(items, rq, net)
    ensures !Reaches(token, rq) && !Unauthorized(token, rq) ==> Serve(token, items, rq, net).response == Response(307, NoBody)
  {
    RedirectedIff(rq.verb, rq.path);
    ProtectedLiterally(rq.path);
  }

  function Refusal(code: int, text: string): Response { Response(code, Problem(text)) }

  // ----- Fixed answers

  /** The four kinds of path without a store behind them. */
  function FixedAnswer(rq: Request, net: Net): Response {
    if rq.path !in {"/healthz", "/readyz", "/api/v1"} then Refusal(404, "not found")
    else if rq.verb != "GET" then Refusal(405, "method not allowed")
    else if rq.path == "/healthz" then Response(200, State("healthy"))
    else if rq.path == "/api/v1" then Response(200, IdentityOf("control-plane-api", "v1"))
    else if net.ready then Response(200, State("ready"))
    else Response(503, State("not ready"))
  }

  /** The path of the collection or below it. */
  predicate ManagedPath(path: string) {
    path == "/api/v1/managed-services" || "/api/v1/managed-services/" <= path
  }

  lemma FixedAnswers(token: string, items: Contents, rq: Request, net: Net)
    requires Reaches(token, rq) && !ManagedPath(rq.path)
    ensures Serve(token, items, rq, net).response == FixedAnswer(rq, net)
  {
    ReachesRouted(token, items, rq, net);
    UnmanagedMatch(rq.path);
  }

  lemma UnmanagedMatch(path: string)
    requires !ManagedPath(path)
    ensures Match(path) == if path == "/healthz" then Health else if path == "/readyz" then Readiness
                           else if path == "/api/v1" then Identity else Handler.NotFound
  {
  }

  // ----- Refusals

  /** What is wrong with a request to the collection, if anything, before the store is asked. */
  function CollectionRefusal(rq: Request): Option<Response> {
    if rq.query != "" then Some(Refusal(400, "query parameters are not supported"))
    else if rq.verb == "GET" then None
    else if rq.verb != "POST" then Some(Refusal(405, "method not allowed"))
    else
      match rq.payload
      case TooLarge => Some(Refusal(413, "request too large"))
      case Malformed => Some(Refusal(400, "invalid request"))
      case Decoded(name, replicas, message) =>
        if DnsLabel(name) && |message| <= 120 && replicas in {None, Some(1), Some(2), Some(3)} then None
        else Some(Refusal(400, "invalid request"))
  }

  lemma AcceptableIff(p: Payload)
    ensures Acceptable(p) <==>
      p.Decoded? && DnsLabel(p.name) && |p.message| <= 120 && p.replicas in {None, Some(1), Some(2), Some(3)}
  {
  }

  lemma CollectionRefused(token: string, items: Contents, rq: Request, net: Net)
    requires rq.path == "/api/v1/managed-services" && !Unauthorized(token, rq)
    ensures CollectionRefusal(rq).Some? <==> Asks(rq).None?
    ensures CollectionRefusal(rq).Some? ==> Serve(token, items, rq, net).response == CollectionRefusal(rq).value
  {
    CollectionAsks(rq);
    CollectionAnswer(token, items, rq, net, rq.path);
    CollectionRefusals(items, rq, net);
  }

  lemma CollectionAsks(rq: Request)
    requires rq.path == "/api/v1/managed-services"
    ensures CollectionRefusal(rq).Some? <==> Asks(rq).None?
  {
    AcceptableIff(rq.payload);
    CollectionRoute();
  }

  lemma Admits(token: string, items: Contents, rq: Request, net: Net)
    requires !Unauthorized(token, rq) && !Redirected(rq.verb, rq.path)
    ensures Serve(token, items, rq, net) == Routed(items, rq, net)
  {
    ProtectedLiterally(rq.path);
  }

  lemma CollectionHandles(items: Contents, rq: Request, net: Net)
    requires Match(rq.path) == Collection
    ensures Routed(items, rq, net) == CollectionExchange(items, rq, net)
  {
  }

  lemma CollectionAnswer(token: string, items: Contents, rq: Request, net: Net, path: string)
    requires path == MANAGED_SERVICES && rq.path == path && !Unauthorized(token, rq)
    ensures Serve(token, items, rq, net) == CollectionExchange(items, rq, net)
  {
    CollectionClean(rq.verb, path);
    Admits(token, items, rq, net);
    CollectionRoute();
    CollectionHandles(items, rq, net);
  }

  lemma CollectionRefusals(items: Contents, rq: Request, net: Net)
    ensures CollectionRefusal(rq).Some? ==> CollectionExchange(items, rq, net).response == CollectionRefusal(rq).value
  {
    AcceptableIff(rq.payload);
  }

  /** What is wrong with a request below the collection, if anything. */
  function ItemRefusal(rq: Request, name: string): Option<Response> {
    if rq.query != "" then Some(Refusal(400, "query parameters are not supported"))
    else if !DnsLabel(name) then Some(Refusal(400, "invalid managed service name"))
    else if rq.verb != "GET" && rq.verb != "DELETE" then Some(Refusal(405, "method not allowed"))
    else None
  }

  lemma ItemRefused(token: string, items: Contents, rq: Request, net: Net, name: string)
    requires rq.path == "/api/v1/managed-services/" + name && Reaches(token, rq)
    ensures ItemRefusal(rq, name).Some? <==> Asks(rq).None?
    ensures ItemRefusal(rq, name).Some? ==> Serve(token, items, rq, net).response == ItemRefusal(rq, name).value
  {
    BelowCollection(rq.path, name);
    ReachesRouted(token, items, rq, net);
  }

  lemma BelowCollection(path: string, name: string)
    requires path == "/api/v1/managed-services/" + name
    ensures Match(path) == Handler.Item && TrimPrefix(path, ITEM_PREFIX) == name && path != MANAGED_SERVICES
  {
    assert ITEM_PREFIX <= path && path[|ITEM_PREFIX|..] == name;
    assert |path| > |MANAGED_SERVICES| && |MANAGED_SERVICES| == 24 && |HEALTH| == 8 && |READINESS| == 7 && |API_V1| == 7;
  }

  // ----- The store's answers

  /** The answer to an operation when the store fails, has the name, or does not have it. */
  predicate StoreAnswered(m: Model, op: Op, net: Net, response: Response) {
    if net.fault.Some? then response == Refusal(500, "internal server error")
    else
      match op
      case CreateOp(name, _) => if name in m then response == Refusal(409, "managed service already exists") else response.code == 201
      case GetOp(name) => if name in m then response.code == 200 else response == Refusal(404, "managed service not found")
      case DeleteOp(name) => if name in m then response == Response(204, NoBody) else response == Refusal(404, "managed service not found")
      case ListOp => response.code == 200
  }

  lemma StoreAnswers(token: string, items: Contents, rq: Request, net: Net, op: Op)
    requires Meaning(token, rq) == Some(op)
    ensures StoreAnswered(ModelOf(items), op, net, Serve(token, items, rq, net).response)
  {
    ServePerforms(token, items, rq, net, op);
    PerformAnswers(items, rq, net, op);
  }

  lemma PerformAnswers(items: Contents, rq: Request, net: Net, op: Op)
    requires Asks(rq) == Some(op)
    ensures StoreAnswered(ModelOf(items), op, net, Perform(items, rq, net, op).response)
  {
    if !op.ListOp? { NamesKeys(items, op.name); }
  }

  /** Exactly the requests that are answered 201: every payload within the limits is accepted. */
  lemma CreatedIff(token: string, items: Contents, rq: Request, net: Net)
    ensures Serve(token, items, rq, net).response.code == 201 <==>
      && rq.path == "/api/v1/managed-services" && rq.verb == "POST" && rq.query == ""
      && Authenticated(rq.authorization, token) && net.fault.None?
      && rq.payload.Decoded? && DnsLabel(rq.payload.name) && |rq.payload.message| <= 120
      && rq.payload.replicas in {None, Some(1), Some(2), Some(3)}
      && Key("applications", rq.payload.name) !in items
  {
    AcceptableIff(rq.payload);
    var op := Meaning(token, rq);
    if op.None? {
      MeaninglessKeeps(token, items, rq, net);
    } else {
      StoreAnswers(token, items, rq, net, op.value);
      if !op.value.ListOp? { NamesKeys(items, op.value.name); }
    }
  }

  /** What a create that is answered 201 stores and shows: the template's name, one replica if none were asked for. */
  lemma CreatedStored(token: string, items: Contents, rq: Request, net: Net)
    requires Serve(token, items, rq, net).response.code == 201 && rq.payload.Decoded?
    ensures var replicas := if rq.payload.replicas.None? then 1 else rq.payload.replicas.value;
      var ms := ManagedService(net.uid, [Spec("demo-http", Some(replicas), rq.payload.message)], Status(0, 0, "", []));
      var x := Serve(token, items, rq, net);
      && x.items == items[Key("applications", rq.payload.name) := ms]
      && x.response.body.OneOf? && ShowsObject(x.response.body.view, rq.payload.name, ms)
  {
    CreatedIff(token, items, rq, net);
    var op := Meaning(token, rq);
    if op.None? {
      MeaninglessKeeps(token, items, rq, net);
    } else {
      ServePerforms(token, items, rq, net, op.value);
      StoreAnswers(token, items, rq, net, op.value);
      CreatePerformed(items, rq.payload, net);
    }
  }

  lemma CreatePerformed(items: Contents, p: Payload, net: Net)
    requires Acceptable(p) && net.fault.None? && KeyOf(p.name) !in items
    ensures var ms := Created(p.name, RequestedReplicas(p), p.message, net.uid);
      var x := CreateExchange(items, p, net);
      x.items == items[KeyOf(p.name) := ms] && x.response.body == OneOf(ViewOf(Named(p.name, ms))) && ShowsObject(x.response.body.view, p.name, ms)
  {
    ViewShows(p.name, Created(p.name, RequestedReplicas(p), p.message, net.uid));
  }

  // ----- Views

  /** A condition of a view shows a stored condition, but for its time. */
  predicate ShowsCondition(v: ConditionView, c: Condition) {
    && v.kind == c.kind && v.status == c.status && v.reason == c.reason && v.message == c.message
    && v.observedGeneration == c.observedGeneration
  }

  /** Every field of a view, from the stored object: its current spec, and its status with the conditions by type. */
  ghost predicate ShowsObject(v: View, name: string, ms: ManagedService) {
    && ms.specs != []
    && var spec, status := ms.specs[|ms.specs| - 1], ms.status;
    && v.name == name && v.namespace == "applications"
    && v.template == spec.template && v.message == spec.message
    && v.replicas == (if spec.replicas.None? then 1 else spec.replicas.value)
    && v.observedGeneration == status.observedGeneration && v.readyReplicas == status.readyReplicas
    && v.endpoint == status.endpoint
    && |v.conditions| == |status.conditions|
    && (forall c | c in status.conditions :: exists i :: 0 <= i < |v.conditions| && ShowsCondition(v.conditions[i], c))
    && (forall i | 0 <= i < |v.conditions| :: exists c :: c in status.conditions && ShowsCondition(v.conditions[i], c))
  }

  lemma {:induction false} ConditionViewsAt(cs: seq<Condition>, i: nat)
    requires i < |cs|
    ensures |ConditionViews(cs)| == |cs| && ConditionViews(cs)[i] == ConditionViewOf(cs[i])
    decreases |cs|
  {
    var last := |cs| - 1;
    if i < last {
      ConditionViewsAt(cs[..last], i);
    } else if last > 0 {
      ConditionViewsAt(cs[..last], 0);
    }
  }

  lemma {:induction false} ConditionsShown(cs: seq<Condition>, vs: seq<ConditionView>)
    requires multiset(vs) == multiset(ConditionViews(cs))
    ensures |vs| == |cs|
    ensures forall c | c in cs :: exists i :: 0 <= i < |vs| && ShowsCondition(vs[i], c)
    ensures forall i | 0 <= i < |vs| :: exists c :: c in cs && ShowsCondition(vs[i], c)
  {
    var all := ConditionViews(cs);
    if cs != [] { ConditionViewsAt(cs, 0); }
    assert |multiset(vs)| == |vs| && |multiset(all)| == |all|;
    forall c | c in cs ensures exists i :: 0 <= i < |vs| && ShowsCondition(vs[i], c) {
      var j :| 0 <= j < |cs| && cs[j] == c;
      ConditionViewsAt(cs, j);
      assert all[j] in multiset(vs);
    }
    forall i | 0 <= i < |vs| ensures exists c :: c in cs && ShowsCondition(vs[i], c) {
      assert vs[i] in multiset(all);
      var j :| 0 <= j < |all| && all[j] == vs[i];
      ConditionViewsAt(cs, j);
      assert cs[j] in cs && ShowsCondition(vs[i], cs[j]);
    }
  }

  lemma ViewShows(name: string, ms: ManagedService)
    requires ms.specs != []
    ensures ShowsObject(ViewOf(Named(name, ms)), name, ms)
  {
    var views := ConditionViews(ms.status.conditions);
    Ordering.SortSorts(views, KindOf);
    ConditionsShown(ms.status.conditions, Ordering.Sort(views, KindOf));
  }

  /** A get shows the stored object, field by field. */
  lemma GetShows(token: string, items: Contents, rq: Request, net: Net, name: string)
    requires Meaning(token, rq) == Some(GetOp(name)) && net.fault.None?
    requires Key("applications", name) in items && items[Key("applications", name)].specs != []
    ensures var body := Serve(token, items, rq, net).response.body;
      body.OneOf? && ShowsObject(body.view, name, items[Key("applications", name)])
  {
    ServePerforms(token, items, rq, net, GetOp(name));
    ViewShows(name, items[KeyOf(name)]);
  }

  /** So does every entry of a listing. */
  lemma ListShows(token: string, items: Contents, rq: Request, net: Net, v: View)
    requires Meaning(token, rq) == Some(ListOp) && net.fault.None?
    requires Serve(token, items, rq, net).response.body.ManyOf? && v in Serve(token, items, rq, net).response.body.views
    requires forall key | key in items :: items[key].specs != []
    ensures Key("applications", v.name) in items && ShowsObject(v, v.name, items[Key("applications", v.name)])
  {
    ServePerforms(token, items, rq, net, ListOp);
    ListedView(items, v);
  }

  lemma ListedView(items: Contents, v: View)
    requires v in Listing(items) && forall key | key in items :: items[key].specs != []
    ensures KeyOf(v.name) in items && ShowsObject(v, v.name, items[KeyOf(v.name)])
  {
    var ns := EnumerationOf(items, Names(items));
    var vs := ViewsOf(ns);
    Ordering.SortSorts(vs, NameOf);
    assert v in multiset(vs);
    if ns != [] { ViewsOfAt(ns, 0); }
    var i :| 0 <= i < |vs| && vs[i] == v;
    ViewsOfAt(ns, i);
    ViewShows(ns[i].name, ns[i].ms);
  }
}
