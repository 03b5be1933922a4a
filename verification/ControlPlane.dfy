/**
 The control-plane API over its store (internal/controlplaneapi/handler.go, lines 164-350, 352-461, and
 store.go): what each request is answered, which store call it makes and how the store changes. Decoding the
 body and the fate of a store call are inputs; paths have no percent-encoding.
 */
module ControlPlane {
  import opened Wrappers
  import opened Objects
  import opened Ordering
  import opened Routing
  import Children

  const APPLICATIONS := "applications"
  const DEMO_HTTP := "demo-http"

  // ----- Requests and responses

  /** The decoded body; a message is counted in characters. */
  datatype Payload = Decoded(name: string, replicas: Option<int>, message: string) | Malformed | TooLarge

  datatype Request = Request(verb: string, path: string, query: string, authorization: seq<string>, payload: Payload)

  /** A store call that fails for a reason of its own; a write may have been applied all the same. */
  datatype Fault = Fault(applied: bool)

  datatype Net = Net(ready: bool, fault: Option<Fault>, uid: nat)

  datatype ConditionView = ConditionView(
    kind: string, status: ConditionStatus, reason: string, message: string, observedGeneration: int)

  datatype View = View(
    name: string, namespace: string, template: string, replicas: int, message: string, observedGeneration: int,
    readyReplicas: int, endpoint: string, conditions: seq<ConditionView>)

  datatype Body = Problem(text: string) | State(text: string) | IdentityOf(service: string, version: string) | OneOf(view: View)
    | ManyOf(views: seq<View>) | NoBody

  datatype Response = Response(code: int, body: Body)

  datatype StoreCall = CreateCall(name: string) | ListCall | GetCall(name: string) | DeleteCall(name: string)

  datatype StoreError = StoreNotFound | StoreAlreadyExists | StoreFailure

  type Contents = map<Key, ManagedService>

  /** A response, the store call behind it, and the store afterwards. */
  datatype Exchange = Exchange(response: Response, call: Option<StoreCall>, items: Contents)

  datatype Named = Named(name: string, ms: ManagedService)

  // ----- Views

  function KindOf(c: ConditionView): string { c.kind }

  function NameOf(v: View): string { v.name }

  function ConditionViewOf(c: Condition): ConditionView {
    ConditionView(c.kind, c.status, c.reason, c.message, c.observedGeneration)
  }

  function ConditionViews(cs: seq<Condition>): seq<ConditionView> {
    if cs == [] then [] else ConditionViews(cs[..|cs| - 1]) + [ConditionViewOf(cs[|cs| - 1])]
  }

  /** newManagedServiceResponse */
  function ViewOf(n: Named): View {
    var spec := n.ms.CurrentSpec();
    View(n.name, APPLICATIONS, spec.template, Children.DesiredReplicas(spec), spec.message, n.ms.status.observedGeneration,
      n.ms.status.readyReplicas, n.ms.status.endpoint, Sort(ConditionViews(n.ms.status.conditions), KindOf))
  }

  function ViewsOf(ns: seq<Named>): seq<View> {
    if ns == [] then [] else ViewsOf(ns[..|ns| - 1]) + [ViewOf(ns[|ns| - 1])]
  }

  // ----- The store

  function KeyOf(name: string): Key { Key(APPLICATIONS, name) }

  /** The names in the API's namespace. */
  function Names(items: Contents): set<string> {
    set k | k in items && k.namespace == APPLICATIONS :: k.name
  }

  /** `ns` holds every object whose name is in `names` once, in any order. */
  ghost predicate Enumerates(ns: seq<Named>, items: Contents, names: set<string>) {
    && (forall i | 0 <= i < |ns| :: ns[i].name in names && KeyOf(ns[i].name) in items && items[KeyOf(ns[i].name)] == ns[i].ms)
    && (forall i, j | 0 <= i < j < |ns| :: ns[i].name != ns[j].name)
    && (forall name | name in names :: exists i :: 0 <= i < |ns| && ns[i].name == name)
  }

  lemma EnumeratesOneMore(ns: seq<Named>, items: Contents, names: set<string>, name: string)
    requires Enumerates(ns, items, names) && name !in names && KeyOf(name) in items
    ensures Enumerates(ns + [Named(name, items[KeyOf(name)])], items, names + {name})
  {
    var more := ns + [Named(name, items[KeyOf(name)])];
    forall m | m in names + {name} ensures exists i :: 0 <= i < |more| && more[i].name == m {
      if m == name {
        assert more[|ns|].name == m;
      } else {
        var i :| 0 <= i < |ns| && ns[i].name == m;
        assert more[i].name == m;
      }
    }
  }

  function Created(name: string, replicas: int, message: string, uid: nat): ManagedService {
    ManagedService(uid, [Spec(DEMO_HTTP, Some(replicas), message)], EMPTY_STATUS)
  }

  /** The API server lists the objects of the namespace in an order of its own. */
  method Enumerate(items: Contents) returns (ns: seq<Named>)
    ensures Enumerates(ns, items, Names(items))
  {
    var names, listed: set<string> := Names(items), {};
    ns := [];
    while listed != names
      invariant listed <= names == Names(items) && Enumerates(ns, items, listed)
      decreases |names - listed|
    {
      assert names - listed != {};
      var name :| name in names - listed;
      assert KeyOf(name) in items;
      EnumeratesOneMore(ns, items, listed, name);
      ns := ns + [Named(name, items[KeyOf(name)])];
      assert names - (listed + {name}) < names - listed;
      listed := listed + {name};
    }
  }

  class Store {
    var items: Contents
    ghost var calls: seq<StoreCall>

    constructor (items: Contents)
      ensures this.items == items && calls == []
    {
      this.items, calls := items, [];
    }

    method Create(name: string, replicas: int, message: string, uid: nat, fault: Option<Fault>)
      returns (r: Result<ManagedService, StoreError>)
      modifies this
      ensures calls == old(calls) + [CreateCall(name)]
      ensures var present, ms := KeyOf(name) in old(items), Created(name, replicas, message, uid);
        && r == (if fault.Some? then Err(StoreFailure) else if present then Err(StoreAlreadyExists) else Ok(ms))
        && items == if !present && (fault.None? || fault.value.applied) then old(items)[KeyOf(name) := ms] else old(items)
    {
      calls := calls + [CreateCall(name)];
      var present := KeyOf(name) in items;
      var ms := Created(name, replicas, message, uid);
      if !present && (fault.None? || fault.value.applied) {
        items := items[KeyOf(name) := ms];
      }
      r := if fault.Some? then Err(StoreFailure) else if present then Err(StoreAlreadyExists) else Ok(ms);
    }

    method Get(name: string, fault: Option<Fault>) returns (r: Result<ManagedService, StoreError>)
      modifies this`calls
      ensures calls == old(calls) + [GetCall(name)]
      ensures r == if fault.Some? then Err(StoreFailure)
                   else if KeyOf(name) !in items then Err(StoreNotFound) else Ok(items[KeyOf(name)])
    {
      calls := calls + [GetCall(name)];
      r := if fault.Some? then Err(StoreFailure)
           else if KeyOf(name) !in items then Err(StoreNotFound) else Ok(items[KeyOf(name)]);
    }

    method Delete(name: string, fault: Option<Fault>) returns (r: Result<(), StoreError>)
      modifies this
      ensures calls == old(calls) + [DeleteCall(name)]
      ensures r == if fault.Some? then Err(StoreFailure) else if KeyOf(name) !in old(items) then Err(StoreNotFound) else Ok(())
      ensures items == if fault.None? || fault.value.applied then old(items) - {KeyOf(name)} else old(items)
    {
      calls := calls + [DeleteCall(name)];
      r := if fault.Some? then Err(StoreFailure) else if KeyOf(name) !in items then Err(StoreNotFound) else Ok(());
      if fault.None? || fault.value.applied {
        items := items - {KeyOf(name)};
      }
    }

    method List(fault: Option<Fault>) returns (r: Result<seq<Named>, StoreError>)
      modifies this`calls
      ensures calls == old(calls) + [ListCall]
      ensures if fault.Some? then r == Err(StoreFailure) else r.Ok? && Enumerates(r.value, items, Names(items))
    {
      calls := calls + [ListCall];
      if fault.Some? {
        return Err(StoreFailure);
      }
      var ns := Enumerate(items);
      r := Ok(ns);
    }
  }

  // ----- What a request is answered

  ghost function EnumerationOf(items: Contents, names: set<string>): (ns: seq<Named>)
    requires names <= Names(items)
    ensures Enumerates(ns, items, names)
    decreases |names|
  {
    if names == {} then []
    else
      var name :| name in names;
      assert KeyOf(name) in items;
      EnumeratesOneMore(EnumerationOf(items, names - {name}), items, names - {name}, name);
      assert names - {name} + {name} == names;
      EnumerationOf(items, names - {name}) + [Named(name, items[KeyOf(name)])]
  }

  /** The listing of a store; ListingIndependent says that the order of the enumeration does not matter. */
  ghost function Listing(items: Contents): seq<View> {
    Sort(ViewsOf(EnumerationOf(items, Names(items))), NameOf)
  }

  function Said(items: Contents, code: int, body: Body): Exchange { Exchange(Response(code, body), None, items) }

  function Called(call: StoreCall, items: Contents, code: int, body: Body): Exchange {
    Exchange(Response(code, body), Some(call), items)
  }

  function NotAllowed(): Response { Response(405, Problem("method not allowed")) }

  function InternalError(): Response { Response(500, Problem("internal server error")) }

  function Missing(): Response { Response(404, Problem("managed service not found")) }

  function GetOnly(items: Contents, rq: Request, response: Response): Exchange {
    Exchange(if rq.verb == "GET" then response else NotAllowed(), None, items)
  }

  /** The replicas of a create request. */
  function RequestedReplicas(p: Payload): int
    requires p.Decoded?
  {
    if p.replicas.None? then 1 else p.replicas.value
  }

  predicate Acceptable(p: Payload) {
    p.Decoded? && ValidManagedServiceName(p.name) && 1 <= RequestedReplicas(p) <= 3 && |p.message| <= 120
  }

  function CreateExchange(items: Contents, p: Payload, net: Net): Exchange {
    if p.Malformed? then Said(items, 400, Problem("invalid request"))
    else if p.TooLarge? then Said(items, 413, Problem("request too large"))
    else if !Acceptable(p) then Said(items, 400, Problem("invalid request"))
    else
      var ms := Created(p.name, RequestedReplicas(p), p.message, net.uid);
      var present := KeyOf(p.name) in items;
      var after := if !present && (net.fault.None? || net.fault.value.applied) then items[KeyOf(p.name) := ms] else items;
      Exchange(
        if net.fault.Some? then InternalError()
        else if present then Response(409, Problem("managed service already exists"))
        else Response(201, OneOf(ViewOf(Named(p.name, ms)))),
        Some(CreateCall(p.name)), after)
  }

  ghost function ListExchange(items: Contents, net: Net): Exchange {
    Exchange(if net.fault.Some? then InternalError() else Response(200, ManyOf(Listing(items))), Some(ListCall), items)
  }

  function GetExchange(items: Contents, name: string, net: Net): Exchange {
    Exchange(
      if net.fault.Some? then InternalError()
      else if KeyOf(name) !in items then Missing()
      else Response(200, OneOf(ViewOf(Named(name, items[KeyOf(name)])))),
      Some(GetCall(name)), items)
  }

  function DeleteExchange(items: Contents, name: string, net: Net): Exchange {
    Exchange(
      if net.fault.Some? then InternalError() else if KeyOf(name) !in items then Missing() else Response(204, NoBody),
      Some(DeleteCall(name)),
      if net.fault.None? || net.fault.value.applied then items - {KeyOf(name)} else items)
  }

  ghost function CollectionExchange(items: Contents, rq: Request, net: Net): Exchange {
    if rq.query != "" then Said(items, 400, Problem("query parameters are not supported"))
    else if rq.verb == "GET" then ListExchange(items, net)
    else if rq.verb == "POST" then CreateExchange(items, rq.payload, net)
    else Exchange(NotAllowed(), None, items)
  }

  function ItemExchange(items: Contents, rq: Request, net: Net): Exchange {
    var name := TrimPrefix(rq.path, ITEM_PREFIX);
    if rq.query != "" then Said(items, 400, Problem("query parameters are not supported"))
    else if !ValidManagedServiceName(name) then Said(items, 400, Problem("invalid managed service name"))
    else if rq.verb == "GET" then GetExchange(items, name, net)
    else if rq.verb == "DELETE" then DeleteExchange(items, name, net)
    else Exchange(NotAllowed(), None, items)
  }

  /** What the mux's handler answers. */
  ghost function Routed(items: Contents, rq: Request, net: Net): Exchange {
    match Match(rq.path)
    case Health => GetOnly(items, rq, Response(200, State("healthy")))
    case Readiness => GetOnly(items, rq, if net.ready then Response(200, State("ready")) else Response(503, State("not ready")))
    case Identity => GetOnly(items, rq, Response(200, IdentityOf("control-plane-api", "v1")))
    case Collection => CollectionExchange(items, rq, net)
    case Item => ItemExchange(items, rq, net)
    case NotFound => Said(items, 404, Problem("not found"))
  }

  /** ServeHTTP: the gate, then the mux; a redirect runs no handler. */
  ghost function Serve(token: string, items: Contents, rq: Request, net: Net): Exchange {
    if IsProtectedPath(rq.path) && !Authenticated(rq.authorization, token) then Said(items, 401, Problem("unauthorized"))
    else if Redirected(rq.verb, rq.path) then Said(items, 307, NoBody)
    else Routed(items, rq, net)
  }

  // ----- Listings

  lemma {:induction false} ViewsOfAt(ns: seq<Named>, i: nat)
    requires i < |ns|
    ensures |ViewsOf(ns)| == |ns| && ViewsOf(ns)[i] == ViewOf(ns[i])
    decreases |ns|
  {
    var last := |ns| - 1;
    if i < last {
      ViewsOfAt(ns[..last], i);
    } else if last > 0 {
      ViewsOfAt(ns[..last], 0);
    }
  }

  lemma ViewsDistinct(ns: seq<Named>, items: Contents, names: set<string>)
    requires Enumerates(ns, items, names)
    ensures DistinctKeys(ViewsOf(ns), NameOf)
  {
    var vs := ViewsOf(ns);
    if ns != [] { ViewsOfAt(ns, 0); }
    forall i, j | 0 <= i < j < |vs| ensures NameOf(vs[i]) != NameOf(vs[j]) {
      ViewsOfAt(ns, i);
      ViewsOfAt(ns, j);
    }
    DistinctByIndex(vs, NameOf);
  }

  lemma ViewsSame(ns: seq<Named>, ms: seq<Named>, items: Contents, names: set<string>)
    requires Enumerates(ns, items, names) && Enumerates(ms, items, names)
    ensures forall v :: v in ViewsOf(ns) ==> v in ViewsOf(ms)
  {
    forall v | v in ViewsOf(ns) ensures v in ViewsOf(ms) {
      if ns != [] { ViewsOfAt(ns, 0); }
      var i :| 0 <= i < |ViewsOf(ns)| && ViewsOf(ns)[i] == v;
      ViewsOfAt(ns, i);
      var j :| 0 <= j < |ms| && ms[j].name == ns[i].name;
      ViewsOfAt(ms, j);
    }
  }

  /** Whatever order the store lists its objects in, and whatever sorts the views, the listing is the same. */
  lemma ListingIndependent(ns: seq<Named>, items: Contents, sorted: seq<View>)
    requires Enumerates(ns, items, Names(items))
    requires Sorted(sorted, NameOf) && multiset(sorted) == multiset(ViewsOf(ns))
    ensures sorted == Listing(items)
  {
    var ms := EnumerationOf(items, Names(items));
    ViewsDistinct(ns, items, Names(items));
    ViewsDistinct(ms, items, Names(items));
    ViewsSame(ns, ms, items, Names(items));
    ViewsSame(ms, ns, items, Names(items));
    DistinctMultisets(ViewsOf(ns), ViewsOf(ms), NameOf);
    SortSorts(ViewsOf(ms), NameOf);
    DistinctSame(ViewsOf(ms), Listing(items), NameOf);
    SortedUnique(Listing(items), sorted, NameOf);
  }

  /** The same of the conditions of one object, whose types differ: their order in the status does not matter. */
  lemma ConditionOrder(n: Named, sorted: seq<ConditionView>)
    requires DistinctKeys(ConditionViews(n.ms.status.conditions), KindOf)
    requires Sorted(sorted, KindOf) && multiset(sorted) == multiset(ConditionViews(n.ms.status.conditions))
    ensures ViewOf(n).conditions == sorted
  {
    var views := ConditionViews(n.ms.status.conditions);
    SortSorts(views, KindOf);
    DistinctSame(views, Sort(views, KindOf), KindOf);
    SortedUnique(Sort(views, KindOf), sorted, KindOf);
  }

  /** The version prefix itself and everything below it, without a credential that passes. */
  predicate Unauthorized(token: string, rq: Request) {
    (rq.path == "/api/v1" || "/api/v1/" <= rq.path) && !Authenticated(rq.authorization, token)
  }

  /** The gate alone answers 401. */
  lemma CollectionNever401(items: Contents, rq: Request, net: Net)
    ensures CollectionExchange(items, rq, net).response.code != 401
  {
  }

  lemma ItemNever401(items: Contents, rq: Request, net: Net)
    ensures ItemExchange(items, rq, net).response.code != 401
  {
  }

  lemma RoutedNever401(items: Contents, rq: Request, net: Net)
    ensures Routed(items, rq, net).response.code != 401
  {
    match Match(rq.path)
    case Collection => CollectionNever401(items, rq, net);
    case Item => ItemNever401(items, rq, net);
    case _ =>
  }

  lemma ProtectedLiterally(path: string)
    ensures IsProtectedPath(path) <==> path == "/api/v1" || "/api/v1/" <= path
  {
    assert API_V1 + "/" == "/api/v1/";
  }

  /** Such a request, and no other, is answered 401. */
  lemma UnauthorizedIff(token: string, items: Contents, rq: Request, net: Net)
    ensures var response := Serve(token, items, rq, net).response;
      && (Unauthorized(token, rq) ==> response == Response(401, Problem("unauthorized")))
      && (response.code == 401 ==> Unauthorized(token, rq))
  {
    ProtectedLiterally(rq.path);
    RoutedNever401(items, rq, net);
  }

  // ----- The handler

  class ApiHandler {
    const token: string
    const store: Store

    constructor (token: string, store: Store)
      ensures this.token == token && this.store == store
    {
      this.token, this.store := token, store;
    }

    /** What an answer has to match. */
    ghost predicate Matches(callsBefore: seq<StoreCall>, response: Response, x: Exchange)
      reads store
    {
      && response == x.response && store.items == x.items
      && store.calls == callsBefore + (if x.call.Some? then [x.call.value] else [])
    }

    method NewManagedServiceResponse(n: Named) returns (v: View)
      ensures v == ViewOf(n)
    {
      var replicas := 1;
      var spec := n.ms.CurrentSpec();
      if spec.replicas.Some? {
        replicas := spec.replicas.value;
      }
      var cs := n.ms.status.conditions;
      var conditions: seq<ConditionView> := [];
      for i := 0 to |cs|
        invariant conditions == ConditionViews(cs[..i])
      {
        assert cs[..i + 1][..i] == cs[..i];
        conditions := conditions + [ConditionViewOf(cs[i])];
      }
      assert cs[..|cs|] == cs;
      conditions := Sort(conditions, KindOf);
      v := View(n.name, APPLICATIONS, spec.template, replicas, spec.message, n.ms.status.observedGeneration,
                n.ms.status.readyReplicas, n.ms.status.endpoint, conditions);
    }

    method ListManagedServices(net: Net) returns (response: Response)
      modifies store
      ensures Matches(old(store.calls), response, ListExchange(old(store.items), net))
    {
      var r := store.List(net.fault);
      if r.Err? {
        return InternalError();
      }
      var views := CollectViews(r.value);
      SortSorts(views, NameOf);
      ListingIndependent(r.value, store.items, Sort(views, NameOf));
      views := Sort(views, NameOf);
      response := Response(200, ManyOf(views));
    }

    method CollectViews(ns: seq<Named>) returns (views: seq<View>)
      ensures views == ViewsOf(ns)
    {
      views := [];
      for i := 0 to |ns|
        invariant views == ViewsOf(ns[..i])
      {
        var v := NewManagedServiceResponse(ns[i]);
        assert ns[..i + 1][..i] == ns[..i];
        views := views + [v];
      }
      assert ns[..|ns|] == ns;
    }

    method CreateManagedService(p: Payload, net: Net) returns (response: Response)
      modifies store
      ensures Matches(old(store.calls), response, CreateExchange(old(store.items), p, net))
    {
      if p.Malformed? {
        return Response(400, Problem("invalid request"));
      }
      if p.TooLarge? {
        return Response(413, Problem("request too large"));
      }
      var replicas := 1;
      if p.replicas.Some? {
        replicas := p.replicas.value;
      }
      if !ValidManagedServiceName(p.name) || replicas < 1 || replicas > 3 || |p.message| > 120 {
        return Response(400, Problem("invalid request"));
      }
      var r := store.Create(p.name, replicas, p.message, net.uid, net.fault);
      if r.Err? && r.error.StoreAlreadyExists? {
        return Response(409, Problem("managed service already exists"));
      }
      if r.Err? {
        return InternalError();
      }
      var view := NewManagedServiceResponse(Named(p.name, r.value));
      response := Response(201, OneOf(view));
    }

    method GetManagedService(name: string, net: Net) returns (response: Response)
      modifies store
      ensures Matches(old(store.calls), response, GetExchange(old(store.items), name, net))
    {
      var r := store.Get(name, net.fault);
      if r.Err? && r.error.StoreNotFound? {
        return Missing();
      }
      if r.Err? {
        return InternalError();
      }
      var view := NewManagedServiceResponse(Named(name, r.value));
      response := Response(200, OneOf(view));
    }

    method DeleteManagedService(name: string, net: Net) returns (response: Response)
      modifies store
      ensures Matches(old(store.calls), response, DeleteExchange(old(store.items), name, net))
    {
      var r := store.Delete(name, net.fault);
      if r.Err? {
        if r.error.StoreNotFound? {
          return Missing();
        }
        return InternalError();
      }
      response := Response(204, NoBody);
    }

    method ServeCollection(rq: Request, net: Net) returns (response: Response)
      modifies store
      ensures Matches(old(store.calls), response, CollectionExchange(old(store.items), rq, net))
    {
      if rq.query != "" {
        return Response(400, Problem("query parameters are not supported"));
      }
      if rq.verb == "GET" {
        response := ListManagedServices(net);
      } else if rq.verb == "POST" {
        response := CreateManagedService(rq.payload, net);
      } else {
        response := NotAllowed();
      }
    }

    method ServeItem(rq: Request, net: Net) returns (response: Response)
      modifies store
      ensures Matches(old(store.calls), response, ItemExchange(old(store.items), rq, net))
    {
      if rq.query != "" {
        return Response(400, Problem("query parameters are not supported"));
      }
      var name := TrimPrefix(rq.path, ITEM_PREFIX);
      if !ValidManagedServiceName(name) {
        return Response(400, Problem("invalid managed service name"));
      }
      if rq.verb == "GET" {
        response := GetManagedService(name, net);
      } else if rq.verb == "DELETE" {
        response := DeleteManagedService(name, net);
      } else {
        response := NotAllowed();
      }
    }

    /** ServeHTTP, and the mux behind it. */
    method ServeHTTP(rq: Request, net: Net) returns (response: Response)
      modifies store
      ensures Matches(old(store.calls), response, Serve(token, old(store.items), rq, net))
      ensures Unauthorized(token, rq) ==> response == Response(401, Problem("unauthorized"))
      ensures response.code == 401 ==> Unauthorized(token, rq)
    {
      UnauthorizedIff(token, store.items, rq, net);
      if IsProtectedPath(rq.path) && !Authenticated(rq.authorization, token) {
        return Response(401, Problem("unauthorized"));
      }
      if Redirected(rq.verb, rq.path) {
        return Response(307, NoBody);
      }
      match Match(rq.path) {
        case Health =>
          response := if rq.verb == "GET" then Response(200, State("healthy")) else NotAllowed();
        case Readiness =>
          if rq.verb != "GET" {
            response := NotAllowed();
          } else if !net.ready {
            response := Response(503, State("not ready"));
          } else {
            response := Response(200, State("ready"));
          }
        case Identity =>
          response := if rq.verb == "GET" then Response(200, IdentityOf("control-plane-api", "v1")) else NotAllowed();
        case Collection => response := ServeCollection(rq, net);
        case Item => response := ServeItem(rq, net);
        case NotFound => response := Response(404, Problem("not found"));
      }
    }
  }
}
