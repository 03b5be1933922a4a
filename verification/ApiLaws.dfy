/** What the control-plane API promises over single requests and over whole runs. */
module ApiLaws {
  import opened Wrappers
  import opened Objects
  import opened Routing
  import opened ControlPlane
  import Children
  import Ordering

  // ----- Which requests reach the store

  /** The name an item path ends in. */
  predicate ItemPath(path: string, name: string) { path == ITEM_PREFIX + name && DnsLabel(name) }

  /** The conditions every store call has passed. */
  predicate Admitted(token: string, rq: Request) {
    Authenticated(rq.authorization, token) && rq.query == ""
  }

  lemma ItemPathRoute(path: string, name: string)
    requires ItemPath(path, name)
    ensures Match(path) == Handler.Item && TrimPrefix(path, ITEM_PREFIX) == name && IsProtectedPath(path)
    ensures NormalizeRoute(path) == ITEM_TEMPLATE
  {
    assert ITEM_PREFIX <= path && path[|ITEM_PREFIX|..] == name;
    assert path[|ITEM_PREFIX| - 1] == '/';
    assert |path| > |ITEM_PREFIX| > |MANAGED_SERVICES|;
    assert API_V1 + "/" <= ITEM_PREFIX;
    assert |HEALTH| == 8 && |READINESS| == 7 && |API_V1| == 7;
  }

  lemma PrefixRoute(path: string)
    requires Match(path) == Handler.Item
    ensures path == ITEM_PREFIX + TrimPrefix(path, ITEM_PREFIX) && IsProtectedPath(path)
  {
    assert API_V1 + "/" <= ITEM_PREFIX;
  }

  lemma CollectionRoute()
    ensures Match(MANAGED_SERVICES) == Collection && IsProtectedPath(MANAGED_SERVICES)
    ensures NormalizeRoute(MANAGED_SERVICES) == MANAGED_SERVICES
  {
    assert API_V1 + "/" <= MANAGED_SERVICES;
    assert |MANAGED_SERVICES| == 24 && |HEALTH| == 8 && |READINESS| == 7 && |API_V1| == 7;
  }

  // ----- A map from names to replicas and messages

  datatype Entry = Entry(replicas: int, message: string)

  type Model = map<string, Entry>

  datatype Op = CreateOp(name: string, entry: Entry) | ListOp | GetOp(name: string) | DeleteOp(name: string)

  function EntryOf(ms: ManagedService): Entry {
    Entry(Children.DesiredReplicas(ms.CurrentSpec()), ms.CurrentSpec().message)
  }

  function ModelOf(items: Contents): Model {
    map name | name in Names(items) :: if KeyOf(name) in items then EntryOf(items[KeyOf(name)]) else Entry(0, "")
  }

  /** What a request asks of the map. */
  function Asks(rq: Request): Option<Op> {
    if rq.query != "" then None
    else if rq.path == MANAGED_SERVICES then
      if rq.verb == "GET" then Some(ListOp)
      else if rq.verb == "POST" && Acceptable(rq.payload) then
        Some(CreateOp(rq.payload.name, Entry(RequestedReplicas(rq.payload), rq.payload.message)))
      else None
    else
      var name := TrimPrefix(rq.path, ITEM_PREFIX);
      if !ItemPath(rq.path, name) then None
      else if rq.verb == "GET" then Some(GetOp(name))
      else if rq.verb == "DELETE" then Some(DeleteOp(name))
      else None
  }

  /** What it gets to ask: its credential must pass. */
  function Meaning(token: string, rq: Request): Option<Op> {
    if Authenticated(rq.authorization, token) then Asks(rq) else None
  }

  function After(m: Model, op: Op): Model {
    match op
    case CreateOp(name, entry) => if name in m then m else m[name := entry]
    case DeleteOp(name) => m - {name}
    case _ => m
  }

  function Code(m: Model, op: Op): int {
    match op
    case CreateOp(name, _) => if name in m then 409 else 201
    case ListOp => 200
    case GetOp(name) => if name in m then 200 else 404
    case DeleteOp(name) => if name in m then 204 else 404
  }

  /** What a client reads of the map in a view. */
  predicate Shows(v: View, m: Model) {
    v.name in m && m[v.name] == Entry(v.replicas, v.message)
  }

  /** The body of an answer, told from the map: the listing is the whole map in the order of the names. */
  ghost predicate Tells(body: Body, m: Model, op: Op) {
    match op
    case CreateOp(name, entry) => name !in m ==> body.OneOf? && body.view.name == name && Entry(body.view.replicas, body.view.message) == entry
    case GetOp(name) => name in m ==> body.OneOf? && body.view.name == name && Shows(body.view, m)
    case DeleteOp(name) => name in m ==> body == NoBody
    case ListOp =>
      && body.ManyOf?
      && (forall i | 0 <= i < |body.views| :: Shows(body.views[i], m))
      && (forall i, j | 0 <= i < j < |body.views| ::
            body.views[i].name != body.views[j].name && Ordering.AtMost(body.views[i].name, body.views[j].name))
      && (forall name | name in m :: exists i :: 0 <= i < |body.views| && body.views[i].name == name)
  }

  // ----- One request

  lemma NamesKeys(items: Contents, name: string)
    ensures name in Names(items) <==> KeyOf(name) in items
  {
  }

  lemma NamesPut(items: Contents, key: Key, ms: ManagedService)
    ensures Names(items[key := ms]) == if key.namespace == APPLICATIONS then Names(items) + {key.name} else Names(items)
  {
    forall name ensures name in Names(items[key := ms])
                        <==> name in Names(items) || (key.namespace == APPLICATIONS && name == key.name) {
      NamesKeys(items, name);
      NamesKeys(items[key := ms], name);
    }
  }

  lemma NamesDrop(items: Contents, key: Key)
    ensures Names(items - {key}) == if key.namespace == APPLICATIONS then Names(items) - {key.name} else Names(items)
  {
    forall name ensures name in Names(items - {key})
                        <==> name in Names(items) && !(key.namespace == APPLICATIONS && name == key.name) {
      NamesKeys(items, name);
      NamesKeys(items - {key}, name);
    }
  }

  /** Storing an object puts its entry in the map, if it is in the API's namespace. */
  lemma ModelPut(items: Contents, key: Key, ms: ManagedService)
    ensures ModelOf(items[key := ms])
            == if key.namespace == APPLICATIONS then ModelOf(items)[key.name := EntryOf(ms)] else ModelOf(items)
  {
    NamesPut(items, key, ms);
  }

  lemma ModelDrop(items: Contents, key: Key)
    ensures ModelOf(items - {key}) == if key.namespace == APPLICATIONS then ModelOf(items) - {key.name} else ModelOf(items)
  {
    NamesDrop(items, key);
  }

  lemma CreateRefines(items: Contents, p: Payload, net: Net, op: Op)
    requires Acceptable(p) && op == CreateOp(p.name, Entry(RequestedReplicas(p), p.message))
    ensures Refines(items, op, net, CreateExchange(items, p, net))
  {
    NamesKeys(items, p.name);
    ModelPut(items, KeyOf(p.name), Created(p.name, RequestedReplicas(p), p.message, net.uid));
  }

  lemma DeleteRefines(items: Contents, name: string, net: Net)
    ensures Refines(items, DeleteOp(name), net, DeleteExchange(items, name, net))
  {
    NamesKeys(items, name);
    ModelDrop(items, KeyOf(name));
  }

  lemma GetRefines(items: Contents, name: string, net: Net)
    ensures Refines(items, GetOp(name), net, GetExchange(items, name, net))
  {
    NamesKeys(items, name);
  }

  /** The listing, view by view. */
  lemma ListingShows(items: Contents, v: View)
    requires v in Listing(items)
    ensures Shows(v, ModelOf(items))
  {
    var ns := EnumerationOf(items, Names(items));
    var vs := ViewsOf(ns);
    Ordering.SortSorts(vs, NameOf);
    assert v in multiset(vs);
    if ns != [] { ViewsOfAt(ns, 0); }
    var i :| 0 <= i < |vs| && vs[i] == v;
    ViewsOfAt(ns, i);
  }

  lemma ListingCovers(items: Contents, name: string)
    requires name in Names(items)
    ensures exists i :: 0 <= i < |Listing(items)| && Listing(items)[i].name == name
  {
    var ns := EnumerationOf(items, Names(items));
    var vs := ViewsOf(ns);
    Ordering.SortSorts(vs, NameOf);
    var i :| 0 <= i < |ns| && ns[i].name == name;
    ViewsOfAt(ns, i);
    assert vs[i] in multiset(Listing(items));
  }

  lemma ListTells(items: Contents)
    ensures Tells(ManyOf(Listing(items)), ModelOf(items), ListOp)
  {
    var ns := EnumerationOf(items, Names(items));
    var vs := Listing(items);
    Ordering.SortSorts(ViewsOf(ns), NameOf);
    ViewsDistinct(ns, items, Names(items));
    Ordering.DistinctSame(ViewsOf(ns), vs, NameOf);
    forall i | 0 <= i < |vs| ensures Shows(vs[i], ModelOf(items)) { ListingShows(items, vs[i]); }
    forall i, j | 0 <= i < j < |vs| ensures vs[i].name != vs[j].name && Ordering.AtMost(vs[i].name, vs[j].name) {
      Ordering.SortedAt(vs, NameOf, i, j);
    }
    forall name | name in ModelOf(items) ensures exists i :: 0 <= i < |vs| && vs[i].name == name {
      ListingCovers(items, name);
    }
  }

  /** Whether a write takes effect: it succeeds, or fails after it was applied. */
  predicate Lands(net: Net) { net.fault.None? || net.fault.value.applied }

  /** The store moves as the map does under `op`, and a call that does not fail is answered from the map. */
  ghost predicate Refines(items: Contents, op: Op, net: Net, x: Exchange) {
    && ModelOf(x.items) == (if Lands(net) then After(ModelOf(items), op) else ModelOf(items))
    && (if net.fault.None? then x.response.code == Code(ModelOf(items), op) && Tells(x.response.body, ModelOf(items), op)
        else x.response == InternalError())
  }

  lemma ListRefines(items: Contents, net: Net)
    ensures Refines(items, ListOp, net, ListExchange(items, net))
  {
    ListTells(items);
  }

  /** The exchange that performs an operation. */
  ghost function Perform(items: Contents, rq: Request, net: Net, op: Op): Exchange {
    match op
    case CreateOp(_, _) => CreateExchange(items, rq.payload, net)
    case ListOp => ListExchange(items, net)
    case GetOp(name) => GetExchange(items, name, net)
    case DeleteOp(name) => DeleteExchange(items, name, net)
  }

  lemma PerformRefines(items: Contents, rq: Request, net: Net, op: Op)
    requires Asks(rq) == Some(op)
    ensures Refines(items, op, net, Perform(items, rq, net, op))
  {
    match op
    case CreateOp(_, _) => CreateRefines(items, rq.payload, net, op);
    case ListOp => ListRefines(items, net);
    case GetOp(name) => GetRefines(items, name, net);
    case DeleteOp(name) => DeleteRefines(items, name, net);
  }

  lemma AskingMatch(rq: Request)
    requires Asks(rq).Some?
    ensures IsProtectedPath(rq.path)
    ensures Match(rq.path) == if rq.path == MANAGED_SERVICES then Collection else Handler.Item
  {
    if rq.path == MANAGED_SERVICES {
      CollectionRoute();
    } else {
      ItemPathRoute(rq.path, TrimPrefix(rq.path, ITEM_PREFIX));
    }
  }

  lemma AskingClean(rq: Request)
    requires Asks(rq).Some?
    ensures !Redirected(rq.verb, rq.path)
  {
    if rq.path == MANAGED_SERVICES {
      CollectionClean(rq.verb, rq.path);
    } else {
      ItemClean(rq.verb, rq.path, TrimPrefix(rq.path, ITEM_PREFIX));
    }
  }

  lemma CollectionPerforms(items: Contents, rq: Request, net: Net, op: Op)
    requires Asks(rq) == Some(op) && rq.path == MANAGED_SERVICES
    ensures CollectionExchange(items, rq, net) == Perform(items, rq, net, op)
  {
  }

  lemma ItemPerforms(items: Contents, rq: Request, net: Net, op: Op)
    requires Asks(rq) == Some(op) && rq.path != MANAGED_SERVICES
    ensures ItemExchange(items, rq, net) == Perform(items, rq, net, op)
  {
  }

  lemma RoutedPerforms(items: Contents, rq: Request, net: Net, op: Op)
    requires Asks(rq) == Some(op)
    ensures Routed(items, rq, net) == Perform(items, rq, net, op)
  {
    AskingMatch(rq);
    if rq.path == MANAGED_SERVICES {
      CollectionPerforms(items, rq, net, op);
    } else {
      ItemPerforms(items, rq, net, op);
    }
  }

  /** A request that is let through and asks something gets it performed. */
  lemma ServePerforms(token: string, items: Contents, rq: Request, net: Net, op: Op)
    requires Meaning(token, rq) == Some(op)
    ensures Serve(token, items, rq, net) == Perform(items, rq, net, op)
  {
    AskingClean(rq);
    RoutedPerforms(items, rq, net, op);
  }

  /** A request that asks nothing of the map leaves the store alone and unasked. */
  predicate Keeps(items: Contents, x: Exchange) {
    x.items == items && x.response.code !in {201, 204} && x.call.None?
  }

  lemma CollectionKeeps(items: Contents, rq: Request, net: Net)
    requires rq.path == MANAGED_SERVICES && Asks(rq).None?
    ensures Keeps(items, CollectionExchange(items, rq, net))
  {
  }

  lemma ItemKeeps(items: Contents, rq: Request, net: Net)
    requires Match(rq.path) == Handler.Item && Asks(rq).None?
    ensures Keeps(items, ItemExchange(items, rq, net))
  {
    PrefixRoute(rq.path);
  }

  lemma RoutedKeeps(items: Contents, rq: Request, net: Net)
    requires Asks(rq).None?
    ensures Keeps(items, Routed(items, rq, net))
  {
    match Match(rq.path)
    case Collection => CollectionKeeps(items, rq, net);
    case Item => ItemKeeps(items, rq, net);
    case _ =>
  }

  lemma MeaninglessKeeps(token: string, items: Contents, rq: Request, net: Net)
    requires Meaning(token, rq).None?
    ensures Keeps(items, Serve(token, items, rq, net))
  {
    if Asks(rq).None? {
      RoutedKeeps(items, rq, net);
    } else {
      AskingMatch(rq);
    }
  }

  /** Every request is an operation on the map or none at all. */
  lemma ServeRefines(token: string, items: Contents, rq: Request, net: Net)
    ensures var x, op := Serve(token, items, rq, net), Meaning(token, rq);
      if op.Some? then Refines(items, op.value, net, x) else Keeps(items, x)
  {
    var op := Meaning(token, rq);
    if op.Some? {
      ServePerforms(token, items, rq, net, op.value);
      PerformRefines(items, rq, net, op.value);
    } else {
      MeaninglessKeeps(token, items, rq, net);
    }
  }

  // ----- Which requests reach the store

  /** The store call that an operation comes down to. */
  function CallOf(op: Op): StoreCall {
    match op
    case CreateOp(name, _) => CreateCall(name)
    case ListOp => ListCall
    case GetOp(name) => GetCall(name)
    case DeleteOp(name) => DeleteCall(name)
  }

  lemma PerformCalls(items: Contents, rq: Request, net: Net, op: Op)
    requires Asks(rq) == Some(op)
    ensures Perform(items, rq, net, op).call == Some(CallOf(op))
  {
  }

  /** The store is called for what the request means and for nothing else. */
  lemma ServeCalls(token: string, items: Contents, rq: Request, net: Net)
    ensures var call, op := Serve(token, items, rq, net).call, Meaning(token, rq);
      call == if op.Some? then Some(CallOf(op.value)) else None
  {
    var op := Meaning(token, rq);
    if op.Some? {
      ServePerforms(token, items, rq, net, op.value);
      PerformCalls(items, rq, net, op.value);
    } else {
      MeaninglessKeeps(token, items, rq, net);
    }
  }

  /** Exactly which requests ask the store for a name; its path is behind the gate and has the item label. */
  lemma ItemReached(token: string, items: Contents, rq: Request, net: Net, name: string)
    ensures var call := Serve(token, items, rq, net).call;
      && (call == Some(GetCall(name)) <==> Admitted(token, rq) && ItemPath(rq.path, name) && rq.verb == "GET")
      && (call == Some(DeleteCall(name)) <==> Admitted(token, rq) && ItemPath(rq.path, name) && rq.verb == "DELETE")
      && (call == Some(GetCall(name)) || call == Some(DeleteCall(name)) ==>
            IsProtectedPath(rq.path) && SafeRoute(NormalizeRoute(rq.path)) == ITEM_TEMPLATE)
  {
    ServeCalls(token, items, rq, net);
    ItemAsked(rq, name);
    if ItemPath(rq.path, name) {
      RouteLabels(rq.path);
      ItemPathRoute(rq.path, name);
    }
  }

  lemma ItemAsked(rq: Request, name: string)
    ensures Asks(rq) == Some(GetOp(name)) <==> rq.query == "" && ItemPath(rq.path, name) && rq.verb == "GET"
    ensures Asks(rq) == Some(DeleteOp(name)) <==> rq.query == "" && ItemPath(rq.path, name) && rq.verb == "DELETE"
  {
    if ItemPath(rq.path, name) {
      ItemPathRoute(rq.path, name);
      assert |rq.path| > |ITEM_PREFIX| > |MANAGED_SERVICES|;
    }
  }

  /** Exactly which requests list or create. */
  lemma CollectionReached(token: string, items: Contents, rq: Request, net: Net, name: string)
    ensures var call := Serve(token, items, rq, net).call;
      && (call == Some(ListCall) <==> Admitted(token, rq) && rq.path == MANAGED_SERVICES && rq.verb == "GET")
      && (call == Some(CreateCall(name)) <==>
            Admitted(token, rq) && rq.path == MANAGED_SERVICES && rq.verb == "POST"
            && Acceptable(rq.payload) && rq.payload.name == name)
  {
    ServeCalls(token, items, rq, net);
  }

  /** A write whose answer was lost: it was applied, and it changed the map. */
  predicate AnswerLost(m: Model, op: Option<Op>, net: Net) {
    op.Some? && net.fault.Some? && net.fault.value.applied && After(m, op.value) != m
  }

  lemma CreateChanges(items: Contents, p: Payload, net: Net, op: Op)
    requires Acceptable(p) && op == CreateOp(p.name, Entry(RequestedReplicas(p), p.message))
    ensures var x := CreateExchange(items, p, net);
      x.items != items <==> x.response.code in {201, 204} || AnswerLost(ModelOf(items), Some(op), net)
  {
    NamesKeys(items, p.name);
    if p.name !in ModelOf(items) { assert p.name in After(ModelOf(items), op); }
  }

  lemma DeleteChanges(items: Contents, name: string, net: Net)
    ensures var x := DeleteExchange(items, name, net);
      x.items != items <==> x.response.code in {201, 204} || AnswerLost(ModelOf(items), Some(DeleteOp(name)), net)
  {
    NamesKeys(items, name);
    if KeyOf(name) in items {
      assert KeyOf(name) !in items - {KeyOf(name)};
    } else {
      assert items - {KeyOf(name)} == items;
      assert ModelOf(items) - {name} == ModelOf(items);
    }
  }

  /** The store changes on a 201, on a 204, and when the answer to a write was lost; never otherwise. */
  lemma ChangesExactly(token: string, items: Contents, rq: Request, net: Net)
    ensures var x := Serve(token, items, rq, net);
      x.items != items <==> x.response.code in {201, 204} || AnswerLost(ModelOf(items), Meaning(token, rq), net)
  {
    var op := Meaning(token, rq);
    if op.Some? {
      ServePerforms(token, items, rq, net, op.value);
      PerformChanges(items, rq, net, op.value);
    } else {
      MeaninglessKeeps(token, items, rq, net);
    }
  }

  lemma PerformChanges(items: Contents, rq: Request, net: Net, op: Op)
    requires Asks(rq) == Some(op)
    ensures var x := Perform(items, rq, net, op);
      x.items != items <==> x.response.code in {201, 204} || AnswerLost(ModelOf(items), Some(op), net)
  {
    match op
    case CreateOp(_, _) => CreateChanges(items, rq.payload, net, op);
    case DeleteOp(name) => DeleteChanges(items, name, net);
    case _ =>
  }

  /** No request touches an object of another namespace. */
  lemma OneNamespace(token: string, items: Contents, rq: Request, net: Net, key: Key)
    requires key.namespace != APPLICATIONS
    ensures var x := Serve(token, items, rq, net);
      (key in x.items <==> key in items) && (key in items ==> x.items[key] == items[key])
  {
    var op := Meaning(token, rq);
    if op.Some? {
      ServePerforms(token, items, rq, net, op.value);
      PerformElsewhere(items, rq, net, op.value, key);
    } else {
      MeaninglessKeeps(token, items, rq, net);
    }
  }

  lemma PerformElsewhere(items: Contents, rq: Request, net: Net, op: Op, key: Key)
    requires key.namespace != APPLICATIONS
    ensures var x := Perform(items, rq, net, op);
      (key in x.items <==> key in items) && (key in items ==> x.items[key] == items[key])
  {
  }

  // ----- Runs: requests, with the operator and other clients writing in between

  /** `OtherWrite` is another client's create, edit (both `Some`) or delete (`None`) past the API. */
  datatype ApiEvent =
    | Api(rq: Request, net: Net)
    | StatusWrite(key: Key, status: Status)
    | OtherWrite(key: Key, ms: Option<ManagedService>)

  /** The schema of the custom resource (api/v1alpha1/managedservice_types.go, lines 30-70). */
  predicate Schema(spec: Spec) {
    spec.template == DEMO_HTTP && (spec.replicas.Some? ==> 1 <= spec.replicas.value <= 3) && |spec.message| <= 120
  }

  /** The API server refuses what the schema does not admit. */
  predicate Accepted(ms: Option<ManagedService>) { ms.None? || Schema(ms.value.CurrentSpec()) }

  ghost function Next(token: string, items: Contents, e: ApiEvent): Contents {
    match e
    case Api(rq, net) => Serve(token, items, rq, net).items
    case StatusWrite(key, status) => if key in items then items[key := items[key].(status := status)] else items
    case OtherWrite(key, ms) =>
      if !Accepted(ms) then items else if ms.None? then items - {key} else items[key := ms.value]
  }

  ghost function Run(token: string, items: Contents, es: seq<ApiEvent>): Contents
    decreases |es|
  {
    if es == [] then items else Next(token, Run(token, items, es[..|es| - 1]), es[|es| - 1])
  }

  /** The operation that an event performs on the map, if any. */
  function Effect(token: string, e: ApiEvent): Option<Op> {
    if e.Api? && Lands(e.net) then Meaning(token, e.rq) else None
  }

  function ModelNext(token: string, m: Model, e: ApiEvent): Model {
    if Effect(token, e).Some? then After(m, Effect(token, e).value)
    else if e.OtherWrite? && e.key.namespace == APPLICATIONS && Accepted(e.ms) then
      if e.ms.None? then m - {e.key.name} else m[e.key.name := EntryOf(e.ms.value)]
    else m
  }

  function ModelRun(token: string, m: Model, es: seq<ApiEvent>): Model
    decreases |es|
  {
    if es == [] then m else ModelNext(token, ModelRun(token, m, es[..|es| - 1]), es[|es| - 1])
  }

  /** A request moves the map by its operation, if it lands. */
  lemma ApiRefines(token: string, items: Contents, rq: Request, net: Net)
    ensures var op := Meaning(token, rq);
      ModelOf(Serve(token, items, rq, net).items)
      == if op.Some? && Lands(net) then After(ModelOf(items), op.value) else ModelOf(items)
  {
    ServeRefines(token, items, rq, net);
  }

  /** A status is not in the map. */
  lemma StatusRefines(items: Contents, key: Key, status: Status)
    requires key in items
    ensures ModelOf(items[key := items[key].(status := status)]) == ModelOf(items)
  {
    var ms := items[key].(status := status);
    ModelPut(items, key, ms);
    NamesKeys(items, key.name);
    assert EntryOf(ms) == EntryOf(items[key]);
  }

  lemma NextRefines(token: string, items: Contents, e: ApiEvent)
    ensures ModelOf(Next(token, items, e)) == ModelNext(token, ModelOf(items), e)
  {
    match e
    case Api(rq, net) => ApiRefines(token, items, rq, net);
    case StatusWrite(key, status) => if key in items { StatusRefines(items, key, status); }
    case OtherWrite(key, ms) =>
      if ms.None? {
        ModelDrop(items, key);
      } else {
        ModelPut(items, key, ms.value);
      }
  }

  /**
   However requests, status writes and the writes of other clients interleave, the API is a map from names to
   replicas and messages.
   */
  lemma {:induction false} RunRefines(token: string, items: Contents, es: seq<ApiEvent>)
    ensures ModelOf(Run(token, items, es)) == ModelRun(token, ModelOf(items), es)
    decreases |es|
  {
    if es != [] {
      RunRefines(token, items, es[..|es| - 1]);
      NextRefines(token, Run(token, items, es[..|es| - 1]), es[|es| - 1]);
    }
  }

  /** The event deletes the name, or another client writes it. */
  predicate Touches(token: string, e: ApiEvent, name: string) {
    Effect(token, e) == Some(DeleteOp(name)) || (e.OtherWrite? && e.key == KeyOf(name))
  }

  /** The event creates the name, or another client writes it. */
  predicate Makes(token: string, e: ApiEvent, name: string) {
    || (Effect(token, e).Some? && Effect(token, e).value.CreateOp? && Effect(token, e).value.name == name)
    || (e.OtherWrite? && e.key == KeyOf(name))
  }

  /** An entry stays as it was created until an event touches its name. */
  lemma {:induction false} EntryStays(token: string, m: Model, es: seq<ApiEvent>, name: string)
    requires name in m && forall e | e in es :: !Touches(token, e, name)
    ensures name in ModelRun(token, m, es) && ModelRun(token, m, es)[name] == m[name]
    decreases |es|
  {
    if es != [] {
      assert forall e | e in es[..|es| - 1] :: e in es;
      EntryStays(token, m, es[..|es| - 1], name);
      assert es[|es| - 1] in es;
    }
  }

  /** A missing entry stays missing until an event makes it. */
  lemma {:induction false} EntryStaysAway(token: string, m: Model, es: seq<ApiEvent>, name: string)
    requires name !in m && forall e | e in es :: !Makes(token, e, name)
    ensures name !in ModelRun(token, m, es)
    decreases |es|
  {
    if es != [] {
      assert forall e | e in es[..|es| - 1] :: e in es;
      EntryStaysAway(token, m, es[..|es| - 1], name);
      assert es[|es| - 1] in es;
    }
  }

  /** The request gets the name, and the call does not fail. */
  predicate Gets(token: string, get: Request, net: Net, name: string) {
    Admitted(token, get) && get.verb == "GET" && ItemPath(get.path, name) && net.fault.None?
  }

  lemma GetAnswers(token: string, items: Contents, get: Request, net: Net, name: string)
    requires Gets(token, get, net, name)
    ensures var x, m := Serve(token, items, get, net), ModelOf(items);
      if name in m then x.response.code == 200 && x.response.body.OneOf?
                        && x.response.body.view.name == name && Shows(x.response.body.view, m)
      else x.response == Missing()
  {
    ItemPathRoute(get.path, name);
    assert get.path != MANAGED_SERVICES by { assert |get.path| > |MANAGED_SERVICES|; }
    ServePerforms(token, items, get, net, GetOp(name));
    GetRefines(items, name, net);
    NamesKeys(items, name);
  }

  /** `created`, `later` are the stores after the create and before the get. */
  lemma CreateThenGet(
    token: string, items: Contents, create: Request, net: Net, created: Contents, es: seq<ApiEvent>, later: Contents,
    get: Request, getNet: Net)
    requires Serve(token, items, create, net).response.code == 201 && created == Serve(token, items, create, net).items
    requires later == Run(token, created, es)
    requires create.payload.Decoded? ==>
      && (forall e | e in es :: !Touches(token, e, create.payload.name))
      && Gets(token, get, getNet, create.payload.name)
    ensures create.payload.Decoded?
    ensures var response := Serve(token, later, get, getNet).response;
      && response.code == 200 && response.body.OneOf?
      && response.body.view.name == create.payload.name
      && response.body.view.replicas == RequestedReplicas(create.payload)
      && response.body.view.message == create.payload.message
  {
    CreatedMeans(token, items, create, net);
    var name := create.payload.name;
    RunRefines(token, created, es);
    EntryStays(token, ModelOf(created), es, name);
    GetAnswers(token, later, get, getNet, name);
  }

  lemma CreatedMeans(token: string, items: Contents, create: Request, net: Net)
    requires Serve(token, items, create, net).response.code == 201
    ensures Acceptable(create.payload)
    ensures var m := ModelOf(Serve(token, items, create, net).items);
      create.payload.name in m && m[create.payload.name] == Entry(RequestedReplicas(create.payload), create.payload.message)
  {
    var op := Meaning(token, create);
    if op.None? {
      MeaninglessKeeps(token, items, create, net);
    } else {
      ServePerforms(token, items, create, net, op.value);
      PerformRefines(items, create, net, op.value);
      RefinedCreate(items, op.value, net, Perform(items, create, net, op.value));
    }
  }

  /** Only a create is answered 201. */
  lemma RefinedCreate(items: Contents, op: Op, net: Net, x: Exchange)
    requires Refines(items, op, net, x) && x.response.code == 201
    ensures op.CreateOp? && ModelOf(x.items) == ModelOf(items)[op.name := op.entry]
  {
  }

  /** A deleted service is not found until it is made again. */
  lemma DeleteThenGet(
    token: string, items: Contents, delete: Request, net: Net, deleted: Contents, es: seq<ApiEvent>, later: Contents,
    name: string, get: Request, getNet: Net)
    requires Serve(token, items, delete, net).response.code == 204 && deleted == Serve(token, items, delete, net).items
    requires ItemPath(delete.path, name) && later == Run(token, deleted, es)
    requires forall e | e in es :: !Makes(token, e, name)
    requires Gets(token, get, getNet, name)
    ensures KeyOf(name) in items && KeyOf(name) !in deleted
    ensures Serve(token, later, get, getNet).response == Missing()
  {
    DeletedMeans(token, items, delete, net, name);
    NamesKeys(items, name);
    NamesKeys(deleted, name);
    RunRefines(token, deleted, es);
    EntryStaysAway(token, ModelOf(deleted), es, name);
    GetAnswers(token, later, get, getNet, name);
  }

  lemma DeletedMeans(token: string, items: Contents, delete: Request, net: Net, name: string)
    requires Serve(token, items, delete, net).response.code == 204 && ItemPath(delete.path, name)
    ensures name in ModelOf(items) && name !in ModelOf(Serve(token, items, delete, net).items)
  {
    ItemPathRoute(delete.path, name);
    assert delete.path != MANAGED_SERVICES by { assert |delete.path| > |MANAGED_SERVICES|; }
    ServeRefines(token, items, delete, net);
  }

  // ----- What gets stored

  ghost predicate Schematic(items: Contents) {
    forall key | key in items :: Schema(items[key].CurrentSpec())
  }

  lemma PerformSchematic(items: Contents, rq: Request, net: Net, op: Op)
    requires Schematic(items) && Asks(rq) == Some(op)
    ensures Schematic(Perform(items, rq, net, op).items)
  {
  }

  lemma ServeSchematic(token: string, items: Contents, rq: Request, net: Net)
    requires Schematic(items)
    ensures Schematic(Serve(token, items, rq, net).items)
  {
    var op := Meaning(token, rq);
    if op.Some? {
      ServePerforms(token, items, rq, net, op.value);
      PerformSchematic(items, rq, net, op.value);
    } else {
      MeaninglessKeeps(token, items, rq, net);
    }
  }

  lemma NextSchematic(token: string, items: Contents, e: ApiEvent)
    requires Schematic(items)
    ensures Schematic(Next(token, items, e))
  {
    if e.Api? { ServeSchematic(token, items, e.rq, e.net); }
  }

  /** The handler lets nothing through that the schema would refuse. */
  lemma {:induction false} RunSchematic(token: string, items: Contents, es: seq<ApiEvent>)
    requires Schematic(items)
    ensures Schematic(Run(token, items, es))
    decreases |es|
  {
    if es != [] {
      RunSchematic(token, items, es[..|es| - 1]);
      NextSchematic(token, Run(token, items, es[..|es| - 1]), es[|es| - 1]);
    }
  }
}
