/**
  `fastapi_module/controller.py`: `_init_controller` (the initializer rewrite
  behind the `__controller_class__` sentinel), the endpoint-signature patch,
  and `_controller`, which moves the class's routes to the end of the router.
 */
module Controller {
  import opened Host
  import opened Seqs
  import opened InitRewrite

  const ControllerAttr := "__controller_class__"

  /** `getattr(cls, "__controller_class__", False)` is truthy. */
  predicate Marked(attrs: map<string, Value>) {
    Truthy(GetAttr(attrs, ControllerAttr, BoolValue(false)))
  }

  /**
    `_init_controller`: a marked class is left as it is; otherwise the
    initializer and `__signature__` are rewritten as in utils.py and the class
    is marked with `True`.
   */
  method InitController(cls: PyClass)
    modifies cls
    ensures old(Marked(cls.attrs)) ==> unchanged(cls)
    ensures !old(Marked(cls.attrs)) ==>
      && cls.init == Wrapped(DepNames(cls.hints), old(cls.init))
      && cls.signature == Some(NewParams(InitSignature(old(cls.init)), cls.hints, old(cls.attrs)))
      && cls.attrs == old(cls.attrs)[ControllerAttr := BoolValue(true)]
  {
    if Marked(cls.attrs) {
      return;
    }
    var oldInit := cls.init;
    var newParams, depNames := BuildSignature(InitSignature(oldInit), cls.hints, cls.attrs);
    cls.init := Wrapped(depNames, oldInit);
    cls.signature := Some(newParams);
    cls.attrs := cls.attrs[ControllerAttr := BoolValue(true)];
  }

  /** A second `_init_controller` is a no-op: the initializer and `__signature__` are rewritten once. */
  method InitControllerTwice(cls: PyClass)
    modifies cls
    ensures old(Marked(cls.attrs)) ==> unchanged(cls)
    ensures !old(Marked(cls.attrs)) ==>
      && cls.init == Wrapped(DepNames(cls.hints), old(cls.init))
      && cls.signature == Some(NewParams(InitSignature(old(cls.init)), cls.hints, old(cls.attrs)))
      && cls.attrs == old(cls.attrs)[ControllerAttr := BoolValue(true)]
  {
    InitController(cls);
    InitController(cls);
  }

  // ---------------------------------------------------------------------
  // Endpoint-signature patch
  // ---------------------------------------------------------------------

  /** The endpoint parameters the patch accepts: there is a first one, and it may take a default. */
  predicate Patchable(ps: seq<Param>) {
    ps != [] && !Variadic(ps[0])
  }

  /**
    `_update_controller_route_endpoint_signature` on the endpoint's
    parameters: the first one defaults to `Depends(cls)`, every later one
    becomes keyword-only. `old_params[0]` on an empty list is an IndexError,
    and `Parameter.replace(default=...)` on a `*args` or `**kwargs` first
    parameter is a ValueError.
   */
  function PatchedSignature(cls: PyClass, ps: seq<Param>): Result<seq<Param>, Error> {
    if ps == [] then Err(IndexError)
    else if Variadic(ps[0]) then Err(ValueError)
    else Ok([ps[0].(default := Some(Depends(cls)))] + AllKeywordOnly(ps[1..]))
  }

  /** `[param.replace(kind=Parameter.KEYWORD_ONLY) for param in ps]`. */
  function AllKeywordOnly(ps: seq<Param>): (r: seq<Param>)
    ensures |r| == |ps|
    ensures forall i :: 0 <= i < |ps| ==> r[i] == ps[i].(kind := KeywordOnly)
  {
    if ps == [] then [] else [ps[0].(kind := KeywordOnly)] + AllKeywordOnly(ps[1..])
  }

  /**
    The patch keeps the number of parameters, every name and annotation, the
    first parameter's kind and every later parameter's default; it changes
    only the first default (to the `Depends(cls)` marker) and the later
    kinds (to keyword-only). It fails exactly on an endpoint without
    parameters (IndexError) or one whose first parameter is a catch-all
    (ValueError).
   */
  lemma PatchedSignatureSpec(cls: PyClass, ps: seq<Param>)
    ensures PatchedSignature(cls, ps).Ok? <==> Patchable(ps)
    ensures ps == [] ==> PatchedSignature(cls, ps) == Err(IndexError)
    ensures ps != [] && Variadic(ps[0]) ==> PatchedSignature(cls, ps) == Err(ValueError)
    ensures PatchedSignature(cls, ps).Ok? ==>
      var r := PatchedSignature(cls, ps).value;
      && |r| == |ps|
      && (forall i :: 0 <= i < |ps| ==> r[i].name == ps[i].name && r[i].annotation == ps[i].annotation)
      && r[0].kind == ps[0].kind && r[0].default == Some(Depends(cls))
      && (forall i :: 1 <= i < |ps| ==> r[i].kind == KeywordOnly && r[i].default == ps[i].default)
  {
  }

  /** Patching an already patched endpoint changes nothing, so an endpoint registered under several routes ends up patched once. */
  lemma PatchIdempotent(cls: PyClass, ps: seq<Param>)
    requires PatchedSignature(cls, ps).Ok?
    ensures PatchedSignature(cls, PatchedSignature(cls, ps).value) == PatchedSignature(cls, ps)
  {
    var r := PatchedSignature(cls, ps).value;
    var rr := PatchedSignature(cls, r).value;
    assert |rr| == |r| == |ps|;
    forall i | 0 <= i < |r| ensures rr[i] == r[i] {
      if i == 0 {
        assert r[0] == ps[0].(default := Some(Depends(cls)));
      } else {
        assert r[i] == ps[i].(kind := KeywordOnly);
        assert rr[i] == r[i].(kind := KeywordOnly);
      }
    }
    assert rr == r;
  }

  /**
    `_update_controller_route_endpoint_signature(cls, route)`: reads the
    endpoint's signature and sets the patched one on the endpoint; an endpoint
    the patch rejects raises before anything is set.
   */
  method UpdateEndpointSignature(cls: PyClass, route: RouteEntry) returns (r: Result<(), Error>)
    modifies route.endpoint
    ensures r.Ok? ==> PatchedSignature(cls, old(route.endpoint.signature)) == Ok(route.endpoint.signature)
    ensures r.Err? ==> PatchedSignature(cls, old(route.endpoint.signature)) == Err(r.error) && unchanged(route.endpoint)
  {
    var patched := PatchedSignature(cls, route.endpoint.signature);
    if patched.Err? {
      return Err(patched.error);
    }
    route.endpoint.signature := patched.value;
    r := Ok(());
  }

  // ---------------------------------------------------------------------
  // Route migration
  // ---------------------------------------------------------------------

  /** The routes `_controller` moves: a `Route` or `WebSocketRoute` whose endpoint is one of the class's functions. */
  predicate Owned(funcs: set<PyFunction>, e: RouteEntry) {
    (e.kind == HttpRoute || e.kind == WebSocketRoute) && e.endpoint in funcs
  }

  function OwnedBy(funcs: set<PyFunction>): RouteEntry -> bool {
    (e: RouteEntry) => Owned(funcs, e)
  }

  /**
    The list comprehension `routes` of `_controller`: the owned routes, in
    router order. This is `Filter(OwnedBy(funcs), routes)` (MigratedIsFilter),
    and `Unmigrated` below is `Drop` (UnmigratedIsDrop); they are spelled out
    over `Owned` so the loop proofs need not unfold the predicate closure.
   */
  function Migrated(routes: seq<RouteEntry>, funcs: set<PyFunction>): seq<RouteEntry> {
    if routes == [] then []
    else (if Owned(funcs, routes[0]) then [routes[0]] else []) + Migrated(routes[1..], funcs)
  }

  /** What stays in the router after the migrated routes are removed. */
  function Remaining(routes: seq<RouteEntry>, funcs: set<PyFunction>): seq<RouteEntry> {
    Filter(Not(OwnedBy(funcs)), routes)
  }

  /**
    The router's route list once the first `n` migrated routes have each been
    taken out with `list.remove` (see `Migrated` for why it is not `Drop`).
   */
  function Unmigrated(routes: seq<RouteEntry>, funcs: set<PyFunction>, n: nat): seq<RouteEntry> {
    if routes == [] then []
    else if Owned(funcs, routes[0]) && n > 0 then Unmigrated(routes[1..], funcs, n - 1)
    else [routes[0]] + Unmigrated(routes[1..], funcs, n)
  }

  lemma {:induction false} MigratedIsFilter(routes: seq<RouteEntry>, funcs: set<PyFunction>)
    ensures Migrated(routes, funcs) == Filter(OwnedBy(funcs), routes)
  {
    if routes != [] {
      MigratedIsFilter(routes[1..], funcs);
      assert OwnedBy(funcs)(routes[0]) == Owned(funcs, routes[0]);
    }
  }

  lemma {:induction false} UnmigratedIsDrop(routes: seq<RouteEntry>, funcs: set<PyFunction>, n: nat)
    ensures Unmigrated(routes, funcs, n) == Drop(OwnedBy(funcs), routes, n)
  {
    if routes != [] {
      assert OwnedBy(funcs)(routes[0]) == Owned(funcs, routes[0]);
      if Owned(funcs, routes[0]) && n > 0 {
        UnmigratedIsDrop(routes[1..], funcs, n - 1);
      } else {
        UnmigratedIsDrop(routes[1..], funcs, n);
      }
    }
  }

  /**
    Round `i` of the loop: the route it takes is owned, is still in the
    router, and removing it leaves the router with one more migrated route
    taken out. Before any round nothing is taken out; after the last, exactly
    the remaining routes are left, in order.
   */
  lemma MigrateStep(routes: seq<RouteEntry>, funcs: set<PyFunction>, i: nat)
    requires i < |Migrated(routes, funcs)|
    ensures Owned(funcs, Migrated(routes, funcs)[i])
    ensures Migrated(routes, funcs)[i] in Unmigrated(routes, funcs, i)
    ensures RemoveFirst(Unmigrated(routes, funcs, i), Migrated(routes, funcs)[i]) == Unmigrated(routes, funcs, i + 1)
  {
    MigratedIsFilter(routes, funcs);
    UnmigratedIsDrop(routes, funcs, i);
    UnmigratedIsDrop(routes, funcs, i + 1);
    RemoveNext(OwnedBy(funcs), routes, i);
  }

  lemma UnmigratedEnds(routes: seq<RouteEntry>, funcs: set<PyFunction>)
    ensures Unmigrated(routes, funcs, 0) == routes
    ensures Unmigrated(routes, funcs, |Migrated(routes, funcs)|) == Remaining(routes, funcs)
  {
    MigratedIsFilter(routes, funcs);
    UnmigratedIsDrop(routes, funcs, 0);
    UnmigratedIsDrop(routes, funcs, |Migrated(routes, funcs)|);
    DropNone(OwnedBy(funcs), routes);
    DropAll(OwnedBy(funcs), routes);
  }

  function Endpoints(es: seq<RouteEntry>): set<PyFunction> {
    if es == [] then {} else Endpoints(es[..|es| - 1]) + {es[|es| - 1].endpoint}
  }

  lemma EndpointsStep(es: seq<RouteEntry>, i: nat)
    requires i < |es|
    ensures es[..i + 1] == es[..i] + [es[i]]
    ensures Endpoints(es[..i + 1]) == Endpoints(es[..i]) + {es[i].endpoint}
  {
    assert es[..i + 1][..i] == es[..i];
  }

  lemma {:induction false} EndpointsHas(es: seq<RouteEntry>, i: nat)
    requires i < |es|
    ensures es[i].endpoint in Endpoints(es)
  {
    if i < |es| - 1 {
      EndpointsHas(es[..|es| - 1], i);
    }
  }

  /**
    The migrated routes are exactly the owned ones and the remaining routes
    exactly the others, each keeping the router's relative order; together
    they are a permutation of the router's routes, and so is the final route
    list when the router has no prefix.
   */
  lemma MigrationPartition(routes: seq<RouteEntry>, funcs: set<PyFunction>)
    ensures forall e :: e in Migrated(routes, funcs) <==>
      e in routes && (e.kind == HttpRoute || e.kind == WebSocketRoute) && e.endpoint in funcs
    ensures forall e :: e in Remaining(routes, funcs) <==>
      e in routes && !((e.kind == HttpRoute || e.kind == WebSocketRoute) && e.endpoint in funcs)
    ensures IsSubseq(Migrated(routes, funcs), routes) && IsSubseq(Remaining(routes, funcs), routes)
    ensures multiset(Remaining(routes, funcs) + Rehome("", Migrated(routes, funcs))) == multiset(routes)
  {
    var p := OwnedBy(funcs);
    MigratedIsFilter(routes, funcs);
    FilterKeeps(p, routes);
    FilterKeeps(Not(p), routes);
    FilterIsSubseq(p, routes);
    FilterIsSubseq(Not(p), routes);
    FilterPartition(p, routes);
    RehomeEmptyPrefix(Migrated(routes, funcs));
    assert forall e :: Not(p)(e) == !p(e);
  }

  /**
    The endpoints of the class have, compared with the signatures in `sig0`,
    been patched exactly when they are in `done`.
   */
  ghost predicate PatchedExactly(cls: PyClass, sig0: map<PyFunction, seq<Param>>, done: set<PyFunction>)
    reads cls.functions
  {
    forall f :: f in cls.functions ==>
      f in sig0 && if f in done then PatchedSignature(cls, sig0[f]) == Ok(f.signature) else f.signature == sig0[f]
  }

  /** The signatures of `fs` in the current state. */
  ghost function Signatures(fs: set<PyFunction>): (m: map<PyFunction, seq<Param>>)
    reads fs
    ensures forall f :: f in fs ==> f in m && m[f] == f.signature
  {
    map f | f in fs :: f.signature
  }

  /**
    One round of the loop of `_controller`: the route is removed from the
    router, its endpoint patched and the route appended to the internal
    router. Patching an endpoint that was patched before changes nothing; an
    endpoint the patch rejects stops with the patch's error after the removal
    and before the append.
   */
  method MoveRoute(router: Router, internal: Router, cls: PyClass, route: RouteEntry,
                   ghost sig0: map<PyFunction, seq<Param>>, ghost done: set<PyFunction>)
    returns (r: Result<(), Error>)
    requires router != internal && route in router.routes
    requires route.endpoint in cls.functions && PatchedExactly(cls, sig0, done)
    modifies router, internal, route.endpoint
    ensures router.routes == RemoveFirst(old(router.routes), route)
    ensures r.Ok? ==>
      && internal.routes == old(internal.routes) + [route]
      && PatchedExactly(cls, sig0, done + {route.endpoint})
    ensures r.Err? ==>
      && route.endpoint in sig0 && PatchedSignature(cls, sig0[route.endpoint]) == Err(r.error)
      && internal.routes == old(internal.routes)
      && PatchedExactly(cls, sig0, done)
  {
    router.routes := RemoveFirst(router.routes, route);
    var f := route.endpoint;
    if f in done {
      PatchIdempotent(cls, sig0[f]);
    }
    r := UpdateEndpointSignature(cls, route);
    if r.Ok? {
      internal.routes := internal.routes + [route];
    }
  }

  /**
    The loop `for route in routes` of `_controller`, over the owned routes of
    the router: routes are moved one round at a time until all are in the
    internal router or a patch fails, `k` being the number of rounds that
    completed.
   */
  method MoveRoutes(router: Router, internal: Router, cls: PyClass, routes: seq<RouteEntry>,
                    ghost sig0: map<PyFunction, seq<Param>>)
    returns (r: Result<(), Error>, ghost k: nat)
    requires router != internal && internal.routes == []
    requires routes == Migrated(router.routes, cls.functions)
    requires PatchedExactly(cls, sig0, {})
    modifies router, internal, cls.functions
    ensures r.Ok? ==>
      && k == |routes|
      && router.routes == Unmigrated(old(router.routes), cls.functions, k)
      && internal.routes == routes
      && PatchedExactly(cls, sig0, Endpoints(routes))
    ensures r.Err? ==>
      && k < |routes| && routes[k].endpoint in sig0 && PatchedSignature(cls, sig0[routes[k].endpoint]) == Err(r.error)
      && internal.routes == routes[..k]
      && router.routes == Unmigrated(old(router.routes), cls.functions, k + 1)
      && PatchedExactly(cls, sig0, Endpoints(routes[..k]))
  {
    ghost var s := router.routes;
    ghost var done: set<PyFunction> := {};
    UnmigratedEnds(s, cls.functions);
    for i := 0 to |routes|
      modifies router, internal, cls.functions
      invariant router.routes == Unmigrated(s, cls.functions, i)
      invariant internal.routes == routes[..i]
      invariant done == Endpoints(routes[..i])
      invariant PatchedExactly(cls, sig0, done)
    {
      MigrateStep(s, cls.functions, i);
      var route := routes[i];
      EndpointsStep(routes, i);
      var moved := MoveRoute(router, internal, cls, route, sig0, done);
      if moved.Err? {
        return moved, i;
      }
      done := done + {route.endpoint};
    }
    assert routes[..|routes|] == routes;
    r, k := Ok(()), |routes|;
  }


  /**
    What `_controller` does after `_init_controller`: the owned routes are
    collected, moved through the internal router, and the internal router is
    included back into the router (under the router's own prefix). A patch
    that fails stops with the routes taken so far removed and not re-added.
   */
  method MigrateRoutes(router: Router, cls: PyClass, ghost sig0: map<PyFunction, seq<Param>>)
    returns (r: Result<(), Error>, ghost k: nat)
    requires PatchedExactly(cls, sig0, {})
    modifies router, cls.functions
    ensures var s, M := old(router.routes), Migrated(old(router.routes), cls.functions);
      r.Ok? ==>
        && k == |M|
        && router.routes == Remaining(s, cls.functions) + Rehome(router.prefix, M)
        && PatchedExactly(cls, sig0, Endpoints(M))
    ensures var s, M := old(router.routes), Migrated(old(router.routes), cls.functions);
      r.Err? ==>
        && k < |M| && M[k].endpoint in sig0 && PatchedSignature(cls, sig0[M[k].endpoint]) == Err(r.error)
        && router.routes == Unmigrated(s, cls.functions, k + 1)
        && PatchedExactly(cls, sig0, Endpoints(M[..k]))
  {
    var internal := new Router("");
    var routes := Migrated(router.routes, cls.functions);
    r, k := MoveRoutes(router, internal, cls, routes, sig0);
    if r.Ok? {
      UnmigratedEnds(old(router.routes), cls.functions);
      router.IncludeRouter(internal);
    }
  }

  /**
    `_controller`: `_init_controller`, then the route migration above; the
    class itself is returned. `sig0` names the signatures the class's
    functions had before the call.
   */
  method Controller(router: Router, cls: PyClass) returns (r: Result<PyClass, Error>, ghost sig0: map<PyFunction, seq<Param>>)
    modifies router, cls, cls.functions
    ensures sig0 == old(Signatures(cls.functions))
    ensures old(Marked(cls.attrs)) ==> cls.init == old(cls.init) && cls.attrs == old(cls.attrs) && cls.signature == old(cls.signature)
    ensures !old(Marked(cls.attrs)) ==>
      && cls.init == Wrapped(DepNames(cls.hints), old(cls.init))
      && cls.signature == Some(NewParams(InitSignature(old(cls.init)), cls.hints, old(cls.attrs)))
      && cls.attrs == old(cls.attrs)[ControllerAttr := BoolValue(true)]
    ensures var M := Migrated(old(router.routes), cls.functions);
      r.Ok? <==> forall f :: f in cls.functions && f in Endpoints(M) ==> Patchable(sig0[f])
    ensures var s, M := old(router.routes), Migrated(old(router.routes), cls.functions);
      r.Ok? ==>
        && r.value == cls
        && router.routes == Remaining(s, cls.functions) + Rehome(router.prefix, M)
        && forall f :: f in cls.functions ==>
             if f in Endpoints(M) then PatchedSignature(cls, sig0[f]) == Ok(f.signature)
             else f.signature == sig0[f]
    ensures var s, M := old(router.routes), Migrated(old(router.routes), cls.functions);
      r.Err? ==>
        exists k :: 0 <= k < |M| && M[k].endpoint in cls.functions
             && !Patchable(sig0[M[k].endpoint])
             && r.error == (if sig0[M[k].endpoint] == [] then IndexError else ValueError)
             && router.routes == Unmigrated(s, cls.functions, k + 1)
             && forall f :: f in cls.functions ==>
                  if f in Endpoints(M[..k]) then PatchedSignature(cls, sig0[f]) == Ok(f.signature)
                  else f.signature == sig0[f]
  {
    sig0 := Signatures(cls.functions);
    InitController(cls);
    var moved, k := MigrateRoutes(router, cls, sig0);
    ghost var M := Migrated(old(router.routes), cls.functions);
    if moved.Err? {
      EndpointsHas(M, k);
      PatchedSignatureSpec(cls, sig0[M[k].endpoint]);
      return Err(moved.error), sig0;
    }
    forall f | f in cls.functions && f in Endpoints(M) ensures Patchable(sig0[f]) {
      PatchedSignatureSpec(cls, sig0[f]);
    }
    r := Ok(cls);
  }
}
