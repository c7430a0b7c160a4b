/**
  `fastapi_module/module.py`: `_module`, which turns a class into a module —
  a one-shot `__fastapi_module__` sentinel that raises on reuse, a check of
  every controller before anything is built, and one router of its own that
  includes the controllers' routers in argument order. `module(prefix,
  controllers=...)` only curries `_module` and is not modelled apart.
 */
module ModuleDecorator {
  import opened Host

  const ModuleAttr := "__fastapi_module__"
  const ControllerFlag := "__fastapi_controller__"
  const RouterAttr := "router"

  /** The three attribute names are different, so setting one leaves the others as they were. */
  lemma AttrNamesDistinct()
    ensures ModuleAttr != ControllerFlag && ModuleAttr != RouterAttr && ControllerFlag != RouterAttr
  {
    assert |ModuleAttr| == 18 && |ControllerFlag| == 22 && |RouterAttr| == 6;
  }

  /** Marking a class as a module does not change what the validation loop reads of it. */
  lemma MarkKeepsProbe(attrs: map<string, Value>, v: Value)
    ensures Lookup(attrs[ModuleAttr := v], ControllerFlag) == Lookup(attrs, ControllerFlag)
    ensures Lookup(attrs[ModuleAttr := v], RouterAttr) == Lookup(attrs, RouterAttr)
  {
    AttrNamesDistinct();
  }

  /** `getattr(cls, "__fastapi_module__", False)` is truthy. */
  predicate Marked(attrs: map<string, Value>) {
    Truthy(GetAttr(attrs, ModuleAttr, BoolValue(false)))
  }

  /** `getattr(obj, name)` without a default: the value, or None when it raises AttributeError. */
  function Lookup(attrs: map<string, Value>, name: string): Option<Value> {
    if name in attrs then Some(attrs[name]) else None
  }

  /** What the validation loop reads of one controller: its flag and its `router`. */
  datatype Probe = Probe(flag: Option<Value>, router: Option<Value>)

  function ProbeOf(c: PyClass): Probe
    reads c
  {
    Probe(Lookup(c.attrs, ControllerFlag), Lookup(c.attrs, RouterAttr))
  }

  /** The probes of `cs`, in order. */
  function Probes(cs: seq<PyClass>): (r: seq<Probe>)
    reads cs
    ensures |r| == |cs|
    ensures forall i :: 0 <= i < |cs| ==> r[i] == ProbeOf(cs[i])
  {
    if cs == [] then [] else Probes(cs[..|cs| - 1]) + [ProbeOf(cs[|cs| - 1])]
  }

  /** A controller passes both assertions: a truthy flag and an `APIRouter` as `router`. */
  predicate Passes(p: Probe) {
    p.flag.Some? && Truthy(p.flag.value) && p.router.Some? && p.router.value.RouterValue?
  }

  /**
    The two assertions of the validation loop for controller `c` whose probe
    is `p`. A missing attribute is looked up without a default, so it raises
    AttributeError, which `except AssertionError` does not catch; a falsy
    flag or a `router` that is not an `APIRouter` fails an assertion and
    becomes NotAController.
   */
  function CheckController(c: PyClass, p: Probe): (r: Option<Error>)
    ensures r.None? <==> Passes(p)
    ensures r == Some(AttributeError(c, ControllerFlag)) <==> p.flag.None?
    ensures r == Some(AttributeError(c, RouterAttr)) <==> p.flag.Some? && Truthy(p.flag.value) && p.router.None?
    ensures r == Some(NotAController(c)) <==>
      (p.flag.Some? && !Truthy(p.flag.value))
      || (p.flag.Some? && Truthy(p.flag.value) && p.router.Some? && !p.router.value.RouterValue?)
  {
    if p.flag.None? then Some(AttributeError(c, ControllerFlag))
    else if !Truthy(p.flag.value) then Some(NotAController(c))
    else if p.router.None? then Some(AttributeError(c, RouterAttr))
    else if !p.router.value.RouterValue? then Some(NotAController(c))
    else None
  }

  /**
    The exception of the validation loop over controllers `cs` with probes
    `ps`: that of the first controller that fails its check; none exactly
    when every controller passes.
   */
  function FirstOffence(cs: seq<PyClass>, ps: seq<Probe>): (r: Option<Error>)
    requires |ps| == |cs|
    ensures r.None? <==> forall i :: 0 <= i < |ps| ==> Passes(ps[i])
    ensures r.Some? ==> r.value.AttributeError? || r.value.NotAController?
  {
    if cs == [] then None
    else if CheckController(cs[0], ps[0]).Some? then CheckController(cs[0], ps[0])
    else
      assert forall i :: 1 <= i < |ps| ==> ps[i] == ps[1..][i - 1];
      FirstOffence(cs[1..], ps[1..])
  }

  /**
    What the validation loop raises is the failure of one controller, all
    controllers before it having passed.
   */
  lemma {:induction false} FirstOffenceSpec(cs: seq<PyClass>, ps: seq<Probe>)
    requires |ps| == |cs|
    ensures FirstOffence(cs, ps).Some? ==>
      exists k :: 0 <= k < |cs| && FirstOffence(cs, ps) == CheckController(cs[k], ps[k])
        && forall j :: 0 <= j < k ==> Passes(ps[j])
  {
    if cs != [] {
      FirstOffenceSpec(cs[1..], ps[1..]);
      if Passes(ps[0]) && FirstOffence(cs[1..], ps[1..]).Some? {
        var k :| 0 <= k < |cs[1..]| && FirstOffence(cs[1..], ps[1..]) == CheckController(cs[1..][k], ps[1..][k])
          && forall j :: 0 <= j < k ==> Passes(ps[1..][j]);
        assert FirstOffence(cs, ps) == CheckController(cs[k + 1], ps[k + 1]);
        forall j | 0 <= j < k + 1 ensures Passes(ps[j]) {
          if j > 0 {
            assert ps[j] == ps[1..][j - 1];
          }
        }
      }
    }
  }

  /** Once the first `i` controllers have passed, the outcome depends only on the rest. */
  lemma {:induction false} FirstOffenceSkip(cs: seq<PyClass>, ps: seq<Probe>, i: nat)
    requires |ps| == |cs| && i <= |cs|
    requires forall j :: 0 <= j < i ==> Passes(ps[j])
    ensures FirstOffence(cs, ps) == FirstOffence(cs[i..], ps[i..])
  {
    if i > 0 {
      assert cs[1..][i - 1..] == cs[i..];
      assert ps[1..][i - 1..] == ps[i..];
      FirstOffenceSkip(cs[1..], ps[1..], i - 1);
    }
  }

  /** `getattr(controller, "router")` of a controller that passed its check. */
  function RouterOf(p: Probe): Router
    requires Passes(p)
  {
    p.router.value.router
  }

  /** The routers of controllers that all passed their check, in argument order. */
  function RoutersOf(ps: seq<Probe>): (r: seq<Router>)
    requires forall i :: 0 <= i < |ps| ==> Passes(ps[i])
    ensures |r| == |ps|
    ensures forall i :: 0 <= i < |ps| ==> r[i] == RouterOf(ps[i])
  {
    if ps == [] then [] else RoutersOf(ps[..|ps| - 1]) + [RouterOf(ps[|ps| - 1])]
  }

  /** The route lists of `routers`, in order. */
  function RouteLists(routers: seq<Router>): (r: seq<seq<RouteEntry>>)
    reads routers
    ensures |r| == |routers|
    ensures forall i :: 0 <= i < |routers| ==> r[i] == routers[i].routes
  {
    if routers == [] then [] else RouteLists(routers[..|routers| - 1]) + [routers[|routers| - 1].routes]
  }

  /**
    The routes of a fresh router of prefix `prefix` after it included, one
    after another, routers whose route lists are `lists`.
   */
  function Merged(prefix: string, lists: seq<seq<RouteEntry>>): seq<RouteEntry>
  {
    if lists == [] then []
    else Merged(prefix, lists[..|lists| - 1]) + Rehome(prefix, lists[|lists| - 1])
  }

  /**
    Including routers one after another keeps them grouped in inclusion
    order: merging `a` and then `b` is merging `a`, followed by merging `b`.
   */
  lemma {:induction false} MergedAppend(prefix: string, a: seq<seq<RouteEntry>>, b: seq<seq<RouteEntry>>)
    ensures Merged(prefix, a + b) == Merged(prefix, a) + Merged(prefix, b)
    decreases |b|
  {
    if b == [] {
      assert a + b == a;
    } else {
      var b', last := b[..|b| - 1], Rehome(prefix, b[|b| - 1]);
      calc {
        Merged(prefix, a + b);
      == { assert (a + b)[..|a + b| - 1] == a + b' && (a + b)[|a + b| - 1] == b[|b| - 1]; }
        Merged(prefix, a + b') + last;
      == { MergedAppend(prefix, a, b'); }
        (Merged(prefix, a) + Merged(prefix, b')) + last;
      ==
        Merged(prefix, a) + (Merged(prefix, b') + last);
      }
    }
  }

  /** Every merged route is a route of one of the included routers, with the prefix prepended to its path. */
  lemma {:induction false} MergedFrom(prefix: string, lists: seq<seq<RouteEntry>>, e: RouteEntry)
    requires e in Merged(prefix, lists)
    ensures exists i, j :: 0 <= i < |lists| && 0 <= j < |lists[i]| && e == lists[i][j].(path := prefix + lists[i][j].path)
  {
    var init := lists[..|lists| - 1];
    var last := lists[|lists| - 1];
    if e in Merged(prefix, init) {
      MergedFrom(prefix, init, e);
      var i, j :| 0 <= i < |init| && 0 <= j < |init[i]| && e == init[i][j].(path := prefix + init[i][j].path);
      assert lists[i] == init[i];
    } else {
      var j :| 0 <= j < |Rehome(prefix, last)| && Rehome(prefix, last)[j] == e;
      assert e == lists[|lists| - 1][j].(path := prefix + lists[|lists| - 1][j].path);
    }
  }

  /** Conversely, every route of every included router is merged, with the prefix prepended to its path. */
  lemma {:induction false} MergedHas(prefix: string, lists: seq<seq<RouteEntry>>, i: nat, j: nat)
    requires i < |lists| && j < |lists[i]|
    ensures lists[i][j].(path := prefix + lists[i][j].path) in Merged(prefix, lists)
  {
    var init := lists[..|lists| - 1];
    if i < |lists| - 1 {
      assert lists[i] == init[i];
      MergedHas(prefix, init, i, j);
    } else {
      assert Rehome(prefix, lists[i])[j] == lists[i][j].(path := prefix + lists[i][j].path);
    }
  }

  /** The number of routes in `lists` together. */
  function TotalLength(lists: seq<seq<RouteEntry>>): nat {
    if lists == [] then 0 else TotalLength(lists[..|lists| - 1]) + |lists[|lists| - 1]|
  }

  /** No route is lost or duplicated: the merged routes number exactly the routes of all included routers. */
  lemma {:induction false} MergedLength(prefix: string, lists: seq<seq<RouteEntry>>)
    ensures |Merged(prefix, lists)| == TotalLength(lists)
  {
    if lists != [] {
      MergedLength(prefix, lists[..|lists| - 1]);
    }
  }

  /**
    The validation loop of `_module`: every controller is checked in order
    and the first failure is raised.
   */
  method ValidateControllers(controllers: seq<PyClass>) returns (failure: Option<Error>)
    ensures failure == FirstOffence(controllers, Probes(controllers))
  {
    ghost var ps := Probes(controllers);
    for i := 0 to |controllers|
      invariant forall j :: 0 <= j < i ==> Passes(ps[j])
    {
      failure := CheckController(controllers[i], ProbeOf(controllers[i]));
      if failure.Some? {
        FirstOffenceSkip(controllers, ps, i);
        return;
      }
    }
    failure := None;
  }

  /**
    The merge loop of `_module`: a fresh router with the given prefix
    includes each controller's router in argument order.
   */
  method MergeRouters(prefix: string, controllers: seq<PyClass>, ghost lists: seq<seq<RouteEntry>>) returns (internal: Router)
    requires |lists| == |controllers|
    requires forall i :: 0 <= i < |controllers| ==>
      Passes(ProbeOf(controllers[i])) && RouterOf(ProbeOf(controllers[i])).routes == lists[i]
    ensures fresh(internal) && internal.prefix == prefix
    ensures internal.routes == Merged(prefix, lists)
  {
    internal := new Router(prefix);
    for i := 0 to |controllers|
      modifies internal
      invariant internal.routes == Merged(prefix, lists[..i])
    {
      assert lists[..i + 1][..i] == lists[..i];
      internal.IncludeRouter(RouterOf(ProbeOf(controllers[i])));
    }
    assert lists[..|controllers|] == lists;
  }

  /**
    The part of `_module` after the class is marked: validate the
    controllers, then install the merged router as the class's `router`.
    `ps` names the controllers' probes and `lists` their routers' route
    lists, for the contract.
   */
  method BuildModule(cls: PyClass, prefix: string, controllers: seq<PyClass>,
                     ghost ps: seq<Probe>, ghost lists: seq<seq<RouteEntry>>) returns (r: Result<PyClass, Error>)
    requires |ps| == |controllers| && forall i :: 0 <= i < |ps| ==> ps[i] == ProbeOf(controllers[i])
    requires (forall i :: 0 <= i < |ps| ==> Passes(ps[i])) ==>
      |lists| == |ps| && forall i :: 0 <= i < |ps| ==> RouterOf(ps[i]).routes == lists[i]
    modifies cls
    ensures cls.init == old(cls.init) && cls.signature == old(cls.signature)
    ensures FirstOffence(controllers, ps).Some? ==>
      r == Err(FirstOffence(controllers, ps).value) && cls.attrs == old(cls.attrs)
    ensures (forall i :: 0 <= i < |ps| ==> Passes(ps[i])) ==>
      && r == Ok(cls)
      && RouterAttr in cls.attrs && cls.attrs[RouterAttr].RouterValue?
      && cls.attrs == old(cls.attrs)[RouterAttr := cls.attrs[RouterAttr]]
      && var router := cls.attrs[RouterAttr].router;
         && fresh(router)
         && router.prefix == prefix
         && router.routes == Merged(prefix, lists)
  {
    var failure := ValidateControllers(controllers);
    assert Probes(controllers) == ps;
    if failure.Some? {
      return Err(failure.value);
    }
    var internal := MergeRouters(prefix, controllers, lists);
    AttrNamesDistinct();
    cls.attrs := cls.attrs[RouterAttr := RouterValue(internal)];
    r := Ok(cls);
  }

  /**
    `_module(cls, prefix, controllers=controllers)`. A marked class raises
    InitializedError and is left as it is. Otherwise the class is marked with
    its own name first; then the first controller that fails its check
    raises, before any router is built and with the class still marked;
    otherwise a fresh router with the given prefix includes every
    controller's router in order and becomes the class's `router`, and the
    class itself is returned.
   */
  method Module(cls: PyClass, prefix: string, controllers: seq<PyClass>)
    returns (r: Result<PyClass, Error>, ghost ps: seq<Probe>, ghost lists: seq<seq<RouteEntry>>)
    modifies cls
    ensures ps == old(Probes(controllers))
    ensures (forall i :: 0 <= i < |ps| ==> Passes(ps[i])) ==> lists == old(RouteLists(RoutersOf(ps)))
    ensures cls.init == old(cls.init) && cls.signature == old(cls.signature)
    ensures r.Err? && r.error.InitializedError? <==> old(Marked(cls.attrs))
    ensures !old(Marked(cls.attrs)) ==> ModuleAttr in cls.attrs && cls.attrs[ModuleAttr] == StrValue(cls.name)
    ensures old(Marked(cls.attrs)) ==> r == Err(InitializedError(cls)) && cls.attrs == old(cls.attrs)
    ensures !old(Marked(cls.attrs)) && FirstOffence(controllers, ps).Some? ==>
      && r == Err(FirstOffence(controllers, ps).value)
      && cls.attrs == old(cls.attrs)[ModuleAttr := StrValue(cls.name)]
    ensures !old(Marked(cls.attrs)) && (forall i :: 0 <= i < |ps| ==> Passes(ps[i])) ==>
      && r == Ok(cls)
      && RouterAttr in cls.attrs && cls.attrs[RouterAttr].RouterValue?
      && cls.attrs == old(cls.attrs)[ModuleAttr := StrValue(cls.name)][RouterAttr := cls.attrs[RouterAttr]]
      && var router := cls.attrs[RouterAttr].router;
         && fresh(router)
         && router.prefix == prefix
         && router.routes == Merged(prefix, lists)
  {
    ps := Probes(controllers);
    lists := if forall i :: 0 <= i < |ps| ==> Passes(ps[i]) then RouteLists(RoutersOf(ps)) else [];
    if Marked(cls.attrs) {
      return Err(InitializedError(cls)), ps, lists;
    }
    MarkModule(cls, controllers, ps);
    r := BuildModule(cls, prefix, controllers, ps, lists);
    AttrNamesDistinct();
  }

  /**
    `cls.__fastapi_module__ = cls.__name__`. The flag is neither of the
    attributes a controller is checked for, so marking keeps every
    controller's probe, even when the class is one of its own controllers.
   */
  method MarkModule(cls: PyClass, controllers: seq<PyClass>, ghost ps: seq<Probe>)
    requires |ps| == |controllers| && forall i :: 0 <= i < |ps| ==> ps[i] == ProbeOf(controllers[i])
    modifies cls
    ensures cls.attrs == old(cls.attrs)[ModuleAttr := StrValue(cls.name)]
    ensures cls.init == old(cls.init) && cls.signature == old(cls.signature)
    ensures forall i :: 0 <= i < |ps| ==> ps[i] == ProbeOf(controllers[i])
  {
    MarkKeepsProbe(cls.attrs, StrValue(cls.name));
    cls.attrs := cls.attrs[ModuleAttr := StrValue(cls.name)];
  }

  /**
    A second `_module` on the same class raises InitializedError, whatever
    the first did: after a failed validation the class stays marked, so the
    decorator cannot be retried. The one exception is an unmarked class
    named "" (`type("", (), {})`), whose name makes a falsy mark: the second
    call runs the validation again instead of raising.
   */
  method ModuleTwice(cls: PyClass, prefix: string, controllers: seq<PyClass>) returns (first: Result<PyClass, Error>, second: Result<PyClass, Error>)
    modifies cls
    ensures old(Marked(cls.attrs)) ==> first == Err(InitializedError(cls))
    ensures second == Err(InitializedError(cls)) <==> old(Marked(cls.attrs)) || cls.name != ""
  {
    ghost var ps, lists;
    first, ps, lists := Module(cls, prefix, controllers);
    assert Marked(cls.attrs) <==> old(Marked(cls.attrs)) || cls.name != "";
    second, ps, lists := Module(cls, prefix, controllers);
  }
}
