/**
  The host objects the decorators work on, as plain Dafny data: Python values
  with their truthiness, `inspect.Parameter`, resolved type hints, route
  entries, routers, functions, classes and instances, and the exceptions the
  decorators raise.
 */
module Host {

  datatype Option<+T> = None | Some(value: T)

  datatype Result<+T, +E> = Ok(value: T) | Err(error: E)

  /** `inspect.Parameter.kind`. */
  datatype Kind = PositionalOnly | PositionalOrKeyword | VarPositional | KeywordOnly | VarKeyword

  /** The Python values the decorators read, store or compare. */
  datatype Value =
    | NoneValue
    | EllipsisValue
    | BoolValue(b: bool)
    | StrValue(s: string)
      /** The `Depends(cls)` marker: "inject one instance of `cls`". */
    | Depends(dependency: PyClass)
      /** An `APIRouter` instance. */
    | RouterValue(router: Router)
      /** Any other object (a type, a user value), with its truth value. */
    | Other(id: nat, truthy: bool)

  /** Python's `bool(v)`. */
  predicate Truthy(v: Value) {
    match v
    case NoneValue => false
    case BoolValue(b) => b
    case StrValue(s) => s != ""
    case Other(_, t) => t
    case _ => true
  }

  /** `getattr(obj, name, default)` over an attribute map. */
  function GetAttr(attrs: map<string, Value>, name: string, default: Value): Value {
    if name in attrs then attrs[name] else default
  }

  /** An `inspect.Parameter`; `None` stands for `Parameter.empty`. */
  datatype Param = Param(name: string, kind: Kind, annotation: Option<Value>, default: Option<Value>)

  /** One entry of `get_type_hints(cls)`, with whether `is_classvar` holds of it. */
  datatype Hint = Hint(name: string, annotation: Value, isClassVar: bool)

  /** A function object: the signature `inspect.signature` reports for it and its `return` hint. */
  class PyFunction {
    var signature: seq<Param>
    const returnHint: Option<Value>

    constructor (signature: seq<Param>, returnHint: Option<Value>)
      ensures this.signature == signature && this.returnHint == returnHint
    {
      this.signature := signature;
      this.returnHint := returnHint;
    }
  }

  /**
    Route classes: a Starlette `Route` (FastAPI's `APIRoute` is one), a
    `WebSocketRoute`, or anything else a router can hold (`Mount`, `Host`, ...).
   */
  datatype RouteKind = HttpRoute | WebSocketRoute | OtherRoute

  /** A registered route; `endpoint` is compared by identity, as in the source. */
  datatype RouteEntry = RouteEntry(kind: RouteKind, path: string, endpoint: PyFunction)

  /** The routes of `es` re-registered on a router whose prefix is `prefix`. */
  function Rehome(prefix: string, es: seq<RouteEntry>): (r: seq<RouteEntry>)
    ensures |r| == |es|
    ensures forall i :: 0 <= i < |es| ==> r[i] == es[i].(path := prefix + es[i].path)
  {
    if es == [] then [] else [es[0].(path := prefix + es[0].path)] + Rehome(prefix, es[1..])
  }

  lemma RehomeEmptyPrefix(es: seq<RouteEntry>)
    ensures Rehome("", es) == es
  {
    assert forall i :: 0 <= i < |es| ==> es[i].(path := "" + es[i].path) == es[i];
  }

  /** An `APIRouter`: its prefix and its ordered route list. */
  class Router {
    const prefix: string
    var routes: seq<RouteEntry>

    constructor (prefix: string)
      ensures this.prefix == prefix && routes == []
    {
      this.prefix := prefix;
      routes := [];
    }

    /** `include_router(other)`: other's routes are appended in order under this router's prefix. */
    method IncludeRouter(other: Router)
      modifies this
      ensures routes == old(routes) + Rehome(prefix, old(other.routes))
    {
      routes := routes + Rehome(prefix, other.routes);
    }
  }

  /**
    A class's `__init__`: either the one the user wrote, with its declared
    parameters (`self` first), or the `new_init` closure a rewrite installed,
    holding the dependency names it pops and the initializer it wraps.
   */
  datatype Init = Plain(params: seq<Param>) | Wrapped(deps: seq<string>, inner: Init)

  /** `inspect.signature(cls.__init__)`; a `new_init` reports `(self, *args, **kwargs)`. */
  function InitSignature(init: Init): (r: seq<Param>)
    ensures init.Wrapped? ==> |r| == 3 && r[1].kind == VarPositional && r[2].kind == VarKeyword
  {
    match init
    case Plain(params) => params
    case Wrapped(_, _) =>
      [Param("self", PositionalOrKeyword, None, None),
       Param("args", VarPositional, None, None),
       Param("kwargs", VarKeyword, None, None)]
  }

  /**
    A decorated class. `attrs` is attribute lookup on the class (sentinels,
    class-level values, `router`); `hints` is `get_type_hints(cls)` in order;
    `functions` is the set `inspect.getmembers(cls, inspect.isfunction)` finds;
    `signature` is the class's `__signature__`, if set.
   */
  class PyClass {
    const name: string
    const hints: seq<Hint>
    const functions: set<PyFunction>
    var attrs: map<string, Value>
    var init: Init
    var signature: Option<seq<Param>>

    constructor (name: string, hints: seq<Hint>, functions: set<PyFunction>, attrs: map<string, Value>, init: Init)
      ensures this.name == name && this.hints == hints && this.functions == functions
      ensures this.attrs == attrs && this.init == init && signature == None
    {
      this.name := name;
      this.hints := hints;
      this.functions := functions;
      this.attrs := attrs;
      this.init := init;
      signature := None;
    }
  }

  /** An instance under construction, with its instance attributes. */
  class Instance {
    var attrs: map<string, Value>

    constructor ()
      ensures attrs == map[]
    {
      attrs := map[];
    }
  }

  /** The exceptions the modelled code raises. */
  datatype Error =
    | InitializedError(cls: PyClass)
    | NotAController(cls: PyClass)
    | AttributeError(obj: PyClass, attr: string)
    | KeyError(key: string)
    | IndexError
      /** `Parameter.replace` giving a default to a `*args` or `**kwargs` parameter. */
    | ValueError
}
