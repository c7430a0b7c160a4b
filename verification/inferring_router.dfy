/**
  `fastapi_alt_controller/inferring_router.py`: `InferringRouter.add_api_route`,
  which fills in a route's `response_model` from the endpoint's `return`
  hint when the caller gave none (or a falsy one) and hands everything else
  on to `APIRouter.add_api_route` as it was.
 */
module InferringRouter {
  import opened Host

  const ResponseModel := "response_model"

  /** `get_type_hints(endpoint).get("return")`: the hint, or None when the endpoint has none. */
  function ReturnHintOrNone(endpoint: PyFunction): Value {
    if endpoint.returnHint.Some? then endpoint.returnHint.value else NoneValue
  }

  /**
    The keyword arguments `add_api_route` forwards: a truthy `response_model`
    is kept; a missing or falsy one becomes the endpoint's `return` hint (or
    None); every other keyword is passed on untouched.
   */
  function DefaultedKwargs(kwargs: map<string, Value>, endpoint: PyFunction): (r: map<string, Value>)
    ensures ResponseModel in r
    ensures Truthy(GetAttr(kwargs, ResponseModel, NoneValue)) ==> r[ResponseModel] == kwargs[ResponseModel]
    ensures !Truthy(GetAttr(kwargs, ResponseModel, NoneValue)) ==> r[ResponseModel] == ReturnHintOrNone(endpoint)
    ensures forall k :: k != ResponseModel ==> (k in r <==> k in kwargs)
    ensures forall k :: k != ResponseModel && k in kwargs ==> r[k] == kwargs[k]
  {
    if Truthy(GetAttr(kwargs, ResponseModel, NoneValue)) then kwargs
    else kwargs[ResponseModel := ReturnHintOrNone(endpoint)]
  }

  /**
    Defaulting twice is defaulting once: the filled-in model is kept, or
    filled in again with the same hint. A route that comes back through
    `add_api_route` with the model it was given (as `include_router` does)
    keeps that model.
   */
  lemma DefaultedKwargsIdempotent(kwargs: map<string, Value>, endpoint: PyFunction)
    ensures DefaultedKwargs(DefaultedKwargs(kwargs, endpoint), endpoint) == DefaultedKwargs(kwargs, endpoint)
  {
    var once := DefaultedKwargs(kwargs, endpoint);
    if !Truthy(GetAttr(once, ResponseModel, NoneValue)) {
      assert once[ResponseModel := ReturnHintOrNone(endpoint)] == once;
    }
  }

  /** The arguments of the `super().add_api_route(path, endpoint, **kwargs)` call. */
  datatype RouteArgs = RouteArgs(path: string, endpoint: PyFunction, kwargs: map<string, Value>)

  /**
    `InferringRouter.add_api_route`: the `kwargs` dict is updated in place and
    then forwarded together with the unchanged path and endpoint.
   */
  method AddApiRoute(path: string, endpoint: PyFunction, kwargs: map<string, Value>) returns (forwarded: RouteArgs)
    ensures forwarded.path == path && forwarded.endpoint == endpoint
    ensures forwarded.kwargs == DefaultedKwargs(kwargs, endpoint)
  {
    var kw := kwargs;
    if !Truthy(GetAttr(kw, ResponseModel, NoneValue)) {
      kw := kw[ResponseModel := ReturnHintOrNone(endpoint)];
    }
    forwarded := RouteArgs(path, endpoint, kw);
  }
}
