# fastapi-module, modelled in Dafny

This project models the class decorators of `fastapi-module`: the glue that
turns a Python class into a FastAPI "controller" or "module". The Python
host objects are replaced by plain Dafny data:

- a class (`Host.PyClass`) with an attribute map, an initializer and a `__signature__`;
- a function (`Host.PyFunction`) with its signature and `return` hint;
- a router (`Host.Router`) with a prefix and an ordered route list;
- a route entry (`Host.RouteEntry`) that names its endpoint by identity.

The decorators are modelled as imperative Dafny code over these objects.
Each one is proved against pure specification functions.

- `InitRewrite` (fastapi_module/utils.py, also repeated inside controller.py)
  covers the initializer rewrite:
  - The new signature is the old parameters without `self` and without
    `*args`/`**kwargs`, followed by one keyword-only parameter per
    non-ClassVar hint. Each such parameter defaults to the class attribute
    of that name, or `...`.
  - The new `__init__` (`NewInit`) pops every dependency keyword into an
    instance attribute, then calls the wrapped initializer with what is left.
  - An initializer is either the user's own (`Plain`) or a `new_init` closure
    around another initializer (`Wrapped`). This makes double wrapping
    representable, and its consequences are proved.
- `EnhancedCbd` (fastapi_module/enhanced_cbd.py) is the one-shot
  `__fastapi_enhanced_cbd__` sentinel around that rewrite.
- `Controller` (fastapi_module/controller.py) covers three parts:
  - `_init_controller`, guarded by `__controller_class__`;
  - the endpoint-signature patch;
  - the route migration loop of `_controller`. Routes owned by the class are
    removed from the router one at a time with `list.remove`, patched, put
    on an internal router, and that router is included back at the end.
- `ModuleDecorator` (fastapi_module/module.py) covers `_module`:
  - the `__fastapi_module__` sentinel, which raises on reuse;
  - the validation loop, whose first offender raises;
  - the merge loop into a fresh router with the given prefix.
- `InferringRouter` (fastapi_alt_controller/inferring_router.py) covers the
  `response_model` defaulting of `add_api_route`.
- `Seqs` holds generic sequence helpers:
  - filter, and `list.remove` as removal of the first occurrence;
  - the state of a list after the first `n` matching elements have been
    removed one by one.

`include_router` is modelled as "append the included router's routes, in
order, with the destination router's prefix prepended to each path"
(`Host.Router.IncludeRouter`, `Host.Rehome`).

Notes on the code as written:

- `_module` looks up `__fastapi_controller__` and `router` without a default.
  A controller missing either attribute therefore raises AttributeError.
  `except AssertionError` does not catch it, so it never becomes
  NotAController. The model returns `AttributeError(controller, name)`.
- Only a falsy flag, or a `router` that is not an `APIRouter`, gives
  NotAController.
- A dependency parameter without a class attribute defaults to `...`
  (Ellipsis).
- The endpoint patch indexes `old_params[0]`, so an endpoint without
  parameters raises IndexError. `Parameter.replace(default=...)` rejects a
  `*args` or `**kwargs` parameter, so an endpoint whose first parameter is
  one raises ValueError. Either way the route has already been removed from
  the router.
- The `enhanced_cbd` and `_module` sentinels hold the class name. A class
  named "" (`type("", (), {})`) therefore gets a falsy sentinel, and the
  guard does not fire on a second application.
- `controller.py` marks a class with `__controller_class__ = True`. It does
  not set `__fastapi_controller__` or `router`, which `module.py` expects.
  Each file is modelled as written.

## Model

| member | source | states |
|---|---|---|
| InitRewrite.KeptParamsSpec | fastapi_module/utils.py:18-23 | the kept parameters are exactly the old ones after the first that are not `*args`/`**kwargs`, in their original relative order |
| InitRewrite.AppendedParamsSpec | fastapi_module/utils.py:24-36 | after the kept parameters come one keyword-only parameter per non-ClassVar hint, in hint order; each is annotated with the hint and defaults to the class attribute of that name or `...`; `dep_names` lists exactly their names in the same order |
| InitRewrite.NewParamsHaveNoCatchAll | fastapi_module/utils.py:19-36 | no parameter of the rewritten signature is `*args` or `**kwargs` |
| InitRewrite.DepNamesDistinct | fastapi_module/utils.py:24-29 | with distinct hint names (dict keys), the dependency names are distinct |
| InitRewrite.DependenciesSnoc | fastapi_module/utils.py:24-36 | one more hint appends its name and its parameter exactly when it is not a ClassVar |
| InitRewrite.BuildSignature | fastapi_module/utils.py:18-36 | the filter plus the append loop over the hints produce exactly the specified `new_params` and `dep_names` |
| InitRewrite.RewriteTwiceLosesOriginalParams | fastapi_module/utils.py:16-23 | rewriting an already rewritten class reads `(self, *args, **kwargs)`, so none of the original parameters survive |
| InitRewrite.MakeClsAcceptClsAnnotatedDeps | fastapi_module/utils.py:10-47 | the class gets `new_init` around its old initializer and the rewritten signature, no sentinel is set, and the same class is returned |
| InitRewrite.PopDepsLeavesOthers | fastapi_module/utils.py:40-42 | when every dependency keyword is present, the pop loop leaves exactly the other keywords |
| InitRewrite.PopDepsSucceeds | fastapi_module/utils.py:40-42 | when every dependency keyword is present, each is stored under its own name and no other attribute changes |
| InitRewrite.PopDepsFails | fastapi_module/utils.py:40-42 | when a keyword is missing, the loop stops at the first missing name, having stored exactly the names before it |
| InitRewrite.PopDepsSpec | fastapi_module/utils.py:40-42 | the pop loop succeeds if and only if every dependency keyword is present, with the two outcomes above |
| InitRewrite.ConstructOnce | fastapi_module/utils.py:39-43 | constructing a once-rewritten class succeeds exactly when all dependency keywords are given; the user's initializer then gets the positional arguments unchanged and exactly the remaining keywords; otherwise KeyError names the first missing one |
| InitRewrite.ConstructTwiceWrappedFails | fastapi_module/utils.py:39-47 | a class rewritten twice with a dependency can never be constructed, because the inner `new_init` finds its keywords already popped |
| InitRewrite.NewInit | fastapi_module/utils.py:39-43 | the pop loop on the instance, then the call of the wrapped initializer, agree with the specification `Invoke` |
| InitRewrite.CallInit | fastapi_module/utils.py:43 | calling an initializer, user-written or rewritten, agrees with `Invoke` |
| Host.InitSignature | fastapi_module/utils.py:39 | the signature of a `new_init` is `(self, *args, **kwargs)` |
| EnhancedCbd.EnhancedCbd | fastapi_module/enhanced_cbd.py:7-14 | a marked class is returned untouched; otherwise it is marked with its name and rewritten once; the same class is returned |
| EnhancedCbd.EnhancedCbdTwice | fastapi_module/enhanced_cbd.py:11-14 | applying the decorator twice is applying it once: the initializer is wrapped a single time and the signature is the once-rewritten one; for a class named "" the initializer is wrapped twice and the signature keeps only the dependency parameters |
| Controller.InitController | fastapi_module/controller.py:51-90 | a class with `__controller_class__` is unchanged; otherwise its initializer and signature are rewritten as in utils.py and the flag becomes `True` |
| Controller.InitControllerTwice | fastapi_module/controller.py:57-90 | a second `_init_controller` is a no-op: the initializer is wrapped once and the signature is rewritten once |
| Controller.AllKeywordOnly | fastapi_module/controller.py:104-106 | every later parameter becomes keyword-only and keeps everything else |
| Controller.PatchedSignatureSpec | fastapi_module/controller.py:99-106 | the patch keeps the count, names and annotations; only the first default becomes `Depends(cls)` and only the later kinds become keyword-only; the patch fails exactly on an endpoint without parameters (IndexError) or one whose first parameter is `*args`/`**kwargs` (ValueError) |
| Controller.PatchIdempotent | fastapi_module/controller.py:99-108 | patching a patched signature changes nothing, so an endpoint under several routes ends up patched once |
| Controller.UpdateEndpointSignature | fastapi_module/controller.py:93-108 | the endpoint's signature becomes the patched one, or the patch's error is raised and the endpoint is left unchanged |
| Controller.MigratedIsFilter | fastapi_module/controller.py:38-42 | the list comprehension of owned routes is the filter of the router's routes by ownership |
| Controller.UnmigratedIsDrop | fastapi_module/controller.py:43-44 | the router after `n` removals is the route list with its first `n` owned routes taken out |
| Controller.MigrateStep | fastapi_module/controller.py:43-44 | each round removes an owned route that is still present, and the router then has one more owned route taken out |
| Controller.UnmigratedEnds | fastapi_module/controller.py:38-44 | before the loop nothing is removed; after it, exactly the routes the class does not own remain, in order |
| Controller.MigrationPartition | fastapi_module/controller.py:36-47 | migrated routes are exactly the owned ones and remaining routes exactly the others, each in router order; with an empty prefix, the final route list is a permutation of the original |
| Seqs.RemoveFirstMultiset | fastapi_module/controller.py:44 | `list.remove` of a present route takes out exactly one occurrence and nothing else |
| Controller.MoveRoute | fastapi_module/controller.py:43-46 | one round: the route is removed, its endpoint patched (a second patch of the same endpoint changes nothing), and it is appended to the internal router; an endpoint the patch rejects stops the round with the patch's error, the internal router unchanged |
| Controller.MoveRoutes | fastapi_module/controller.py:43-46 | the loop moves the owned routes in order until all are on the internal router, or stops at the first endpoint the patch rejects, with exactly the earlier routes on the internal router |
| Controller.MigrateRoutes | fastapi_module/controller.py:35-47 | on success the router holds the routes it does not own followed by the owned ones, in order, under the router's prefix; on failure the routes taken so far are gone and not re-added |
| Controller.Controller | fastapi_module/controller.py:29-48 | `_init_controller`, then the migration; it fails exactly when an owned endpoint has no parameters (IndexError) or a `*args`/`**kwargs` first parameter (ValueError); endpoints of migrated routes are patched and all other functions are unchanged; the class is returned |
| Host.Router.IncludeRouter | fastapi_module/module.py:38 | including a router appends its routes in order, each path prefixed with the destination router's prefix |
| Host.Rehome | fastapi_module/controller.py:47 | re-registered routes keep their order, kind and endpoint, and get the prefix prepended to their path |
| ModuleDecorator.MarkKeepsProbe | fastapi_module/module.py:27-32 | marking the class as a module does not change what the validation loop reads of any controller |
| ModuleDecorator.CheckController | fastapi_module/module.py:30-34 | a controller passes exactly when its flag is truthy and its `router` is an `APIRouter`; a missing attribute gives AttributeError for that name; a falsy flag or a non-router gives NotAController |
| ModuleDecorator.FirstOffence | fastapi_module/module.py:29-34 | the validation raises nothing exactly when every controller passes, and what it raises is an AttributeError or NotAController |
| ModuleDecorator.FirstOffenceSpec | fastapi_module/module.py:29-34 | what is raised is the failure of one controller, and every controller before it passed |
| ModuleDecorator.ValidateControllers | fastapi_module/module.py:29-34 | the loop raises exactly the first offence |
| ModuleDecorator.MergeRouters | fastapi_module/module.py:36-38 | a fresh router with the given prefix ends up with the controllers' routes merged in argument order |
| ModuleDecorator.MergedAppend | fastapi_module/module.py:37-38 | the merged routes keep each router's routes together, in inclusion order |
| ModuleDecorator.MergedFrom | fastapi_module/module.py:36-38 | every merged route is a route of an included router, with the prefix prepended |
| ModuleDecorator.MergedHas | fastapi_module/module.py:36-38 | every route of every included router is merged, with the prefix prepended |
| ModuleDecorator.MergedLength | fastapi_module/module.py:36-38 | no route is lost or duplicated: the merged count is the sum of the routers' counts |
| ModuleDecorator.MarkModule | fastapi_module/module.py:27 | the class is marked with its own name and nothing else changes; every controller's probe is what it was, even when the class is among its own controllers |
| ModuleDecorator.BuildModule | fastapi_module/module.py:29-40 | validation happens before any router is built; on success the class's `router` is a fresh router with the prefix and the merged routes, and nothing else changes |
| ModuleDecorator.Module | fastapi_module/module.py:24-40 | InitializedError is raised exactly when the class is already marked, and then it is unchanged; otherwise it is marked with its name first; the first offending controller then raises with the class still marked; else the merged router becomes `router` and the class is returned |
| ModuleDecorator.ModuleTwice | fastapi_module/module.py:25-34 | a second `_module` on the same class raises InitializedError, even after a failed validation, exactly unless the class is unmarked and named "" |
| InferringRouter.DefaultedKwargs | fastapi_alt_controller/inferring_router.py:12-13 | `response_model` is always present; a truthy one is kept; a missing or falsy one becomes the endpoint's `return` hint, or None; every other keyword is unchanged |
| InferringRouter.DefaultedKwargsIdempotent | fastapi_alt_controller/inferring_router.py:12-13 | defaulting twice is defaulting once |
| InferringRouter.AddApiRoute | fastapi_alt_controller/inferring_router.py:11-14 | the forwarded call has the same path and endpoint and the defaulted keywords |

## Left out

- FastAPI and Starlette internals are not modelled. This covers `APIRouter.add_api_route` (the call `InferringRouter.AddApiRoute` forwards to), route matching, `Depends` resolution and OpenAPI generation. `Depends(cls)` is an opaque marker value.
- `include_router` is reduced to appending the included routes with the destination prefix prepended. Router tags, dependencies and callbacks are not modelled.
- Python reflection is taken as input:
  - `inspect.signature` is a function's stored parameter list;
  - `get_type_hints` is the class's ordered hints with their ClassVar flags;
  - `inspect.getmembers(cls, inspect.isfunction)` is the class's set of functions.
- The validation `Signature.replace` performs is not modelled. This covers duplicate names and the ordering of defaults and kinds. The return annotation the signature keeps is not modelled either.
- The user's own `__init__` body is not modelled. The model ends at the call that reaches it (`InitRewrite.InitCall`).
- The exception texts of fastapi_module/types.py are not modelled; only the exception kinds are (`Host.Error`). fastapi_module/class_dep.py imports names that do not exist, and it is not part of this model.
- `controllers` is a `seq`. A one-shot iterator, which `_module` would traverse twice, is not modelled.
- Running Python with `-O` strips the `assert`s of the validation loop. The model keeps them.
- `module(prefix, controllers=...)` and `controller(router)` only curry `_module` and `_controller`, and are not modelled apart.
- Controller.MigrationPartition: the permutation statement is for a router without a prefix. Under a prefix, the migrated routes come back with changed paths.
