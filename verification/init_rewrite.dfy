/**
  The initializer rewrite of `fastapi_module/utils.py`
  (`make_cls_accept_cls_annotated_deps`), which `fastapi_module/controller.py`
  repeats verbatim inside `_init_controller`: the class's `__init__` is
  replaced by a `new_init` that pops every annotated dependency out of the
  keyword arguments into an instance attribute, and the class's
  `__signature__` is replaced by the old parameters (without `self` and the
  `*args`/`**kwargs` catch-alls) followed by one keyword-only parameter per
  non-ClassVar hint.
 */
module InitRewrite {
  import opened Host
  import opened Seqs

  /** `*args` or `**kwargs`. */
  predicate Variadic(p: Param) {
    p.kind == VarPositional || p.kind == VarKeyword
  }

  /** A hint that becomes a dependency: every one that is not a `ClassVar`. */
  predicate IsDependency(h: Hint) {
    !h.isClassVar
  }

  /** Python's `xs[1:]`: empty for an empty list. */
  function Tail<T>(xs: seq<T>): seq<T> {
    if xs == [] then [] else xs[1..]
  }

  /** The old parameters that survive: all but the first (`self`), without catch-alls. */
  function KeptParams(oldSignature: seq<Param>): seq<Param> {
    Filter(Not(Variadic), Tail(oldSignature))
  }

  /** The hints that become dependencies, in hint order. */
  function Dependencies(hints: seq<Hint>): seq<Hint> {
    Filter(IsDependency, hints)
  }

  /** `dep_names`: the names of the dependency hints, in hint order. */
  function DepNames(hints: seq<Hint>): seq<string> {
    var ds := Dependencies(hints);
    seq(|ds|, i requires 0 <= i < |ds| => ds[i].name)
  }

  /** The keyword-only parameter one dependency hint turns into; its default is the class attribute, or `...`. */
  function DepParam(h: Hint, attrs: map<string, Value>): Param {
    Param(h.name, KeywordOnly, Some(h.annotation), Some(GetAttr(attrs, h.name, EllipsisValue)))
  }

  function DepParams(hints: seq<Hint>, attrs: map<string, Value>): seq<Param> {
    var ds := Dependencies(hints);
    seq(|ds|, i requires 0 <= i < |ds| => DepParam(ds[i], attrs))
  }

  /** `new_params`: the parameter list of the rewritten `__signature__`. */
  function NewParams(oldSignature: seq<Param>, hints: seq<Hint>, attrs: map<string, Value>): seq<Param> {
    KeptParams(oldSignature) + DepParams(hints, attrs)
  }

  predicate Distinct<T(==)>(s: seq<T>) {
    forall i, j :: 0 <= i < j < |s| ==> s[i] != s[j]
  }

  /** The names of `get_type_hints(cls)`, the keys of a dict, are distinct. */
  predicate HintNamesDistinct(hints: seq<Hint>) {
    forall i, j :: 0 <= i < j < |hints| ==> hints[i].name != hints[j].name
  }

  /**
    The kept part of the new signature: exactly the old parameters after the
    first that are not catch-alls, in their original relative order.
   */
  lemma KeptParamsSpec(oldSignature: seq<Param>)
    ensures forall p :: p in KeptParams(oldSignature) <==> p in Tail(oldSignature) && !Variadic(p)
    ensures IsSubseq(KeptParams(oldSignature), Tail(oldSignature))
  {
    FilterKeeps(Not(Variadic), Tail(oldSignature));
    FilterIsSubseq(Not(Variadic), Tail(oldSignature));
  }

  /**
    The appended part of the new signature: one keyword-only parameter per
    non-ClassVar hint and none for the others, in hint order, annotated with
    the hint, defaulting to the class attribute of that name or `...`; and
    `dep_names` lists exactly their names in the same order.
   */
  lemma {:induction false} AppendedParamsSpec(oldSignature: seq<Param>, hints: seq<Hint>, attrs: map<string, Value>)
    ensures var r, k, ds := NewParams(oldSignature, hints, attrs), |KeptParams(oldSignature)|, Dependencies(hints);
      && |r| == k + |ds|
      && r[..k] == KeptParams(oldSignature)
      && (forall h :: h in ds <==> h in hints && !h.isClassVar)
      && IsSubseq(ds, hints)
      && |DepNames(hints)| == |ds|
      && (forall i :: 0 <= i < |ds| ==>
            && r[k + i].name == ds[i].name == DepNames(hints)[i]
            && r[k + i].kind == KeywordOnly
            && r[k + i].annotation == Some(ds[i].annotation)
            && r[k + i].default == Some(if ds[i].name in attrs then attrs[ds[i].name] else EllipsisValue))
  {
    FilterKeeps(IsDependency, hints);
    FilterIsSubseq(IsDependency, hints);
  }

  /** No parameter of the rewritten signature is a catch-all. */
  lemma NewParamsHaveNoCatchAll(oldSignature: seq<Param>, hints: seq<Hint>, attrs: map<string, Value>)
    ensures forall p :: p in NewParams(oldSignature, hints, attrs) ==> !Variadic(p)
  {
    var k := KeptParams(oldSignature);
    forall p | p in NewParams(oldSignature, hints, attrs) ensures !Variadic(p) {
      if p in k {
        assert Not(Variadic)(p);
      }
    }
  }

  /**
    Rewriting an already rewritten class (utils.py keeps no sentinel) reads
    the signature of `new_init`, `(self, *args, **kwargs)`, so the second
    signature keeps none of the original initializer's parameters.
   */
  lemma RewriteTwiceLosesOriginalParams(deps: seq<string>, inner: Init, hints: seq<Hint>, attrs: map<string, Value>)
    ensures NewParams(InitSignature(Wrapped(deps, inner)), hints, attrs) == DepParams(hints, attrs)
  {
    var sig := InitSignature(Wrapped(deps, inner));
    var t := Tail(sig);
    assert t == [sig[1], sig[2]];
    assert Variadic(t[0]) && Variadic(t[1]);
    assert t[1..][1..] == [];
    assert Filter(Not(Variadic), t[1..]) == [];
    assert KeptParams(sig) == [];
  }

  lemma {:induction false} DepNamesDistinct(hints: seq<Hint>)
    requires HintNamesDistinct(hints)
    ensures Distinct(DepNames(hints))
  {
    if hints != [] {
      var t := hints[1..];
      DepNamesDistinct(t);
      var ds, dt := Dependencies(hints), Dependencies(t);
      if IsDependency(hints[0]) {
        assert ds == [hints[0]] + dt;
        assert DepNames(hints) == [hints[0].name] + DepNames(t);
        forall i | 0 <= i < |dt| ensures dt[i].name != hints[0].name {
          assert dt[i] in dt;
          assert dt[i] in t;
        }
      } else {
        assert ds == dt;
      }
    }
  }

  /** One more hint adds at most one dependency name and parameter, at the end. */
  lemma DependenciesSnoc(hints: seq<Hint>, h: Hint, attrs: map<string, Value>)
    ensures DepNames(hints + [h]) == DepNames(hints) + (if IsDependency(h) then [h.name] else [])
    ensures DepParams(hints + [h], attrs) == DepParams(hints, attrs) + (if IsDependency(h) then [DepParam(h, attrs)] else [])
  {
    var extra := if IsDependency(h) then [h] else [];
    FilterConcat(IsDependency, hints, [h]);
    assert [h][1..] == [];
    assert Filter(IsDependency, [h]) == extra;
    var ds, ds' := Dependencies(hints), Dependencies(hints + [h]);
    assert ds' == ds + extra;
    assert forall i :: 0 <= i < |ds| ==> ds'[i] == ds[i];
  }

  /**
    The construction of `new_params` and `dep_names`: the filtered old
    parameters, then the loop over the type hints that appends to both.
   */
  method BuildSignature(oldSignature: seq<Param>, hints: seq<Hint>, attrs: map<string, Value>)
    returns (newParams: seq<Param>, depNames: seq<string>)
    ensures newParams == NewParams(oldSignature, hints, attrs)
    ensures depNames == DepNames(hints)
  {
    newParams := KeptParams(oldSignature);
    ghost var kept := newParams;
    depNames := [];
    for j := 0 to |hints|
      invariant newParams == kept + DepParams(hints[..j], attrs)
      invariant depNames == DepNames(hints[..j])
    {
      TakeSnoc(hints, j);
      DependenciesSnoc(hints[..j], hints[j], attrs);
      if !hints[j].isClassVar {
        depNames := depNames + [hints[j].name];
        AppendAssoc(kept, DepParams(hints[..j], attrs), [DepParam(hints[j], attrs)]);
        newParams := newParams + [DepParam(hints[j], attrs)];
      }
    }
    assert hints[..|hints|] == hints;
  }

  /**
    `make_cls_accept_cls_annotated_deps`: installs `new_init` around the old
    initializer and the rewritten `__signature__`, sets no sentinel, and
    returns the same class.
   */
  method MakeClsAcceptClsAnnotatedDeps(cls: PyClass) returns (r: PyClass)
    modifies cls
    ensures r == cls
    ensures cls.init == Wrapped(DepNames(cls.hints), old(cls.init))
    ensures cls.signature == Some(NewParams(InitSignature(old(cls.init)), cls.hints, old(cls.attrs)))
    ensures cls.attrs == old(cls.attrs)
  {
    var oldInit := cls.init;
    var newParams, depNames := BuildSignature(InitSignature(oldInit), cls.hints, cls.attrs);
    cls.init := Wrapped(depNames, oldInit);
    cls.signature := Some(newParams);
    r := cls;
  }

  // ---------------------------------------------------------------------
  // Calling the rewritten initializer
  // ---------------------------------------------------------------------

  /** The call that reaches the user's own `__init__`: its positional and keyword arguments. */
  datatype InitCall = InitCall(args: seq<Value>, kwargs: map<string, Value>)

  /** Where the pop loop stopped: instance attributes, remaining kwargs, and the name whose `pop` failed, if any. */
  datatype Popped = Popped(attrs: map<string, Value>, kwargs: map<string, Value>, missing: Option<string>)

  /** The loop of `new_init`: each `kwargs.pop(dep_name)` followed by `setattr(self, dep_name, ...)`. */
  function PopDeps(deps: seq<string>, attrs: map<string, Value>, kwargs: map<string, Value>): Popped
    decreases |deps|
  {
    if deps == [] then Popped(attrs, kwargs, None)
    else if deps[0] !in kwargs then Popped(attrs, kwargs, Some(deps[0]))
    else PopDeps(deps[1..], attrs[deps[0] := kwargs[deps[0]]], kwargs - {deps[0]})
  }

  /**
    `attrs'` is `attrs` with the first `n` names of `deps` set to their
    values in `kwargs`, and nothing else changed.
   */
  ghost predicate StoredFirst(attrs': map<string, Value>, attrs: map<string, Value>, kwargs: map<string, Value>, deps: seq<string>, n: nat)
    requires n <= |deps|
  {
    && (forall a :: a in attrs' <==> a in attrs || a in deps[..n])
    && (forall j :: 0 <= j < n ==> deps[j] in attrs' && deps[j] in kwargs && attrs'[deps[j]] == kwargs[deps[j]])
    && (forall a :: a in attrs && a !in deps[..n] ==> attrs'[a] == attrs[a])
  }

  /** Storing the first name, then the first `n` of the rest, stores the first `n + 1`. */
  lemma StoredFirstCons(attrs': map<string, Value>, attrs: map<string, Value>, kwargs: map<string, Value>, deps: seq<string>, n: nat)
    requires n < |deps| && deps[0] in kwargs
    requires forall j :: 0 < j < |deps| ==> deps[j] != deps[0]
    requires StoredFirst(attrs', attrs[deps[0] := kwargs[deps[0]]], kwargs - {deps[0]}, deps[1..], n)
    ensures StoredFirst(attrs', attrs, kwargs, deps, n + 1)
  {
    var d, rest := deps[0], deps[1..];
    assert deps[..n + 1] == [d] + rest[..n];
    assert d !in rest[..n] by {
      forall j | 0 <= j < n ensures rest[..n][j] != d {
        assert rest[..n][j] == deps[j + 1];
      }
    }
    forall j | 0 < j < n + 1 ensures deps[j] in attrs' && deps[j] in kwargs && attrs'[deps[j]] == kwargs[deps[j]] {
      assert deps[j] == rest[j - 1];
    }
  }

  lemma {:induction false} PopDepsLeavesOthers(deps: seq<string>, attrs: map<string, Value>, kwargs: map<string, Value>)
    requires Distinct(deps)
    requires forall d :: d in deps ==> d in kwargs
    ensures PopDeps(deps, attrs, kwargs).kwargs == kwargs - (set d | d in deps)
  {
    if deps == [] {
      assert (set d | d in deps) == {};
      assert kwargs - {} == kwargs;
    } else {
      var d, rest := deps[0], deps[1..];
      assert forall j :: 0 <= j < |rest| ==> rest[j] == deps[j + 1] && rest[j] != d;
      PopDepsLeavesOthers(rest, attrs[d := kwargs[d]], kwargs - {d});
      assert (set e | e in deps) == {d} + (set e | e in rest);
    }
  }

  lemma {:induction false} PopDepsSucceeds(deps: seq<string>, attrs: map<string, Value>, kwargs: map<string, Value>)
    requires Distinct(deps)
    requires forall d :: d in deps ==> d in kwargs
    ensures var p := PopDeps(deps, attrs, kwargs);
      && p.missing == None
      && StoredFirst(p.attrs, attrs, kwargs, deps, |deps|)
  {
    assert deps[..|deps|] == deps;
    if deps != [] {
      var d, rest := deps[0], deps[1..];
      assert forall j :: 0 <= j < |rest| ==> rest[j] == deps[j + 1] && rest[j] != d;
      PopDepsSucceeds(rest, attrs[d := kwargs[d]], kwargs - {d});
      assert rest[..|rest|] == rest;
      StoredFirstCons(PopDeps(deps, attrs, kwargs).attrs, attrs, kwargs, deps, |rest|);
    }
  }

  lemma {:induction false} PopDepsFails(deps: seq<string>, attrs: map<string, Value>, kwargs: map<string, Value>) returns (k: nat)
    requires Distinct(deps)
    requires exists d :: d in deps && d !in kwargs
    ensures var p := PopDeps(deps, attrs, kwargs);
      && k < |deps| && p.missing == Some(deps[k]) && deps[k] !in kwargs
      && (forall j :: 0 <= j < k ==> deps[j] in kwargs)
      && StoredFirst(p.attrs, attrs, kwargs, deps, k)
  {
    var d, rest := deps[0], deps[1..];
    if d !in kwargs {
      k := 0;
    } else {
      var attrs', kwargs' := attrs[d := kwargs[d]], kwargs - {d};
      assert forall j :: 0 <= j < |rest| ==> rest[j] == deps[j + 1] && rest[j] != d;
      assert forall e :: e in rest ==> (e in kwargs' <==> e in kwargs);
      var k' := PopDepsFails(rest, attrs', kwargs');
      k := k' + 1;
      StoredFirstCons(PopDeps(deps, attrs, kwargs).attrs, attrs, kwargs, deps, k');
    }
  }

  /**
    With distinct names, the pop loop succeeds exactly when every dependency
    keyword is present; it then stores each under its own name and removes
    it from the keywords, leaving the others. Otherwise it stops at the first
    missing name, having stored the ones before it.
   */
  lemma PopDepsSpec(deps: seq<string>, attrs: map<string, Value>, kwargs: map<string, Value>)
    requires Distinct(deps)
    ensures var p := PopDeps(deps, attrs, kwargs);
      && (p.missing == None <==> forall d :: d in deps ==> d in kwargs)
      && (p.missing == None ==>
            && p.kwargs == kwargs - (set d | d in deps)
            && StoredFirst(p.attrs, attrs, kwargs, deps, |deps|))
      && (p.missing.Some? ==>
            exists k :: 0 <= k < |deps| && p.missing == Some(deps[k]) && deps[k] !in kwargs
              && (forall j :: 0 <= j < k ==> deps[j] in kwargs)
              && StoredFirst(p.attrs, attrs, kwargs, deps, k))
  {
    if forall d :: d in deps ==> d in kwargs {
      PopDepsSucceeds(deps, attrs, kwargs);
      PopDepsLeavesOthers(deps, attrs, kwargs);
    } else {
      var k := PopDepsFails(deps, attrs, kwargs);
    }
  }

  /** What constructing an instance does to it, and how it ends. */
  datatype Construction = Construction(attrs: map<string, Value>, outcome: Result<InitCall, Error>)

  /**
    Calling `cls(*args, **kwargs)` with initializer `init` on an instance
    whose attributes are `attrs`: each `new_init` layer pops its
    dependencies, then passes what is left to the initializer it wraps.
   */
  function Invoke(init: Init, attrs: map<string, Value>, args: seq<Value>, kwargs: map<string, Value>): Construction
  {
    match init
    case Plain(_) => Construction(attrs, Ok(InitCall(args, kwargs)))
    case Wrapped(deps, inner) =>
      var p := PopDeps(deps, attrs, kwargs);
      if p.missing.Some? then Construction(p.attrs, Err(KeyError(p.missing.value)))
      else Invoke(inner, p.attrs, args, p.kwargs)
  }

  /**
    A once-rewritten class: construction succeeds exactly when every
    dependency keyword is supplied; each is stored as the instance attribute
    of that name, and the user's initializer receives the positional
    arguments unchanged and exactly the remaining keywords. A missing
    dependency raises `KeyError` for the first one missing.
   */
  lemma ConstructOnce(deps: seq<string>, params: seq<Param>, attrs: map<string, Value>, args: seq<Value>, kwargs: map<string, Value>)
    requires Distinct(deps)
    ensures var c := Invoke(Wrapped(deps, Plain(params)), attrs, args, kwargs);
      && (c.outcome.Ok? <==> forall d :: d in deps ==> d in kwargs)
      && (c.outcome.Ok? ==>
            && c.outcome.value == InitCall(args, kwargs - (set d | d in deps))
            && StoredFirst(c.attrs, attrs, kwargs, deps, |deps|))
      && (c.outcome.Err? ==>
            exists k :: 0 <= k < |deps| && c.outcome.error == KeyError(deps[k]) && deps[k] !in kwargs
              && forall j :: 0 <= j < k ==> deps[j] in kwargs)
  {
    PopDepsSpec(deps, attrs, kwargs);
  }

  /**
    A class rewritten twice (possible with utils.py alone, which keeps no
    sentinel) can never be constructed when it has a dependency: the outer
    `new_init` pops every dependency, so the inner one's first `pop` fails.
   */
  lemma ConstructTwiceWrappedFails(deps: seq<string>, inner: Init, attrs: map<string, Value>, args: seq<Value>, kwargs: map<string, Value>)
    requires Distinct(deps) && deps != []
    ensures var c := Invoke(Wrapped(deps, Wrapped(deps, inner)), attrs, args, kwargs);
      && c.outcome.Err?
      && ((forall d :: d in deps ==> d in kwargs) ==> c.outcome.error == KeyError(deps[0]))
  {
    var p := PopDeps(deps, attrs, kwargs);
    PopDepsSpec(deps, attrs, kwargs);
    if p.missing == None {
      assert deps[0] !in p.kwargs;
    }
  }

  /**
    `new_init` called with dependency names `deps` around initializer
    `inner`: the pop loop on `self`, then the call of the wrapped initializer.
   */
  method NewInit(self: Instance, deps: seq<string>, inner: Init, args: seq<Value>, kwargs: map<string, Value>)
    returns (r: Result<InitCall, Error>)
    modifies self
    ensures Construction(self.attrs, r) == Invoke(Wrapped(deps, inner), old(self.attrs), args, kwargs)
    decreases inner, 1
  {
    var kw := kwargs;
    for i := 0 to |deps|
      invariant PopDeps(deps, old(self.attrs), kwargs) == PopDeps(deps[i..], self.attrs, kw)
    {
      assert deps[i..][1..] == deps[i + 1..];
      if deps[i] !in kw {
        return Err(KeyError(deps[i]));
      }
      var value := kw[deps[i]];
      kw := kw - {deps[i]};
      self.attrs := self.attrs[deps[i] := value];
    }
    r := CallInit(self, inner, args, kw);
  }

  /** Calling an initializer: a user-written one is reached with the arguments it receives. */
  method CallInit(self: Instance, init: Init, args: seq<Value>, kwargs: map<string, Value>)
    returns (r: Result<InitCall, Error>)
    modifies self
    ensures Construction(self.attrs, r) == Invoke(init, old(self.attrs), args, kwargs)
    decreases init, 0
  {
    match init
    case Plain(_) =>
      r := Ok(InitCall(args, kwargs));
    case Wrapped(deps, inner) =>
      r := NewInit(self, deps, inner, args, kwargs);
  }
}
