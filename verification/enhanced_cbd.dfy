/**
  `fastapi_module/enhanced_cbd.py`: the one-shot `__fastapi_enhanced_cbd__`
  sentinel around the initializer rewrite of utils.py.
 */
module EnhancedCbd {
  import opened Host
  import opened InitRewrite

  const EnhancedCbdAttr := "__fastapi_enhanced_cbd__"

  /** `getattr(cls, "__fastapi_enhanced_cbd__", False)` is truthy. */
  predicate Marked(attrs: map<string, Value>) {
    Truthy(GetAttr(attrs, EnhancedCbdAttr, BoolValue(false)))
  }

  /**
    `enhanced_cbd`: a marked class is returned untouched; otherwise the class
    is marked with its own name and then rewritten exactly once. The same
    class object is returned either way.
   */
  method EnhancedCbd(cls: PyClass) returns (r: PyClass)
    modifies cls
    ensures r == cls
    ensures old(Marked(cls.attrs)) ==> unchanged(cls)
    ensures !old(Marked(cls.attrs)) ==>
      && cls.attrs == old(cls.attrs)[EnhancedCbdAttr := StrValue(cls.name)]
      && cls.init == Wrapped(DepNames(cls.hints), old(cls.init))
      && cls.signature == Some(NewParams(InitSignature(old(cls.init)), cls.hints, old(cls.attrs)[EnhancedCbdAttr := StrValue(cls.name)]))
  {
    if Marked(cls.attrs) {
      return cls;
    }
    cls.attrs := cls.attrs[EnhancedCbdAttr := StrValue(cls.name)];
    r := MakeClsAcceptClsAnnotatedDeps(cls);
  }

  /**
    Applying `enhanced_cbd` twice does what applying it once does, because
    the sentinel holds the class name, which is truthy for every class a
    `class` statement can create. A class named "" (`type("", (), {})`) gets
    a falsy sentinel: its initializer is wrapped twice, and the second
    rewrite reads `new_init`'s `(self, *args, **kwargs)`, so its signature
    keeps only the dependency parameters.
   */
  method EnhancedCbdTwice(cls: PyClass) returns (r: PyClass)
    modifies cls
    ensures r == cls
    ensures old(Marked(cls.attrs)) ==> unchanged(cls)
    ensures !old(Marked(cls.attrs)) ==>
      cls.attrs == old(cls.attrs)[EnhancedCbdAttr := StrValue(cls.name)]
    ensures !old(Marked(cls.attrs)) && cls.name != "" ==>
      && cls.init == Wrapped(DepNames(cls.hints), old(cls.init))
      && cls.signature == Some(NewParams(InitSignature(old(cls.init)), cls.hints, old(cls.attrs)[EnhancedCbdAttr := StrValue(cls.name)]))
    ensures !old(Marked(cls.attrs)) && cls.name == "" ==>
      && cls.init == Wrapped(DepNames(cls.hints), Wrapped(DepNames(cls.hints), old(cls.init)))
      && cls.signature == Some(DepParams(cls.hints, old(cls.attrs)[EnhancedCbdAttr := StrValue(cls.name)]))
  {
    r := EnhancedCbd(cls);
    if cls.name == "" {
      RewriteTwiceLosesOriginalParams(DepNames(cls.hints), old(cls.init), cls.hints, cls.attrs);
    }
    r := EnhancedCbd(r);
  }
}
