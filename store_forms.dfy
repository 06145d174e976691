/** The forms a config store accepts for its preprocessor, filter, strategy
    and sources, and what the store's constructor turns each into. */
module StoreForms {
  import opened Values
  import opened OrderedMaps
  import StandardPreprocessor
  import CastingPreprocessor
  import Base

  /** A callable preprocessor: one of the ready-made ones or any other
      function of (key, value). */
  datatype Callable =
    | Standard
    | Casting
    | StandardWithCast
    | Custom(f: (string, Value) -> (string, Value))

  /** Calling a callable. The two casting ones raise `ValueError` on a
      value `float` cannot read; the others never raise. */
  function Call(c: Callable, k: string, v: Value): (r: Result<(string, Value)>)
    ensures c.Standard? ==> r == Ok(StandardPreprocessor.Run(k, v))
    ensures c.Casting? ==> r == CastingPreprocessor.RunAsWritten(k, v)
    ensures c.StandardWithCast? ==> r == Base.SimputilsPpWithCast(k, v)
    ensures c.Custom? ==> r == Ok(c.f(k, v))
    ensures r.Err? ==> r.error.ValueError? && (c.Casting? || c.StandardWithCast?)
  {
    match c
    case Standard => Ok(Base.SimputilsPp(k, v))
    case Casting => Base.SimputilsCast(k, v)
    case StandardWithCast => Base.SimputilsPpWithCast(k, v)
    case Custom(f) => Ok(f(k, v))
  }

  /** The `preprocessor` argument of the store. */
  datatype PreprocessorArg =
    | PpNone
    | PpDict(table: seq<(string, string)>)
    | PpList(callables: seq<Callable>)
    | PpCallable(callable: Callable)
    | PpOther

  /** The preprocessor the store keeps: a rename table, a chain of
      callables, one callable, or the identity. */
  datatype Preprocessor =
    | Rename(table: seq<(string, string)>)
    | Chain(callables: seq<Callable>)
    | Single(callable: Callable)
    | Identity

  /** `_prepare_preprocessor`: a dict becomes a rename table, a list or
      tuple a chain, a callable stays, anything else is the identity. */
  function PreparePreprocessor(arg: PreprocessorArg): (p: Preprocessor)
    ensures arg.PpDict? <==> p.Rename?
    ensures arg.PpList? <==> p.Chain?
    ensures arg.PpCallable? <==> p.Single?
    ensures (arg.PpNone? || arg.PpOther?) <==> p.Identity?
  {
    match arg
    case PpDict(table) => Rename(table)
    case PpList(cs) => Chain(cs)
    case PpCallable(c) => Single(c)
    case _ => Identity
  }

  /** `_key_replace_callback`: a key in the table is replaced by its new
      name, the value is kept. */
  function KeyReplace(table: seq<(string, string)>, k: string, v: Value): (r: (string, Value))
    ensures r.1 == v
    ensures k in Keys(table) ==> Get(table, k) == Some(r.0)
    ensures k !in Keys(table) ==> r.0 == k
  {
    if k in Keys(table) then (Get(table, k).value, v) else (k, v)
  }

  /** The chain wrapper: each callable is applied to what the previous one
      returned, and the first one that raises ends the chain. */
  function ChainApply(cs: seq<Callable>, k: string, v: Value): (r: Result<(string, Value)>)
    ensures r.Err? ==> r.error.ValueError?
  {
    if cs == [] then Ok((k, v))
    else
      match Call(cs[0], k, v)
      case Err(e) => Err(e)
      case Ok(kv) => ChainApply(cs[1..], kv.0, kv.1)
  }

  /** Running a chain in two parts is running the whole chain. */
  lemma {:induction false} ChainAppend(a: seq<Callable>, b: seq<Callable>, k: string, v: Value)
    ensures ChainApply(a + b, k, v) ==
      match ChainApply(a, k, v)
      case Err(e) => Err(e)
      case Ok(kv) => ChainApply(b, kv.0, kv.1)
  {
    if a != [] {
      assert (a + b)[0] == a[0] && (a + b)[1..] == a[1..] + b;
      var r := Call(a[0], k, v);
      if r.Ok? {
        ChainAppend(a[1..], b, r.value.0, r.value.1);
      }
    } else {
      assert a + b == b;
    }
  }

  /** The chain `[simputils_pp, simputils_cast]` is `simputils_pp_with_cast`,
      raising included. */
  lemma ChainOfStandardAndCasting(k: string, v: Value)
    ensures ChainApply([Standard, Casting], k, v) == Base.SimputilsPpWithCast(k, v)
  {
    var r := Call(Standard, k, v).value;
    assert [Standard, Casting][1..] == [Casting];
    assert ChainApply([Standard, Casting], k, v) == ChainApply([Casting], r.0, r.1);
    assert [Casting][1..] == [];
    assert ChainApply([Casting], r.0, r.1) == Call(Casting, r.0, r.1);
  }

  /** `_get_prepare_pp_for_list`: the loop over the callables; an exception
      from one callable leaves the loop. */
  method RunChain(cs: seq<Callable>, k0: string, v0: Value) returns (r: Result<(string, Value)>)
    ensures r == ChainApply(cs, k0, v0)
  {
    var k, v := k0, v0;
    for i := 0 to |cs|
      invariant ChainApply(cs, k0, v0) == ChainApply(cs[i..], k, v)
    {
      assert cs[i..][1..] == cs[i + 1..];
      var step := Call(cs[i], k, v);
      if step.Err? {
        return Err(step.error);
      }
      k, v := step.value.0, step.value.1;
    }
    assert cs[|cs|..] == [];
    return Ok((k, v));
  }

  /** Calling the preprocessor the store keeps. */
  function Preprocess(p: Preprocessor, k: string, v: Value): (r: Result<(string, Value)>)
    ensures p.Identity? ==> r == Ok((k, v))
    ensures p.Rename? ==> r == Ok(KeyReplace(p.table, k, v))
    ensures p.Single? ==> r == Call(p.callable, k, v)
    ensures p.Chain? ==> r == ChainApply(p.callables, k, v)
    ensures r.Err? ==> r.error.ValueError?
  {
    match p
    case Rename(table) => Ok(KeyReplace(table, k, v))
    case Chain(cs) => ChainApply(cs, k, v)
    case Single(c) => Call(c, k, v)
    case Identity => Ok((k, v))
  }

  /** The key the preprocessor gives, with `None` as the value, as the store
      computes it before a lookup. */
  function PreprocessKey(p: Preprocessor, k: string): (r: Result<string>)
    ensures r.Err? ==> r.error.ValueError?
  {
    match Preprocess(p, k, Null)
    case Err(e) => Err(e)
    case Ok(kv) => Ok(kv.0)
  }

  /** A preprocessor without a casting callable never raises. */
  predicate CannotRaise(p: Preprocessor) {
    match p
    case Chain(cs) => forall i :: 0 <= i < |cs| ==> !cs[i].Casting? && !cs[i].StandardWithCast?
    case Single(c) => !c.Casting? && !c.StandardWithCast?
    case _ => true
  }

  lemma {:induction false} ChainCannotRaise(cs: seq<Callable>, k: string, v: Value)
    requires forall i :: 0 <= i < |cs| ==> !cs[i].Casting? && !cs[i].StandardWithCast?
    ensures ChainApply(cs, k, v).Ok?
  {
    if cs != [] {
      var kv := Call(cs[0], k, v).value;
      ChainCannotRaise(cs[1..], kv.0, kv.1);
    }
  }

  lemma PreprocessOk(p: Preprocessor, k: string, v: Value)
    requires CannotRaise(p)
    ensures Preprocess(p, k, v).Ok?
  {
    if p.Chain? {
      ChainCannotRaise(p.callables, k, v);
    }
  }

  /** The casting preprocessor leaves `None` alone, so it never raises when
      it preprocesses a key on its own. */
  lemma CastingKeyOk(k: string)
    ensures PreprocessKey(Single(Casting), k) == Ok(k)
    ensures PreprocessKey(Single(StandardWithCast), k) == Ok(StandardPreprocessor.Normalise(k))
  {
  }

  /** The casting preprocessors raise `ValueError` on the value ".". */
  lemma CastingPreprocessorRaises(k: string)
    ensures Preprocess(Single(Casting), k, Str(".")).Err?
    ensures Preprocess(Single(Casting), k, Str(".")).error.ValueError?
    ensures Preprocess(Single(StandardWithCast), k, Str(".")).Err?
  {
    CastingPreprocessor.DotRaisesAsWritten(k);
    assert CastingPreprocessor.Unsigned(CastingPreprocessor.Body(".")) == ".";
  }

  /** A preprocessor whose key result never depends on the value: no custom
      callable. */
  predicate KeyOnly(p: Preprocessor) {
    match p
    case Chain(cs) => forall i :: 0 <= i < |cs| ==> !cs[i].Custom?
    case Single(c) => !c.Custom?
    case _ => true
  }

  /** A ready-made callable gives the same key for any value it does not
      raise on, and passes `None` through. */
  lemma CallKeyOnly(c: Callable, k: string, v: Value)
    requires !c.Custom? && Call(c, k, v).Ok?
    ensures Call(c, k, Null) == Ok((Call(c, k, v).value.0, Null))
  {
  }

  lemma {:induction false} ChainKeyOnly(cs: seq<Callable>, k: string, v: Value)
    requires forall i :: 0 <= i < |cs| ==> !cs[i].Custom?
    requires ChainApply(cs, k, v).Ok?
    ensures ChainApply(cs, k, Null) == Ok((ChainApply(cs, k, v).value.0, Null))
  {
    if cs != [] {
      var kv := Call(cs[0], k, v).value;
      CallKeyOnly(cs[0], k, v);
      ChainKeyOnly(cs[1..], kv.0, kv.1);
    }
  }

  /** Without a custom callable, the key the store computes with `None` as
      the value (for a lookup, the strict check, key learning) is the key
      the pair itself preprocesses to. */
  lemma PreprocessKeyOnly(p: Preprocessor, k: string, v: Value)
    requires KeyOnly(p) && Preprocess(p, k, v).Ok?
    ensures PreprocessKey(p, k) == Ok(Preprocess(p, k, v).value.0)
  {
    match p
    case Chain(cs) => ChainKeyOnly(cs, k, v);
    case Single(c) => CallKeyOnly(c, k, v);
    case _ =>
  }

  /** The standard preprocessor as the store keeps it normalises the key
      and keeps the value. */
  lemma PreprocessStandard(k: string, v: Value)
    ensures Preprocess(Single(Standard), k, v) == Ok((StandardPreprocessor.Normalise(k), v))
    ensures PreprocessKey(Single(Standard), k) == Ok(StandardPreprocessor.Normalise(k))
  {
  }

  /** A non-empty key set under the standard preprocessor admits a key
      when some filter key normalises to the key's normal form. */
  lemma KeyFilterStandard(keys: seq<string>, k: string, v: Value)
    requires keys != [] && KeyFilter(keys, Single(Standard), k, v) == Ok(true)
    ensures exists l :: 0 <= l < |keys| && StandardPreprocessor.Normalise(keys[l]) == StandardPreprocessor.Normalise(k)
  {
    PreprocessStandard(k, v);
    MatchAnyTrue(keys, Single(Standard), StandardPreprocessor.Normalise(k));
    var l :| 0 <= l < |keys| && PreprocessKey(Single(Standard), keys[l]) == Ok(StandardPreprocessor.Normalise(k));
    PreprocessStandard(keys[l], Null);
  }

  /** A rename table is not idempotent: with {"a": "b", "b": "c"}, "a"
      becomes "b" and "b" becomes "c", so preprocessing a preprocessed key
      moves it again. */
  lemma RenameNotIdempotent()
    ensures PreprocessKey(Rename([("a", "b"), ("b", "c")]), "a") == Ok("b")
    ensures PreprocessKey(Rename([("a", "b"), ("b", "c")]), "b") == Ok("c")
  {
    var t := [("a", "b"), ("b", "c")];
    assert Keys(t) == ["a", "b"];
    assert IndexOf(t, "a") == 0;
    assert IndexOf(t, "b") == 1;
  }

  /** The standard preprocessor is idempotent on keys, so the store's
      repeated preprocessing of one key never moves it. */
  lemma StandardKeyIdempotent(k: string, v: Value, w: Value)
    ensures Preprocess(Single(Standard), Preprocess(Single(Standard), k, v).value.0, w).value.0
         == Preprocess(Single(Standard), k, v).value.0
  {
    StandardPreprocessor.NormaliseIdempotent(k);
  }

  /** The `filter` argument of the store. */
  datatype FilterArg =
    | FilterNone
    | FilterBool(b: bool)
    | FilterKeys(keys: seq<string>)
    | FilterCallable(f: (string, Value) -> bool)

  /** The filter the store keeps. `Learned` is the key list the store
      learns from its first non-empty apply. */
  datatype Filter =
    | KeySet(keys: seq<string>)
    | Learned
    | Predicate(f: (string, Value) -> bool)
    | AcceptAll

  /** `_prepare_filter`: an iterable becomes a key set, `True` the learned
      keys, a callable stays, anything else accepts everything. */
  function PrepareFilter(arg: FilterArg): (f: Filter)
    ensures arg.FilterKeys? <==> f.KeySet?
    ensures arg == FilterBool(true) <==> f.Learned?
    ensures arg.FilterCallable? <==> f.Predicate?
    ensures (arg.FilterNone? || arg == FilterBool(false)) <==> f.AcceptAll?
  {
    match arg
    case FilterKeys(ks) => KeySet(ks)
    case FilterBool(b) => if b then Learned else AcceptAll
    case FilterCallable(g) => Predicate(g)
    case FilterNone => AcceptAll
  }

  /** The key-set wrapper: the pair is preprocessed again (which may
      raise); an empty set admits everything; otherwise a key is admitted
      when some filter key preprocesses to the same key. */
  function KeyFilter(keys: seq<string>, p: Preprocessor, k: string, v: Value): (r: Result<bool>)
    ensures Preprocess(p, k, v).Err? ==> r == Err(Preprocess(p, k, v).error)
    ensures Preprocess(p, k, v).Ok? && |keys| == 0 ==> r == Ok(true)
    ensures Preprocess(p, k, v).Ok? && |keys| > 0 ==> r == MatchAny(keys, p, Preprocess(p, k, v).value.0)
  {
    match Preprocess(p, k, v)
    case Err(e) => Err(e)
    case Ok(kv) => if |keys| == 0 then Ok(true) else MatchAny(keys, p, kv.0)
  }

  /** The filter keys in order, each preprocessed with `None`, until one
      equals `key` or raises. */
  function MatchAny(keys: seq<string>, p: Preprocessor, key: string): Result<bool> {
    if keys == [] then Ok(false)
    else
      match PreprocessKey(p, keys[0])
      case Err(e) => Err(e)
      case Ok(fk) => if fk == key then Ok(true) else MatchAny(keys[1..], p, key)
  }

  /** `MatchAny` finds a match exactly when some filter key preprocesses
      to `key` before any filter key raises, and says no exactly when every
      filter key preprocesses to another key. */
  lemma {:induction false} MatchAnyTrue(keys: seq<string>, p: Preprocessor, key: string)
    ensures MatchAny(keys, p, key) == Ok(true) ==>
      exists i :: 0 <= i < |keys| && PreprocessKey(p, keys[i]) == Ok(key)
    ensures MatchAny(keys, p, key) == Ok(false) <==>
      forall i :: 0 <= i < |keys| ==> PreprocessKey(p, keys[i]).Ok? && PreprocessKey(p, keys[i]).value != key
    ensures MatchAny(keys, p, key).Err? ==>
      exists i :: 0 <= i < |keys| && PreprocessKey(p, keys[i]) == Err(MatchAny(keys, p, key).error)
  {
    if keys != [] {
      MatchAnyTrue(keys[1..], p, key);
      assert forall i :: 1 <= i < |keys| ==> keys[i] == keys[1..][i - 1];
      if PreprocessKey(p, keys[0]).Ok? && PreprocessKey(p, keys[0]).value != key {
        assert (forall i :: 0 <= i < |keys| ==> PreprocessKey(p, keys[i]).Ok? && PreprocessKey(p, keys[i]).value != key)
           <==> (forall i :: 0 <= i < |keys[1..]| ==> PreprocessKey(p, keys[1..][i]).Ok? && PreprocessKey(p, keys[1..][i]).value != key);
      }
    }
  }

  /** `_get_prepare_filter_wrapper`'s inner function: the loop over the
      filter keys with an early return. */
  method KeyFilterWrapper(keys: seq<string>, p: Preprocessor, k: string, v: Value) returns (admitted: Result<bool>)
    ensures admitted == KeyFilter(keys, p, k, v)
  {
    var pre := Preprocess(p, k, v);
    if pre.Err? {
      return Err(pre.error);
    }
    var key := pre.value.0;
    if |keys| == 0 {
      return Ok(true);
    }
    for i := 0 to |keys|
      invariant MatchAny(keys, p, key) == MatchAny(keys[i..], p, key)
    {
      assert keys[i..][1..] == keys[i + 1..];
      var filterKey := PreprocessKey(p, keys[i]);
      if filterKey.Err? {
        return Err(filterKey.error);
      }
      if filterKey.value == key {
        return Ok(true);
      }
    }
    assert keys[|keys|..] == [];
    return Ok(false);
  }

  /** Whether the filter the store keeps admits a preprocessed pair. */
  function Admits(f: Filter, p: Preprocessor, learned: seq<string>, k: string, v: Value): Result<bool> {
    match f
    case KeySet(keys) => KeyFilter(keys, p, k, v)
    case Learned => KeyFilter(learned, p, k, v)
    case Predicate(g) => Ok(g(k, v))
    case AcceptAll => Ok(true)
  }

  /** A key-set filter compares preprocessed keys on both sides: with the
      standard preprocessor, "my key" in the filter admits "MY-KEY". */
  lemma KeyFilterComparesPreprocessed(filterKey: string, k: string, v: Value)
    requires StandardPreprocessor.Normalise(filterKey) == StandardPreprocessor.Normalise(k)
    ensures KeyFilter([filterKey], Single(Standard), k, v) == Ok(true)
  {
    StandardPreprocessor.NormaliseIdempotent(k);
    PreprocessStandard(k, v);
    PreprocessStandard(filterKey, Null);
  }

  /** A merging strategy object. */
  datatype Strategy = Flat | Recursive(listExtend: bool)

  /** The `strategy` argument: a strategy object, or a strategy name. */
  datatype StrategyArg = FlatName | RecursiveName | OtherName | StrategyObject(strategy: Strategy)

  /** `_prepare_strategy`: an object is kept; the recursive name gives a
      recursive strategy without list extension; any other name gives the
      flat strategy. */
  function PrepareStrategy(arg: StrategyArg): (s: Strategy)
    ensures arg.StrategyObject? ==> s == arg.strategy
    ensures arg == RecursiveName ==> s == Recursive(false)
    ensures arg == FlatName || arg == OtherName ==> s == Flat
  {
    match arg
    case StrategyObject(s) => s
    case RecursiveName => Recursive(false)
    case _ => Flat
  }

  /** A store's `source`: a string, or the namespace a store was built from. */
  datatype SourceTag = Text(text: string) | NamespaceObject(attrs: seq<(string, Value)>)

  /** What another store offers when it is used as a source: its items and
      its provenance fields. */
  datatype Snapshot = Snapshot(items: seq<(string, Value)>, name: Option<string>, source: Option<SourceTag>,
                               typ: string, handler: Option<string>)

  /** A value handed to the store as configuration. */
  datatype Source =
    | NoneSrc
    | DictSrc(items: seq<(string, Value)>)
    | EnvironSrc(items: seq<(string, Value)>)
    | NamespaceSrc(attrs: seq<(string, Value)>)
    | StoreSrc(store: Snapshot)
    | EnumSrc(enumClass: Base.EnumClass)
    | OtherSrc(typeName: string, truthy: bool)

  /** Python truthiness of a source: `None` and empty mappings are false; a
      namespace and a class are always true. */
  predicate Truthy(src: Source) {
    match src
    case NoneSrc => false
    case DictSrc(items) => |items| > 0
    case EnvironSrc(items) => |items| > 0
    case NamespaceSrc(_) => true
    case StoreSrc(s) => |s.items| > 0
    case EnumSrc(_) => true
    case OtherSrc(_, truthy) => truthy
  }

  /** The pairs `dict(src)` yields. */
  function Items(src: Source): seq<(string, Value)> {
    match src
    case DictSrc(items) => items
    case EnvironSrc(items) => items
    case NamespaceSrc(attrs) => attrs
    case StoreSrc(s) => s.items
    case _ => []
  }

  /** The source and provenance fields after `_prepare_supported_types`. */
  datatype Prepared = Prepared(values: Source, name: Option<string>, source: Option<SourceTag>,
                               typ: string, handler: Option<string>)

  /** `__val_or_val`: the first value unless it is `None`. */
  function ValOr<T>(a: Option<T>, b: Option<T>): (r: Option<T>)
    ensures a.Some? ==> r == a
    ensures a.None? ==> r == b
  {
    if a.None? then b else a
  }

  const StoreClassName: string := "ConfigStore"

  /** `_prepare_supported_types`. The environment is tagged "environ" / "os"
      / "EnvVars" and a namespace "args" / itself / "argparser" (and turned
      into a dict), unless given otherwise; a store passes on its own name,
      source, type and handler; a dict is typed "dict". A string enum class
      needs `ConfigStoreType.ENUM`, which the enum does not define, so it
      raises `AttributeError`; any other value but `None` raises
      `TypeError`. A missing or empty type becomes the class name. */
  function PrepareSupportedTypes(values: Source, name: Option<string>, source: Option<SourceTag>,
                                 typ: Option<string>, handler: Option<string>): (r: Result<Prepared>)
    ensures r.Err? <==> values.EnumSrc? || values.OtherSrc?
    ensures values.EnumSrc? ==> r == Err(AttributeError("ENUM"))
    ensures r.Ok? ==> r.value.typ != ""
    ensures r.Ok? && values.EnvironSrc? && name.None? && source.None? && typ.None? ==>
      r.value.name == Some("environ") && r.value.source == Some(Text("os")) && r.value.typ == "EnvVars"
    ensures r.Ok? && values.DictSrc? && typ.None? ==> r.value.typ == "dict"
    ensures r.Ok? ==> Items(r.value.values) == Items(values)
  {
    var prepared: Result<Prepared> :=
      match values
      case EnvironSrc(_) =>
        Ok(Prepared(values, ValOr(name, Some("environ")), ValOr(source, Some(Text("os"))),
                    ValOr(typ, Some("EnvVars")).value, handler))
      case NamespaceSrc(attrs) =>
        Ok(Prepared(DictSrc(attrs), ValOr(name, Some("args")), ValOr(source, Some(NamespaceObject(attrs))),
                    ValOr(typ, Some("argparser")).value, handler))
      case StoreSrc(s) =>
        Ok(Prepared(values, ValOr(name, s.name), ValOr(source, s.source), ValOr(typ, Some(s.typ)).value,
                    ValOr(handler, s.handler)))
      case DictSrc(_) =>
        Ok(Prepared(values, name, source, ValOr(typ, Some("dict")).value, handler))
      case EnumSrc(_) => Err(AttributeError("ENUM"))
      case OtherSrc(_, _) => Err(TypeError("Unsupported data-type"))
      case NoneSrc => Ok(Prepared(values, name, source, if typ.Some? then typ.value else "", handler));
    match prepared
    case Ok(p) => Ok(p.(typ := if p.typ == "" then StoreClassName else p.typ))
    case Err(e) => Err(e)
  }

  /** Preparing an already prepared source again changes nothing, as
      happens when the constructor hands its prepared values to
      `config_apply`. */
  lemma PrepareTwice(values: Source, name: Option<string>, source: Option<SourceTag>,
                     typ: Option<string>, handler: Option<string>)
    requires PrepareSupportedTypes(values, name, source, typ, handler).Ok?
    ensures var p := PrepareSupportedTypes(values, name, source, typ, handler).value;
            PrepareSupportedTypes(p.values, p.name, p.source, Some(p.typ), p.handler) == Ok(p)
  {
  }

  /** The settings a store fixes at construction. */
  datatype Settings = Settings(preprocessor: Preprocessor, filter: Filter, strict: bool,
                               returnDefaultOnNone: bool, strategy: Strategy)

  /** One provenance record: `AppliedConf`. */
  datatype AppliedConf = AppliedConf(appliedKeys: seq<string>, typ: string, name: Option<string>,
                                     source: Option<SourceTag>, handler: Option<string>,
                                     ref: seq<(string, Value)>)

  /** `get(key, default)`: the key is preprocessed (with `None` as the
      value), which may raise; in strict mode a key not stored raises
      `StrictKeysEnabled`. With `return_default_on_none` the default replaces a missing key and
      a stored `None`; without it, only a missing key. */
  function GetSpec(storage: seq<(string, Value)>, s: Settings, key: string, default: Value): (r: Result<Value>)
    ensures PreprocessKey(s.preprocessor, key).Err? ==> r == Err(PreprocessKey(s.preprocessor, key).error)
    ensures PreprocessKey(s.preprocessor, key).Ok? ==> var k := PreprocessKey(s.preprocessor, key).value;
      && (s.strict && k !in Keys(storage) ==> r == Err(StrictKeysEnabled(k)))
      && (r.Err? ==> s.strict && k !in Keys(storage))
      && (r.Ok? && k !in Keys(storage) ==> r.value == default)
      && (r.Ok? && k in Keys(storage) && !(s.returnDefaultOnNone && Get(storage, k) == Some(Null)) ==>
            Some(r.value) == Get(storage, k))
      && (r.Ok? && k in Keys(storage) && s.returnDefaultOnNone && Get(storage, k) == Some(Null) ==> r.value == default)
  {
    match PreprocessKey(s.preprocessor, key)
    case Err(e) => Err(e)
    case Ok(k) =>
      if s.strict && k !in Keys(storage) then Err(StrictKeysEnabled(k))
      else
        var res := GetOr(storage, k, Null);
        if s.returnDefaultOnNone then
          if res.Null? then Ok(default) else Ok(res)
        else
          if k !in Keys(storage) then Ok(default) else Ok(res)
  }
}
