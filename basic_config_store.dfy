/** `BasicConfigStore`, with `ConfigStore`, its only concrete subclass: a
    dict-like store that keeps, for every configuration applied to it, a
    record of the keys that configuration set. */
module BasicConfigStore {
  import opened Values
  import opened OrderedMaps
  import opened StoreForms
  import opened BasicMergingStrategy
  import StandardPreprocessor

  /** The part of a store that changes after construction: the storage, the
      applied-configuration records and the initially learned keys. */
  datatype StoreState = StoreState(storage: seq<(string, Value)>, appliedConfs: seq<AppliedConf>,
                                   initialKeys: seq<string>)

  /** The preprocessor as the callable the store hands to its strategy. */
  function PpOf(p: Preprocessor): (string, Value) -> Result<(string, Value)> {
    (k, v) => Preprocess(p, k, v)
  }

  /** Writing the first `i + 1` pairs is writing the first `i`, then pair `i`. */
  lemma PutAllStep(m: seq<(string, Value)>, result: seq<(string, Value)>, i: nat)
    requires i < |result|
    ensures PutAll(m, result[..i + 1]) == Put(PutAll(m, result[..i]), result[i].0, result[i].1)
  {
    assert result[..i + 1] == result[..i] + [result[i]];
    PutAllSnoc(m, result[..i], result[i]);
  }

  /** The filter as the callable the store hands to its strategy; a `True`
      filter reads the learned keys at call time. */
  function AdmitsOf(s: Settings, learned: seq<string>): (string, Value) -> Result<bool> {
    (k, v) => Admits(s.filter, s.preprocessor, learned, k, v)
  }

  /** The store as its strategy sees it: `target.get(key)` is the store's
      own `get` with no default. */
  function ViewOf(storage: seq<(string, Value)>, s: Settings): TargetView {
    TargetView(storage, k => GetSpec(storage, s, k, Null))
  }

  /** Every stored key is its own preprocessed form, as keys the store
      wrote through an idempotent preprocessor are. */
  predicate KeysSettled(storage: seq<(string, Value)>, p: Preprocessor) {
    forall k :: k in Keys(storage) ==> PreprocessKey(p, k) == Ok(k)
  }

  /** The store's `get`, as its strategy calls it, does not raise on a
      stored key when every stored key preprocesses, in strict mode to a
      stored key. */
  lemma ViewLookupOk(storage: seq<(string, Value)>, s: Settings)
    requires forall k :: k in Keys(storage) ==> PreprocessKey(s.preprocessor, k).Ok?
    requires s.strict ==> forall k :: k in Keys(storage) ==> PreprocessKey(s.preprocessor, k).value in Keys(storage)
    ensures forall k :: k in Keys(storage) ==> ViewOf(storage, s).get(k).Ok?
  {
    forall k | k in Keys(storage) ensures ViewOf(storage, s).get(k).Ok? {
      assert ViewOf(storage, s).get(k) == GetSpec(storage, s, k, Null);
    }
  }

  /** `dict(config)`: the pairs of a source as a dict, a repeated key
      keeping its first position and its last value. */
  function DictOf(config: Source): seq<(string, Value)> {
    PutAll([], Items(config))
  }

  /** The keys `_apply_data` learns: each key preprocessed with `None` as the
      value, in order, until one raises. */
  function LearnKeys(p: Preprocessor, keys: seq<string>): Result<seq<string>> {
    if keys == [] then Ok([])
    else
      match LearnKeys(p, keys[..|keys| - 1])
      case Err(e) => Err(e)
      case Ok(learned) =>
        match PreprocessKey(p, keys[|keys| - 1])
        case Err(e) => Err(e)
        case Ok(k) => Ok(learned + [k])
  }

  /** The learned keys after an apply of `keys`: learned only when none
      were learned before. */
  function InitialKeysAfter(st: StoreState, s: Settings, keys: seq<string>): Result<seq<string>> {
    if st.initialKeys == [] then LearnKeys(s.preprocessor, keys) else Ok(st.initialKeys)
  }

  /** Learning keys that the preprocessor leaves alone learns them as they
      are. */
  lemma {:induction false} LearnKeysIdentity(keys: seq<string>)
    ensures LearnKeys(Identity, keys) == Ok(keys)
  {
    if keys != [] {
      LearnKeysIdentity(keys[..|keys| - 1]);
      assert keys[..|keys| - 1] + [keys[|keys| - 1]] == keys;
    }
  }

  /** Once a key raises, learning a longer prefix raises the same error. */
  lemma {:induction false} LearnKeysStops(p: Preprocessor, keys: seq<string>, n: nat)
    requires 0 < n <= |keys| && PreprocessKey(p, keys[n - 1]).Err?
    requires LearnKeys(p, keys[..n - 1]).Ok?
    ensures LearnKeys(p, keys) == Err(PreprocessKey(p, keys[n - 1]).error)
    decreases |keys| - n
  {
    assert keys[..n][..n - 1] == keys[..n - 1];
    LearnKeysErrStays(p, keys, n, |keys|);
    assert keys[..|keys|] == keys;
  }

  lemma {:induction false} LearnKeysErrStays(p: Preprocessor, keys: seq<string>, n: nat, m: nat)
    requires n <= m <= |keys| && LearnKeys(p, keys[..n]).Err?
    ensures LearnKeys(p, keys[..m]) == LearnKeys(p, keys[..n])
    decreases m - n
  {
    if n < m {
      assert keys[..n + 1][..n] == keys[..n];
      LearnKeysErrStays(p, keys, n + 1, m);
    }
  }

  /** Learning succeeds exactly when no key raises, and then holds each key
      preprocessed, in order. */
  lemma LearnKeysOk(p: Preprocessor, keys: seq<string>)
    ensures LearnKeys(p, keys).Ok? <==> forall i :: 0 <= i < |keys| ==> PreprocessKey(p, keys[i]).Ok?
    ensures LearnKeys(p, keys).Ok? ==>
      |LearnKeys(p, keys).value| == |keys| &&
      forall i :: 0 <= i < |keys| ==> Ok(LearnKeys(p, keys).value[i]) == PreprocessKey(p, keys[i])
  {
    if forall i :: 0 <= i < |keys| ==> PreprocessKey(p, keys[i]).Ok? {
      LearnKeysAllOk(p, keys);
    }
    if LearnKeys(p, keys).Ok? {
      LearnKeysValues(p, keys);
    }
  }

  lemma {:induction false} LearnKeysAllOk(p: Preprocessor, keys: seq<string>)
    requires forall i :: 0 <= i < |keys| ==> PreprocessKey(p, keys[i]).Ok?
    ensures LearnKeys(p, keys).Ok?
  {
    if keys != [] {
      var prefix := keys[..|keys| - 1];
      assert forall i :: 0 <= i < |prefix| ==> prefix[i] == keys[i];
      LearnKeysAllOk(p, prefix);
    }
  }

  lemma {:induction false} LearnKeysValues(p: Preprocessor, keys: seq<string>)
    requires LearnKeys(p, keys).Ok?
    ensures |LearnKeys(p, keys).value| == |keys|
    ensures forall i :: 0 <= i < |keys| ==> Ok(LearnKeys(p, keys).value[i]) == PreprocessKey(p, keys[i])
  {
    if keys != [] {
      var n := |keys| - 1;
      var prefix := keys[..n];
      var pre := LearnKeys(p, prefix).value;
      LearnKeysValues(p, prefix);
      var learned := LearnKeys(p, keys).value;
      assert learned == pre + [PreprocessKey(p, keys[n]).value];
      forall i | 0 <= i < |keys|
        ensures Ok(learned[i]) == PreprocessKey(p, keys[i])
      {
        if i < n {
          assert learned[i] == pre[i] && prefix[i] == keys[i];
        }
      }
    }
  }

  /** `config_apply`: a falsy configuration changes nothing; otherwise the
      source is prepared, merged by the strategy, written into the storage,
      the keys are learned if none were learned yet, and one record is
      appended. An error, including one the preprocessor or the filter
      raises, leaves the store as it was. */
  function ConfigApplySpec(st: StoreState, s: Settings, config: Source, name: Option<string>,
                           source: Option<SourceTag>, typ: Option<string>, handler: Option<string>): (r: Result<StoreState>)
    ensures !Truthy(config) ==> r == Ok(st)
    ensures Truthy(config) && (config.EnumSrc? || config.OtherSrc?) ==> r.Err?
    ensures r.Ok? && Truthy(config) ==>
      |r.value.appliedConfs| == |st.appliedConfs| + 1 && r.value.appliedConfs[..|st.appliedConfs|] == st.appliedConfs
    ensures r.Ok? && st.initialKeys != [] ==> r.value.initialKeys == st.initialKeys
  {
    if !Truthy(config) then Ok(st)
    else
      match PrepareSupportedTypes(config, name, source, typ, handler)
      case Err(e) => Err(e)
      case Ok(p) =>
        var items := DictOf(p.values);
        match ApplyDataSpec(ViewOf(st.storage, s), s.strategy, PpOf(s.preprocessor), AdmitsOf(s, st.initialKeys), items, false)
        case Err(e) => Err(e)
        case Ok(out) =>
          match InitialKeysAfter(st, s, Keys(items))
          case Err(e) => Err(e)
          case Ok(learned) =>
            var record := AppliedConf(out.1, p.typ, p.name, p.source, p.handler, Items(p.values));
            assert (st.appliedConfs + [record])[..|st.appliedConfs|] == st.appliedConfs;
            Ok(StoreState(PutAll(st.storage, out.0), st.appliedConfs + [record], learned))
  }

  /** When the data applies, `config_apply` writes what the strategy
      returned, appends the record and learns the keys. */
  lemma ConfigApplyOkSpec(st: StoreState, s: Settings, config: Source, name: Option<string>,
                          source: Option<SourceTag>, typ: Option<string>, handler: Option<string>, out: Output,
                          learned: seq<string>)
    requires Truthy(config) && PrepareSupportedTypes(config, name, source, typ, handler).Ok?
    requires var p := PrepareSupportedTypes(config, name, source, typ, handler).value;
      ApplyDataSpec(ViewOf(st.storage, s), s.strategy, PpOf(s.preprocessor), AdmitsOf(s, st.initialKeys),
                    DictOf(p.values), false) == Ok(out)
    requires var p := PrepareSupportedTypes(config, name, source, typ, handler).value;
      InitialKeysAfter(st, s, Keys(DictOf(p.values))) == Ok(learned)
    ensures var p := PrepareSupportedTypes(config, name, source, typ, handler).value;
      ConfigApplySpec(st, s, config, name, source, typ, handler) ==
        Ok(StoreState(PutAll(st.storage, out.0),
                      st.appliedConfs + [AppliedConf(out.1, p.typ, p.name, p.source, p.handler, Items(p.values))],
                      learned))
  {
  }

  /** Writing the dict built from `a` into `m`: the keys of `a` take their
      last value in `a`, the others keep theirs. */
  lemma GetThroughDict(m: seq<(string, Value)>, a: seq<(string, Value)>, k: string)
    ensures Get(PutAll(m, PutAll([], a)), k) == if k in Keys(a) then Some(LastValue(a, k)) else Get(m, k)
  {
    var d := PutAll([], a);
    GetPutAll(m, d, k);
    GetPutAll([], a, k);
    if k in Keys(d) {
      PutAllValid([], a);
      LastValueValid(d, k);
    }
  }

  /** The first key, among those a strict check iterates, whose preprocessed
      form is not stored, or the error preprocessing a key raised first. */
  function FirstUnknown(storage: seq<(string, Value)>, p: Preprocessor, keys: seq<string>): (r: Result<Option<string>>)
    ensures r == Ok(None) <==>
      forall i :: 0 <= i < |keys| ==> PreprocessKey(p, keys[i]).Ok? && PreprocessKey(p, keys[i]).value in Keys(storage)
    ensures r.Ok? && r.value.Some? ==>
      r.value.value !in Keys(storage) && exists i :: 0 <= i < |keys| && PreprocessKey(p, keys[i]) == Ok(r.value.value)
    ensures r.Err? ==> r.error.ValueError? && exists i :: 0 <= i < |keys| && PreprocessKey(p, keys[i]) == Err(r.error)
  {
    if keys == [] then Ok(None)
    else
      match PreprocessKey(p, keys[0])
      case Err(e) => Err(e)
      case Ok(k) =>
        if k !in Keys(storage) then Ok(Some(k))
        else
          var rest := FirstUnknown(storage, p, keys[1..]);
          assert forall i :: 1 <= i < |keys| ==> keys[i] == keys[1..][i - 1];
          rest
  }

  /** The keys `for key in m` visits: a mapping's keys, an enum's member
      values; `None`, a namespace and other objects cannot be iterated. */
  function IterKeys(m: Source): Option<seq<string>> {
    match m
    case DictSrc(items) => Some(Keys(items))
    case EnvironSrc(items) => Some(Keys(items))
    case StoreSrc(snapshot) => Some(Keys(snapshot.items))
    case EnumSrc(e) => Some(seq(|e.members|, i requires 0 <= i < |e.members| => e.members[i].value))
    case _ => None
  }

  /** The check `update` and `+` make in strict mode before applying. */
  function StrictCheckSpec(storage: seq<(string, Value)>, p: Preprocessor, m: Source): (r: Option<Error>)
    ensures IterKeys(m).None? ==> r.Some? && r.value.TypeError?
    ensures IterKeys(m).Some? ==>
      (r.None? <==> forall i :: 0 <= i < |IterKeys(m).value| ==>
         PreprocessKey(p, IterKeys(m).value[i]).Ok? && PreprocessKey(p, IterKeys(m).value[i]).value in Keys(storage))
    ensures r.Some? && r.value.StrictKeysEnabled? ==> r.value.key !in Keys(storage)
  {
    match IterKeys(m)
    case None => Some(TypeError("object is not iterable"))
    case Some(keys) =>
      match FirstUnknown(storage, p, keys)
      case Err(e) => Some(e)
      case Ok(None) => None
      case Ok(Some(k)) => Some(StrictKeysEnabled(k))
  }

  /** `update(m)` and `store + m`: in strict mode every key of `m` must
      already be stored (after preprocessing), then `m` is applied. */
  function UpdateSpec(st: StoreState, s: Settings, m: Source): (r: Result<StoreState>)
    ensures !s.strict ==> r == ConfigApplySpec(st, s, m, None, None, None, None)
    ensures s.strict && IterKeys(m).None? ==> r.Err? && r.error.TypeError?
    ensures s.strict && StrictCheckSpec(st.storage, s.preprocessor, m).None? ==>
      r == ConfigApplySpec(st, s, m, None, None, None, None)
    ensures s.strict && StrictCheckSpec(st.storage, s.preprocessor, m).Some? ==>
      r == Err(StrictCheckSpec(st.storage, s.preprocessor, m).value)
  {
    if s.strict && StrictCheckSpec(st.storage, s.preprocessor, m).Some? then
      Err(StrictCheckSpec(st.storage, s.preprocessor, m).value)
    else ConfigApplySpec(st, s, m, None, None, None, None)
  }

  /** In strict mode, `update` with a key whose preprocessed form is not
      stored fails, whatever the preprocessor: with `StrictKeysEnabled`, or
      with the `ValueError` an earlier key raised while preprocessed. */
  lemma StrictUnknownKeyRaises(st: StoreState, s: Settings, m: Source, i: nat)
    requires s.strict && IterKeys(m).Some? && i < |IterKeys(m).value|
    requires PreprocessKey(s.preprocessor, IterKeys(m).value[i]).Ok?
    requires PreprocessKey(s.preprocessor, IterKeys(m).value[i]).value !in Keys(st.storage)
    ensures var r := UpdateSpec(st, s, m);
      r.Err? && (r.error.StrictKeysEnabled? || r.error.ValueError?)
  {
    var keys := IterKeys(m).value;
    assert StrictCheckSpec(st.storage, s.preprocessor, m).Some?;
    assert FirstUnknown(st.storage, s.preprocessor, keys) != Ok(None);
  }

  /** A strict store with `simputils_pp_with_cast` and the filter `True`
      that holds no key "TEST" refuses `update({"test": "test1"})`,
      `store["test"] = "test2"` and `get("test")` with `StrictKeysEnabled`. */
  lemma StrictStoreRefusesUnknownKey(st: StoreState, default: Value, callName: string, callFile: string)
    requires StandardPreprocessor.Normalise("test") !in Keys(st.storage)
    ensures var s := SettingsOf(PpCallable(StandardWithCast), FilterBool(true), true, true, FlatName);
      var e := StrictKeysEnabled(StandardPreprocessor.Normalise("test"));
      && UpdateSpec(st, s, DictSrc([("test", Str("test1"))])) == Err(e)
      && SetItemSpec(st, s, "test", Str("test2"), callName, callFile) == Err(e)
      && GetSpec(st.storage, s, "test", default) == Err(e)
  {
    var s := SettingsOf(PpCallable(StandardWithCast), FilterBool(true), true, true, FlatName);
    var k := StandardPreprocessor.Normalise("test");
    var m := DictSrc([("test", Str("test1"))]);
    assert s.preprocessor == Single(StandardWithCast) && s.strict;
    assert PreprocessKey(s.preprocessor, "test") == Ok(k);
    assert IterKeys(m) == Some(["test"]) by {
      assert Keys([("test", Str("test1"))]) == ["test"];
    }
    assert FirstUnknown(st.storage, s.preprocessor, ["test"]) == Ok(Some(k));
    assert StrictCheckSpec(st.storage, s.preprocessor, m) == Some(StrictKeysEnabled(k));
  }

  /** `store[key] = value`: the key is preprocessed (which may raise),
      checked in strict mode, and applied as a one-pair dict whose record
      names the caller. */
  function SetItemSpec(st: StoreState, s: Settings, key: string, value: Value,
                       callName: string, callFile: string): (r: Result<StoreState>)
    ensures PreprocessKey(s.preprocessor, key).Err? ==> r == Err(PreprocessKey(s.preprocessor, key).error)
    ensures PreprocessKey(s.preprocessor, key).Ok? && s.strict && PreprocessKey(s.preprocessor, key).value !in Keys(st.storage) ==>
      r == Err(StrictKeysEnabled(PreprocessKey(s.preprocessor, key).value))
    ensures r.Ok? ==>
      && |r.value.appliedConfs| == |st.appliedConfs| + 1
      && r.value.appliedConfs[|st.appliedConfs|].typ == "single-value"
      && r.value.appliedConfs[|st.appliedConfs|].name == Some(callName)
      && r.value.appliedConfs[|st.appliedConfs|].source == Some(Text(callFile))
  {
    match PreprocessKey(s.preprocessor, key)
    case Err(e) => Err(e)
    case Ok(k) =>
      if s.strict && k !in Keys(st.storage) then Err(StrictKeysEnabled(k))
      else ConfigApplySpec(st, s, DictSrc([(k, value)]), Some(callName), Some(Text(callFile)), Some("single-value"), None)
  }

  /** Whether a record answers `applied_from` for a key. */
  predicate Affects(c: AppliedConf, key: string, includeUnprocessed: bool) {
    key in c.appliedKeys || (includeUnprocessed && key in Keys(c.ref))
  }

  /** `applied_from`: the latest record that affected the key. */
  function AppliedFromSpec(confs: seq<AppliedConf>, key: string, includeUnprocessed: bool): Option<AppliedConf> {
    if confs == [] then None
    else if Affects(confs[|confs| - 1], key, includeUnprocessed) then Some(confs[|confs| - 1])
    else AppliedFromSpec(confs[..|confs| - 1], key, includeUnprocessed)
  }

  /** The settings the constructor derives from its arguments. */
  function SettingsOf(preprocessor: PreprocessorArg, filter: FilterArg, returnDefaultOnNone: bool,
                      strictKeys: bool, strategy: StrategyArg): Settings {
    Settings(PreparePreprocessor(preprocessor), PrepareFilter(filter), strictKeys, returnDefaultOnNone,
             PrepareStrategy(strategy))
  }

  /** The settings of a store made with the constructor's defaults. */
  function DefaultSettings(): Settings {
    SettingsOf(PpNone, FilterNone, true, false, FlatName)
  }

  /** The constructor: the source is prepared (which may raise), then the
      prepared values are applied to the empty store. */
  function CreateSpec(values: Source, name: Option<string>, source: Option<SourceTag>, typ: Option<string>,
                      handler: Option<string>, s: Settings): (r: Result<StoreState>)
    ensures values.EnumSrc? || values.OtherSrc? ==> r.Err?
  {
    match PrepareSupportedTypes(values, name, source, typ, handler)
    case Err(e) => Err(e)
    case Ok(p) => ConfigApplySpec(StoreState([], [], []), s, p.values, p.name, p.source, Some(p.typ), handler)
  }

  /** How a state-changing operation ends: on success the new state is the
      one specified; on an error the old state is kept. */
  predicate Outcomes(spec: Result<StoreState>, r: Outcome, before: StoreState, after: StoreState) {
    match spec
    case Ok(st) => r == Pass && after == st
    case Err(e) => r == Fail(e) && after == before
  }

  class ConfigStore {
    const settings: Settings
    const name: Option<string>
    const source: Option<SourceTag>
    const typ: string
    const handler: Option<string>
    var storage: seq<(string, Value)>
    var appliedConfs: seq<AppliedConf>
    var initialKeys: seq<string>

    function State(): StoreState
      reads this
    {
      StoreState(storage, appliedConfs, initialKeys)
    }

    /** The storage is a dict: no key twice. */
    ghost predicate Valid()
      reads this
    {
      OrderedMaps.Valid(storage)
    }

    /** A store before anything is applied to it. */
    constructor Empty(settings: Settings, name: Option<string>, source: Option<SourceTag>, typ: string,
                      handler: Option<string>)
      ensures this.settings == settings && this.name == name && this.source == source
      ensures this.typ == typ && this.handler == handler
      ensures State() == StoreState([], [], []) && Valid()
    {
      this.settings := settings;
      this.name := name;
      this.source := source;
      this.typ := typ;
      this.handler := handler;
      storage := [];
      appliedConfs := [];
      initialKeys := [];
    }

    /** `ConfigStore(values, name, source, type, preprocessor, filter,
        handler, return_default_on_none, strict_keys, strategy)`. */
    static method Create(values: Source, name: Option<string>, source: Option<SourceTag>, typ: Option<string>,
                         preprocessor: PreprocessorArg, filter: FilterArg, handler: Option<string>,
                         returnDefaultOnNone: bool, strictKeys: bool, strategy: StrategyArg)
      returns (r: Result<ConfigStore>)
      ensures var s := SettingsOf(preprocessor, filter, returnDefaultOnNone, strictKeys, strategy);
        var spec := CreateSpec(values, name, source, typ, handler, s);
        && (spec.Err? ==> r == Err(spec.error))
        && (spec.Ok? ==> r.Ok? && fresh(r.value) && r.value.settings == s && r.value.handler == handler
                         && r.value.State() == spec.value && r.value.Valid()
                         && var p := PrepareSupportedTypes(values, name, source, typ, handler).value;
                            r.value.name == p.name && r.value.source == p.source && r.value.typ == p.typ)
    {
      var s := SettingsOf(preprocessor, filter, returnDefaultOnNone, strictKeys, strategy);
      var prepared := PrepareSupportedTypes(values, name, source, typ, handler);
      if prepared.Err? {
        return Err(prepared.error);
      }
      var p := prepared.value;
      var store := new ConfigStore.Empty(s, p.name, p.source, p.typ, handler);
      var outcome := store.ConfigApply(p.values, p.name, p.source, Some(p.typ), handler);
      if outcome.Fail? {
        return Err(outcome.error);
      }
      return Ok(store);
    }

    /** `config_apply(config, name, source, type, handler)`. */
    method ConfigApply(config: Source, name: Option<string>, source: Option<SourceTag>, typ: Option<string>,
                       handler: Option<string>)
      returns (r: Outcome)
      requires Valid()
      modifies this
      ensures Outcomes(ConfigApplySpec(old(State()), settings, config, name, source, typ, handler), r, old(State()), State())
      ensures Valid()
    {
      if !Truthy(config) {
        return Pass;
      }
      var prepared := PrepareSupportedTypes(config, name, source, typ, handler);
      if prepared.Err? {
        return Fail(prepared.error);
      }
      var p := prepared.value;
      var applied := ApplyToStorage(DictOf(p.values));
      if applied.Err? {
        return Fail(applied.error);
      }
      appliedConfs := appliedConfs + [AppliedConf(applied.value, p.typ, p.name, p.source, p.handler, Items(p.values))];
      return Pass;
    }

    /** `_apply_data`: the strategy merges the pairs into what the storage
        holds, the merged values are written and, while no keys are learned,
        the keys of the configuration are learned. It returns the applied
        keys. An error leaves the store as it was. */
    method ApplyToStorage(items: seq<(string, Value)>) returns (r: Result<seq<string>>)
      requires Valid()
      modifies this
      ensures var out := ApplyDataSpec(ViewOf(old(storage), settings), settings.strategy, PpOf(settings.preprocessor),
                                       AdmitsOf(settings, old(initialKeys)), items, false);
        var learned := InitialKeysAfter(old(State()), settings, Keys(items));
        && (out.Err? ==> r == Err(out.error) && State() == old(State()))
        && (out.Ok? && learned.Err? ==> r == Err(learned.error) && State() == old(State()))
        && (out.Ok? && learned.Ok? ==>
              && r == Ok(out.value.1)
              && State() == StoreState(PutAll(old(storage), out.value.0), old(appliedConfs), learned.value))
      ensures Valid()
    {
      var applied := ApplyData(ViewOf(storage, settings), settings.strategy, PpOf(settings.preprocessor),
                               AdmitsOf(settings, initialKeys), items, false);
      if applied.Err? {
        return Err(applied.error);
      }
      var learned := initialKeys;
      if initialKeys == [] {
        var learning := LearnInitialKeys(Keys(items));
        if learning.Err? {
          return Err(learning.error);
        }
        learned := learning.value;
      }
      WriteStorage(applied.value.0);
      initialKeys := learned;
      return Ok(applied.value.1);
    }

    /** The loop of `_apply_data` that writes the merged values. */
    method WriteStorage(result: seq<(string, Value)>)
      requires Valid()
      modifies this
      ensures storage == PutAll(old(storage), result) && Valid()
      ensures appliedConfs == old(appliedConfs) && initialKeys == old(initialKeys)
    {
      ghost var start := storage;
      for i := 0 to |result|
        invariant storage == PutAll(start, result[..i])
        invariant appliedConfs == old(appliedConfs) && initialKeys == old(initialKeys)
      {
        PutAllStep(start, result, i);
        storage := Put(storage, result[i].0, result[i].1);
      }
      assert result[..|result|] == result;
      PutAllValid(start, result);
    }

    /** The loop of `_apply_data` that learns the preprocessed keys of the
        first configuration applied; a key whose preprocessing raises ends
        it. */
    method LearnInitialKeys(keys: seq<string>) returns (r: Result<seq<string>>)
      ensures r == LearnKeys(settings.preprocessor, keys)
    {
      var learned: seq<string> := [];
      for i := 0 to |keys|
        invariant LearnKeys(settings.preprocessor, keys[..i]) == Ok(learned)
      {
        assert keys[..i + 1][..i] == keys[..i];
        var k := PreprocessKey(settings.preprocessor, keys[i]);
        if k.Err? {
          LearnKeysStops(settings.preprocessor, keys, i + 1);
          return Err(k.error);
        }
        learned := learned + [k.value];
      }
      assert keys[..|keys|] == keys;
      return Ok(learned);
    }

    /** `get(key, default)`. */
    function Get(key: string, default: Value): Result<Value>
      reads this
    {
      GetSpec(storage, settings, key, default)
    }

    /** `store[key]`: the key is preprocessed and checked in strict mode;
        a missing key reads as `None`. It always answers what `get(key)`
        with no default answers. */
    function GetItem(key: string): (r: Result<Value>)
      reads this
      ensures r == Get(key, Null)
    {
      match PreprocessKey(settings.preprocessor, key)
      case Err(e) => Err(e)
      case Ok(k) =>
        if settings.strict && k !in Keys(storage) then Err(StrictKeysEnabled(k))
        else Ok(GetOr(storage, k, Null))
    }

    /** `key in store`: the storage is asked as it is, without
        preprocessing. */
    function Contains(key: string): (r: bool)
      reads this
      ensures r <==> OrderedMaps.Get(storage, key).Some?
    {
      key in Keys(storage)
    }

    /** `len(store)`. */
    function Len(): (r: nat)
      reads this
      ensures r == |Keys(storage)|
    {
      |storage|
    }

    /** `store[key] = value`; the caller's function name and line, and its
        file, are parameters. */
    method SetItem(key: string, value: Value, callName: string, callFile: string) returns (r: Outcome)
      requires Valid()
      modifies this
      ensures Outcomes(SetItemSpec(old(State()), settings, key, value, callName, callFile), r, old(State()), State())
      ensures Valid()
    {
      var preprocessed := PreprocessKey(settings.preprocessor, key);
      if preprocessed.Err? {
        return Fail(preprocessed.error);
      }
      var k := preprocessed.value;
      if settings.strict && k !in Keys(storage) {
        return Fail(StrictKeysEnabled(k));
      }
      r := ConfigApply(DictSrc([(k, value)]), Some(callName), Some(Text(callFile)), Some("single-value"), None);
    }

    /** The strict-mode loop of `update` and `+`. */
    method CheckKnownKeys(m: Source) returns (r: Option<Error>)
      ensures r == StrictCheckSpec(storage, settings.preprocessor, m)
    {
      var iterated := IterKeys(m);
      if iterated.None? {
        return Some(TypeError("object is not iterable"));
      }
      var keys := iterated.value;
      for i := 0 to |keys|
        invariant FirstUnknown(storage, settings.preprocessor, keys) == FirstUnknown(storage, settings.preprocessor, keys[i..])
      {
        assert keys[i..][1..] == keys[i + 1..];
        var k := PreprocessKey(settings.preprocessor, keys[i]);
        if k.Err? {
          return Some(k.error);
        }
        if k.value !in Keys(storage) {
          return Some(StrictKeysEnabled(k.value));
        }
      }
      return None;
    }

    /** `update(m)`. */
    method Update(m: Source) returns (r: Outcome)
      requires Valid()
      modifies this
      ensures Outcomes(UpdateSpec(old(State()), settings, m), r, old(State()), State())
      ensures Valid()
    {
      if settings.strict {
        var unknown := CheckKnownKeys(m);
        if unknown.Some? {
          return Fail(unknown.value);
        }
      }
      r := ConfigApply(m, None, None, None, None);
    }

    /** `store + other`, which applies `other` to this very store (and so
        does `+=`). */
    method Add(other: Source) returns (r: Outcome)
      requires Valid()
      modifies this
      ensures Outcomes(UpdateSpec(old(State()), settings, other), r, old(State()), State())
      ensures Valid()
    {
      r := Update(other);
    }

    /** `del store[key]`: the key is not preprocessed; a missing key raises
        `KeyError`. */
    method DelItem(key: string) returns (r: Outcome)
      requires Valid()
      modifies this
      ensures key !in Keys(old(storage)) ==> r == Fail(KeyError(key)) && storage == old(storage)
      ensures key in Keys(old(storage)) ==> r == Pass && storage == Remove(old(storage), key)
      ensures appliedConfs == old(appliedConfs) && initialKeys == old(initialKeys)
      ensures Valid() && key !in Keys(storage)
      ensures forall k :: k != key ==> OrderedMaps.Get(storage, k) == OrderedMaps.Get(old(storage), k)
    {
      if key !in Keys(storage) {
        return Fail(KeyError(key));
      }
      forall k | k != key ensures OrderedMaps.Get(Remove(storage, key), k) == OrderedMaps.Get(storage, k) {
        GetRemove(storage, key, k);
      }
      storage := Remove(storage, key);
      return Pass;
    }

    /** `clear()` is refused. */
    method Clear() returns (r: Outcome)
      ensures r.Fail? && r.error.NotPermitted?
    {
      return Fail(NotPermitted("Clearing of ConfigStore is not permitted due to architecture"));
    }

    /** `pop(key)` is refused. */
    method Pop(key: string) returns (r: Result<Value>)
      ensures r.Err? && r.error.NotPermitted?
    {
      return Err(NotPermitted("Popping from ConfigStore is not permitted due to architecture"));
    }

    /** `popitem()` is refused. */
    method PopItem() returns (r: Result<(string, Value)>)
      ensures r.Err? && r.error.NotPermitted?
    {
      return Err(NotPermitted("Popping from ConfigStore is not permitted due to architecture"));
    }

    /** `applied_from(key, include_unprocessed_keys)`: walks the records
        from the latest back. */
    method AppliedFrom(key: string, includeUnprocessed: bool) returns (r: Option<AppliedConf>)
      ensures r == AppliedFromSpec(appliedConfs, key, includeUnprocessed)
    {
      var i := |appliedConfs|;
      assert appliedConfs[..i] == appliedConfs;
      while i > 0
        invariant 0 <= i <= |appliedConfs|
        invariant AppliedFromSpec(appliedConfs, key, includeUnprocessed)
               == AppliedFromSpec(appliedConfs[..i], key, includeUnprocessed)
      {
        var record := appliedConfs[i - 1];
        assert appliedConfs[..i][..i - 1] == appliedConfs[..i - 1];
        if key in record.appliedKeys {
          return Some(record);
        }
        if includeUnprocessed && key in Keys(record.ref) {
          return Some(record);
        }
        i := i - 1;
      }
      assert appliedConfs[..0] == [];
      return None;
    }

    /** What this store offers when it is itself used as a source. */
    function Snapshot(): StoreForms.Snapshot
      reads this
    {
      StoreForms.Snapshot(storage, name, source, typ, handler)
    }
  }

  /** The pairs a `config_apply` admits: the preprocessed pairs of
      `dict(config)` that the filter, as it stood, let through, or the first
      error the preprocessor or the filter raised. */
  function Admitted(st: StoreState, s: Settings, config: Source): Result<seq<(string, Value)>> {
    AdmittedPairs(PpOf(s.preprocessor), AdmitsOf(s, st.initialKeys), DictOf(config), |DictOf(config)|)
  }

  /** A successful `config_apply` of a truthy configuration appends one
      record whose applied keys are the admitted keys in order and whose
      reference is the configuration; exactly the applied keys are written,
      every other key keeps its value; the first such apply learns the
      preprocessed keys of the configuration. */
  lemma ConfigApplyRecord(st: StoreState, s: Settings, config: Source, name: Option<string>,
                          source: Option<SourceTag>, typ: Option<string>, handler: Option<string>)
    requires Truthy(config)
    requires ConfigApplySpec(st, s, config, name, source, typ, handler).Ok?
    ensures Admitted(st, s, config).Ok?
    ensures var st' := ConfigApplySpec(st, s, config, name, source, typ, handler).value;
      var record := st'.appliedConfs[|st.appliedConfs|];
      && st'.appliedConfs == st.appliedConfs + [record]
      && record.appliedKeys == Keys(Admitted(st, s, config).value)
      && record.ref == Items(config)
      && (forall k :: k in record.appliedKeys ==> k in Keys(st'.storage))
      && (forall k :: k !in record.appliedKeys ==> Get(st'.storage, k) == Get(st.storage, k))
      && (st.initialKeys == [] ==> LearnKeys(s.preprocessor, Keys(DictOf(config))) == Ok(st'.initialKeys))
  {
    var st' := ConfigApplySpec(st, s, config, name, source, typ, handler).value;
    var p := PrepareSupportedTypes(config, name, source, typ, handler).value;
    var items := DictOf(p.values);
    assert items == DictOf(config);
    var out := ApplyDataSpec(ViewOf(st.storage, s), s.strategy, PpOf(s.preprocessor), AdmitsOf(s, st.initialKeys), items, false).value;
    AppliedKeysAdmitted(ViewOf(st.storage, s), s.strategy, PpOf(s.preprocessor), AdmitsOf(s, st.initialKeys), items, false, |items|);
    assert st'.storage == PutAll(st.storage, out.0);
    assert st'.appliedConfs == st.appliedConfs + [st'.appliedConfs[|st.appliedConfs|]];
    forall k | k in out.1 ensures k in Keys(st'.storage) {
      GetPutAll(st.storage, out.0, k);
    }
    forall k | k !in out.1 ensures Get(st'.storage, k) == Get(st.storage, k) {
      GetPutAll(st.storage, out.0, k);
    }
  }

  /** A successful `config_apply` keeps the storage a dict. */
  lemma ConfigApplyKeepsDict(st: StoreState, s: Settings, config: Source, name: Option<string>,
                             source: Option<SourceTag>, typ: Option<string>, handler: Option<string>)
    requires OrderedMaps.Valid(st.storage)
    requires ConfigApplySpec(st, s, config, name, source, typ, handler).Ok?
    ensures OrderedMaps.Valid(ConfigApplySpec(st, s, config, name, source, typ, handler).value.storage)
  {
    if Truthy(config) {
      var p := PrepareSupportedTypes(config, name, source, typ, handler).value;
      var out := ApplyDataSpec(ViewOf(st.storage, s), s.strategy, PpOf(s.preprocessor), AdmitsOf(s, st.initialKeys),
                               DictOf(p.values), false).value;
      PutAllValid(st.storage, out.0);
    }
  }

  /** A preprocessor raises on a key only through a casting callable that
      a custom callable in a chain has handed a string: every preprocessor
      but a chain holding a custom callable preprocesses every key. */
  lemma KeyPreprocessingOk(p: Preprocessor, k: string)
    requires !p.Chain? || CannotRaise(p) || forall i :: 0 <= i < |p.callables| ==> !p.callables[i].Custom?
    ensures PreprocessKey(p, k).Ok?
  {
    if CannotRaise(p) {
      PreprocessOk(p, k, Null);
    } else if p.Chain? {
      ChainKeepsNull(p.callables, k);
    }
  }

  /** A chain without custom callables keeps the value `None`. */
  lemma {:induction false} ChainKeepsNull(cs: seq<Callable>, k: string)
    requires forall i :: 0 <= i < |cs| ==> !cs[i].Custom?
    ensures ChainApply(cs, k, Null).Ok? && ChainApply(cs, k, Null).value.1 == Null
  {
    if cs != [] {
      var kv := Call(cs[0], k, Null).value;
      ChainKeepsNull(cs[1..], kv.0);
    }
  }

  /** Under the flat strategy, with a preprocessor that preprocesses every
      key (and, in strict mode, a storage whose keys are settled), a prepared configuration applies exactly when
      neither the preprocessor nor the filter raises on its pairs (the
      error is then the first one raised); afterwards every admitted key
      holds the last value admitted for it while every other key keeps its
      value. */
  lemma ConfigApplyFlat(st: StoreState, s: Settings, config: Source, name: Option<string>,
                        source: Option<SourceTag>, typ: Option<string>, handler: Option<string>, k: string)
    requires s.strategy == Flat
    requires forall x :: PreprocessKey(s.preprocessor, x).Ok?
    requires s.strict ==> KeysSettled(st.storage, s.preprocessor)
    requires PrepareSupportedTypes(config, name, source, typ, handler).Ok?
    ensures var r := ConfigApplySpec(st, s, config, name, source, typ, handler);
      var a := Admitted(st, s, config);
      && (a.Err? ==> r == Err(a.error))
      && (a.Ok? ==> r.Ok? && Get(r.value.storage, k) == if k in Keys(a.value) then Some(LastValue(a.value, k)) else Get(st.storage, k))
  {
    var items := DictOf(config);
    var pp := PpOf(s.preprocessor);
    var admits := AdmitsOf(s, st.initialKeys);
    if Truthy(config) {
      var p := PrepareSupportedTypes(config, name, source, typ, handler).value;
      assert DictOf(p.values) == items;
      var t := ViewOf(st.storage, s);
      ViewLookupOk(st.storage, s);
      FlatApplyData(t, pp, admits, items, |items|);
      var a := AdmittedPairs(pp, admits, items, |items|);
      if a.Ok? {
        LearnKeysOk(s.preprocessor, Keys(items));
        var learned := InitialKeysAfter(st, s, Keys(items)).value;
        ConfigApplyOkSpec(st, s, config, name, source, typ, handler, (PutAll([], a.value), Keys(a.value)), learned);
        GetThroughDict(st.storage, a.value, k);
      }
    } else {
      assert items == [];
      assert Admitted(st, s, config) == Ok([]);
    }
  }

  /** A store built from {"k": "."} with `simputils_cast` as its
      preprocessor raises `ValueError` from its constructor: `float(".")`
      fails while the pair is preprocessed. */
  lemma CastingStoreRaises()
    ensures var r := CreateSpec(DictSrc([("k", Str("."))]), None, None, None, None,
                                SettingsOf(PpCallable(Casting), FilterNone, true, false, FlatName));
      r.Err? && r.error.ValueError?
  {
    var items := [("k", Str("."))];
    assert DictOf(DictSrc(items)) == items by {
      assert Put([], "k", Str(".")) == items;
      assert items[1..] == [];
    }
    CastingPreprocessorRaises("k");
  }

  /** With the filter `True`, the first configuration applied admits every
      pair it preprocesses, since nothing is learned yet. */
  lemma FilterTrueFirstApplyAdmitsAll(st: StoreState, s: Settings, config: Source)
    requires s.filter == Learned && st.initialKeys == []
    ensures Admitted(st, s, config).Ok? ==> |Admitted(st, s, config).value| == |DictOf(config)|
    ensures Admitted(st, s, config).Ok? ==> forall i :: 0 <= i < |DictOf(config)| ==>
      Ok(Admitted(st, s, config).value[i]) == Preprocess(s.preprocessor, DictOf(config)[i].0, DictOf(config)[i].1)
  {
    var items := DictOf(config);
    var pp := PpOf(s.preprocessor);
    var admits := AdmitsOf(s, st.initialKeys);
    AdmittedPairsOk(pp, admits, items, |items|);
    if Admitted(st, s, config).Ok? {
      forall i | 0 <= i < |items|
        ensures pp(items[i].0, items[i].1).Ok? &&
                admits(pp(items[i].0, items[i].1).value.0, pp(items[i].0, items[i].1).value.1) == Ok(true)
      {
        var q := pp(items[i].0, items[i].1).value;
        assert admits(q.0, q.1) == KeyFilter([], s.preprocessor, q.0, q.1);
      }
      AllAdmitted(pp, admits, items, |items|);
    }
  }

  /** With the filter `True` and the standard preprocessor, once keys are
      learned a configuration can only set keys that are (normalised)
      learned keys; any other key is dropped. */
  lemma FilterTrueKeepsToLearnedKeys(st: StoreState, s: Settings, config: Source, k: string)
    requires s.filter == Learned && s.preprocessor == Single(Standard) && st.initialKeys != []
    requires Admitted(st, s, config).Ok? && k in Keys(Admitted(st, s, config).value)
    ensures exists i :: 0 <= i < |st.initialKeys| && k == StandardPreprocessor.Normalise(st.initialKeys[i])
  {
    var a := Admitted(st, s, config).value;
    var j :| 0 <= j < |a| && a[j].0 == k;
    AdmittedPairNormalised(st, s, config, j);
    LearnedFilterAdmits(st.initialKeys, k, a[j].1);
  }

  /** An admitted pair passed the filter, and with the standard
      preprocessor its key is normalised. */
  lemma AdmittedPairNormalised(st: StoreState, s: Settings, config: Source, j: nat)
    requires s.preprocessor == Single(Standard)
    requires Admitted(st, s, config).Ok? && j < |Admitted(st, s, config).value|
    ensures var p := Admitted(st, s, config).value[j];
      Admits(s.filter, s.preprocessor, st.initialKeys, p.0, p.1) == Ok(true) && StandardPreprocessor.Normalise(p.0) == p.0
  {
    var items := DictOf(config);
    var pp := PpOf(s.preprocessor);
    var admits := AdmitsOf(s, st.initialKeys);
    var a := Admitted(st, s, config).value;
    AdmittedFrom(pp, admits, items, |items|);
    assert admits(a[j].0, a[j].1) == Ok(true);
    var i :| 0 <= i < |items| && pp(items[i].0, items[i].1) == Ok(a[j]);
    assert a[j].0 == StandardPreprocessor.Normalise(items[i].0) by {
      PreprocessStandard(items[i].0, items[i].1);
    }
    StandardPreprocessor.NormaliseIdempotent(items[i].0);
  }

  /** The learned-keys filter with the standard preprocessor admits a
      normalised key only when it is a normalised learned key. */
  lemma LearnedFilterAdmits(learned: seq<string>, k: string, v: Value)
    requires learned != [] && Admits(Learned, Single(Standard), learned, k, v) == Ok(true)
    requires StandardPreprocessor.Normalise(k) == k
    ensures exists i :: 0 <= i < |learned| && k == StandardPreprocessor.Normalise(learned[i])
  {
    KeyFilterStandard(learned, k, v);
  }

  /** The preprocessor turns `key` into `k` and leaves the pair `(k, value)`
      as it is, as the standard preprocessor does with the normalised key
      and the identity with any key; a casting preprocessor does with a
      value that is not a string, a rename table with a key it does not
      rename twice. */
  predicate SetsAsIs(p: Preprocessor, key: string, k: string, value: Value) {
    && PreprocessKey(p, key) == Ok(k)
    && PreprocessKey(p, k) == Ok(k)
    && Preprocess(p, k, value) == Ok((k, value))
  }

  /** The standard preprocessor sets any pair under the normalised key,
      and the identity under the key itself. */
  lemma SetsAsIsStandard(key: string, value: Value)
    ensures SetsAsIs(Single(Standard), key, StandardPreprocessor.Normalise(key), value)
    ensures SetsAsIs(Identity, key, key, value)
  {
    var k := StandardPreprocessor.Normalise(key);
    StandardPreprocessor.NormaliseIdempotent(key);
    PreprocessStandard(key, Null);
    PreprocessStandard(k, value);
  }

  /** Setting a key and reading it back: with a preprocessor that sets the
      pair as it is under `k`, no filter and the flat strategy,
      `store[key] = value` succeeds (in strict mode when `k` is stored) and
      `get(key, default)` then gives the value, or the default when the
      value is `None` and `return_default_on_none` is set. */
  lemma SetThenGet(st: StoreState, s: Settings, key: string, k: string, value: Value, callName: string,
                   callFile: string, default: Value)
    requires SetsAsIs(s.preprocessor, key, k, value) && s.filter == AcceptAll && s.strategy == Flat
    requires !s.strict || k in Keys(st.storage)
    ensures var r := SetItemSpec(st, s, key, value, callName, callFile);
      && r.Ok?
      && GetSpec(r.value.storage, s, key, default) == Ok(if value.Null? && s.returnDefaultOnNone then default else value)
  {
    SetItemWrites(st, s, key, k, value, callName, callFile);
    var storage := SetItemSpec(st, s, key, value, callName, callFile).value.storage;
    assert Get(storage, k) == Some(value) by {
      GetPutAll(st.storage, [(k, value)], k);
    }
    GetStored(storage, s, key, value, default);
  }

  /** `get` of a key whose preprocessed form is stored gives the stored
      value, or the default for a stored `None` when `return_default_on_none`
      is set. */
  lemma GetStored(storage: seq<(string, Value)>, s: Settings, key: string, value: Value, default: Value)
    requires PreprocessKey(s.preprocessor, key).Ok?
    requires Get(storage, PreprocessKey(s.preprocessor, key).value) == Some(value)
    ensures GetSpec(storage, s, key, default) == Ok(if value.Null? && s.returnDefaultOnNone then default else value)
  {
  }

  /** `store[key] = value` under those settings writes `value` under `k`
      and nothing else. */
  lemma SetItemWrites(st: StoreState, s: Settings, key: string, k: string, value: Value, callName: string,
                      callFile: string)
    requires SetsAsIs(s.preprocessor, key, k, value) && s.filter == AcceptAll && s.strategy == Flat
    requires !s.strict || k in Keys(st.storage)
    ensures var r := SetItemSpec(st, s, key, value, callName, callFile);
      r.Ok? && r.value.storage == PutAll(st.storage, [(k, value)])
  {
    var config := DictSrc([(k, value)]);
    var name, source, typ := Some(callName), Some(Text(callFile)), Some("single-value");
    assert SetItemSpec(st, s, key, value, callName, callFile) == ConfigApplySpec(st, s, config, name, source, typ, None);
    var p := PrepareSupportedTypes(config, name, source, typ, None).value;
    DictOfOne(p.values, k, value);
    ApplyOnePair(st, s, k, value);
    LearnKeysOk(s.preprocessor, [k]);
    var learned := InitialKeysAfter(st, s, [k]).value;
    ConfigApplyOkSpec(st, s, config, name, source, typ, None, ([(k, value)], [k]), learned);
  }

  /** A one-pair source as a dict is that pair. */
  lemma DictOfOne(config: Source, k: string, value: Value)
    requires Items(config) == [(k, value)]
    ensures DictOf(config) == [(k, value)] && Keys(DictOf(config)) == [k]
  {
    assert [(k, value)][1..] == [];
    assert Put([], k, value) == [(k, value)];
    assert DictOf(config) == PutAll(Put([], k, value), []);
  }

  /** The strategy's view of one pair the preprocessor keeps as it is,
      under those settings. */
  lemma ApplyOnePair(st: StoreState, s: Settings, k: string, value: Value)
    requires s.filter == AcceptAll && s.strategy == Flat
    requires PreprocessKey(s.preprocessor, k) == Ok(k) && Preprocess(s.preprocessor, k, value) == Ok((k, value))
    requires !s.strict || k in Keys(st.storage)
    ensures ApplyDataSpec(ViewOf(st.storage, s), Flat, PpOf(s.preprocessor), AdmitsOf(s, st.initialKeys), [(k, value)], false)
         == Ok(([(k, value)], [k]))
  {
    var t := ViewOf(st.storage, s);
    var admits := AdmitsOf(s, st.initialKeys);
    assert admits(k, value) == Ok(true);
    assert k in Keys(st.storage) ==> t.get(k) == GetSpec(st.storage, s, k, Null);
    ApplyDataOne(t, Flat, PpOf(s.preprocessor), admits, [(k, value)], false);
    FlatStepFromEmpty(t, admits, k, value);
  }

  /** `apply_data` over a single pair is one step from the empty output. */
  lemma ApplyDataOne(t: TargetView, strategy: Strategy, pp: (string, Value) -> Result<(string, Value)>,
                     admits: (string, Value) -> Result<bool>, items: seq<(string, Value)>, noneConsideredEmpty: bool)
    requires |items| == 1 && pp(items[0].0, items[0].1).Ok?
    ensures ApplyDataSpec(t, strategy, pp, admits, items, noneConsideredEmpty)
         == Step(([], []), t, strategy, admits, pp(items[0].0, items[0].1).value, noneConsideredEmpty)
  {
    assert ApplyDataUpTo(t, strategy, pp, admits, items, noneConsideredEmpty, 0) == Ok(([], []));
  }

  /** The flat strategy's step on an admitted pair from the empty output
      stores the pair and records its key. */
  lemma FlatStepFromEmpty(t: TargetView, admits: (string, Value) -> Result<bool>, k: string, value: Value)
    requires admits(k, value) == Ok(true) && LookupTarget(t, k).Ok?
    ensures Step(([], []), t, Flat, admits, (k, value), false) == Ok(([(k, value)], [k]))
  {
    var empty: Output := ([], []);
    assert MergeCall(Flat, k, LookupTarget(t, k).value, value, false) == Ok(value);
    assert Put(empty.0, k, value) == [(k, value)] by {
      assert Keys(empty.0) == [];
      assert empty.0 + [(k, value)] == [(k, value)];
    }
    assert empty.1 + [k] == [k];
  }

  /** With a preprocessor without custom callables, when the strict check
      of `update` passes, every pair `update` would admit has a key already
      stored. */
  lemma StrictCheckedKeysStored(st: StoreState, s: Settings, m: Source)
    requires KeyOnly(s.preprocessor)
    requires StrictCheckSpec(st.storage, s.preprocessor, m).None?
    ensures Admitted(st, s, m).Ok? ==>
      forall j :: 0 <= j < |Admitted(st, s, m).value| ==> Admitted(st, s, m).value[j].0 in Keys(st.storage)
  {
    var items := DictOf(m);
    if m.EnumSrc? {
      assert items == [];
      assert Admitted(st, s, m) == Ok([]);
    } else {
      StrictCheckedKeysStoredDict(st, s, m);
    }
  }

  lemma StrictCheckedKeysStoredDict(st: StoreState, s: Settings, m: Source)
    requires KeyOnly(s.preprocessor) && !m.EnumSrc?
    requires StrictCheckSpec(st.storage, s.preprocessor, m).None?
    ensures Admitted(st, s, m).Ok? ==>
      forall j :: 0 <= j < |Admitted(st, s, m).value| ==> Admitted(st, s, m).value[j].0 in Keys(st.storage)
  {
    var items := DictOf(m);
    var pp := PpOf(s.preprocessor);
    var admits := AdmitsOf(s, st.initialKeys);
    AdmittedFrom(pp, admits, items, |items|);
    if Admitted(st, s, m).Ok? {
      var a := Admitted(st, s, m).value;
      forall j | 0 <= j < |a| ensures a[j].0 in Keys(st.storage) {
        var x :| 0 <= x < |items| && pp(items[x].0, items[x].1) == Ok(a[j]);
        DictKeyChecked(st, s, m, x);
        PreprocessKeyOnly(s.preprocessor, items[x].0, items[x].1);
      }
    }
  }

  /** Every key of `dict(m)` passed the strict check. */
  lemma DictKeyChecked(st: StoreState, s: Settings, m: Source, x: nat)
    requires !m.EnumSrc?
    requires StrictCheckSpec(st.storage, s.preprocessor, m).None?
    requires x < |DictOf(m)|
    ensures PreprocessKey(s.preprocessor, DictOf(m)[x].0).Ok?
    ensures PreprocessKey(s.preprocessor, DictOf(m)[x].0).value in Keys(st.storage)
  {
    var items := DictOf(m);
    var raw := IterKeys(m).value;
    assert raw == Keys(Items(m));
    assert items[x].0 in Keys(items);
    GetPutAll([], Items(m), items[x].0);
    var y :| 0 <= y < |raw| && raw[y] == items[x].0;
  }

  /** In strict mode, with a preprocessor without custom callables, a
      successful `update` adds no key: every key it writes was already
      stored, and the key order stays as it was. */
  lemma StrictUpdateAddsNoKey(st: StoreState, s: Settings, m: Source)
    requires s.strict && KeyOnly(s.preprocessor)
    requires UpdateSpec(st, s, m).Ok?
    ensures Keys(UpdateSpec(st, s, m).value.storage) == Keys(st.storage)
  {
    if Truthy(m) {
      var out := StrictUpdateStorage(st, s, m);
      StrictAppliedKeysStored(st, s, m, out);
      PutAllExistingKeys(st.storage, out);
    }
  }

  /** What a successful strict `update` of a truthy configuration writes. */
  lemma StrictUpdateStorage(st: StoreState, s: Settings, m: Source) returns (out: seq<(string, Value)>)
    requires s.strict && Truthy(m)
    requires UpdateSpec(st, s, m).Ok?
    ensures StrictCheckSpec(st.storage, s.preprocessor, m).None?
    ensures Admitted(st, s, m).Ok?
    ensures ApplyDataSpec(ViewOf(st.storage, s), s.strategy, PpOf(s.preprocessor), AdmitsOf(s, st.initialKeys), DictOf(m), false)
         == Ok((out, Keys(Admitted(st, s, m).value)))
    ensures UpdateSpec(st, s, m).value.storage == PutAll(st.storage, out)
  {
    var p := PrepareSupportedTypes(m, None, None, None, None).value;
    assert DictOf(p.values) == DictOf(m);
    var t := ViewOf(st.storage, s);
    var pp := PpOf(s.preprocessor);
    var admits := AdmitsOf(s, st.initialKeys);
    var items := DictOf(m);
    var r := ApplyDataSpec(t, s.strategy, pp, admits, items, false).value;
    AppliedKeysAdmitted(t, s.strategy, pp, admits, items, false, |items|);
    out := r.0;
  }

  /** The keys a strict `update` writes, with a preprocessor without
      custom callables, are keys the store already holds. */
  lemma StrictAppliedKeysStored(st: StoreState, s: Settings, m: Source, out: seq<(string, Value)>)
    requires KeyOnly(s.preprocessor)
    requires StrictCheckSpec(st.storage, s.preprocessor, m).None?
    requires Admitted(st, s, m).Ok?
    requires ApplyDataSpec(ViewOf(st.storage, s), s.strategy, PpOf(s.preprocessor), AdmitsOf(s, st.initialKeys), DictOf(m), false)
          == Ok((out, Keys(Admitted(st, s, m).value)))
    ensures forall i :: 0 <= i < |out| ==> out[i].0 in Keys(st.storage)
  {
    var t := ViewOf(st.storage, s);
    var pp := PpOf(s.preprocessor);
    var admits := AdmitsOf(s, st.initialKeys);
    var items := DictOf(m);
    AppliedKeysAdmitted(t, s.strategy, pp, admits, items, false, |items|);
    StrictCheckedKeysStored(st, s, m);
    var a := Admitted(st, s, m).value;
    forall i | 0 <= i < |out| ensures out[i].0 in Keys(st.storage) {
      assert out[i].0 in Keys(out);
      var j :| 0 <= j < |a| && a[j].0 == out[i].0;
    }
  }

  /** `applied_from` gives the latest record that affected the key, and
      nothing when no record did. */
  lemma {:induction false} AppliedFromLatest(confs: seq<AppliedConf>, key: string, includeUnprocessed: bool)
    ensures var r := AppliedFromSpec(confs, key, includeUnprocessed);
      && (r.None? <==> forall i :: 0 <= i < |confs| ==> !Affects(confs[i], key, includeUnprocessed))
      && (r.Some? ==> exists i :: 0 <= i < |confs| && r.value == confs[i] && Affects(confs[i], key, includeUnprocessed)
                        && forall j :: i < j < |confs| ==> !Affects(confs[j], key, includeUnprocessed))
  {
    if confs != [] {
      var n := |confs| - 1;
      var prior := confs[..n];
      if Affects(confs[n], key, includeUnprocessed) {
        assert AppliedFromSpec(confs, key, includeUnprocessed) == Some(confs[n]);
      } else {
        AppliedFromLatest(prior, key, includeUnprocessed);
        assert AppliedFromSpec(confs, key, includeUnprocessed) == AppliedFromSpec(prior, key, includeUnprocessed);
        assert forall i :: 0 <= i < n ==> prior[i] == confs[i];
        var r := AppliedFromSpec(prior, key, includeUnprocessed);
        if r.Some? {
          var i :| 0 <= i < n && r.value == prior[i] && Affects(prior[i], key, includeUnprocessed)
                   && forall j :: i < j < n ==> !Affects(prior[j], key, includeUnprocessed);
          assert forall j :: i < j < |confs| ==> !Affects(confs[j], key, includeUnprocessed);
        }
      }
    }
  }

  /** Right after a successful apply, `applied_from` answers with its record
      for every key it applied. */
  lemma AppliedFromAfterApply(st: StoreState, s: Settings, config: Source, name: Option<string>,
                              source: Option<SourceTag>, typ: Option<string>, handler: Option<string>,
                              key: string, includeUnprocessed: bool)
    requires Truthy(config)
    requires ConfigApplySpec(st, s, config, name, source, typ, handler).Ok?
    requires Admitted(st, s, config).Ok? && key in Keys(Admitted(st, s, config).value)
    ensures var st' := ConfigApplySpec(st, s, config, name, source, typ, handler).value;
      AppliedFromSpec(st'.appliedConfs, key, includeUnprocessed) == Some(st'.appliedConfs[|st.appliedConfs|])
  {
    ConfigApplyRecord(st, s, config, name, source, typ, handler);
  }

  /** `key in store` asks the storage without preprocessing, while `get`
      preprocesses: with the standard preprocessor and "MY_KEY_2" stored,
      "my-key-2" is not in the store, yet `get("my-key-2")` finds its value. */
  lemma MembershipIsNotPreprocessed(s: Settings, v: Value)
    requires s.preprocessor == Single(Standard) && !v.Null?
    ensures "my-key-2" !in Keys([("MY_KEY_2", v)])
    ensures GetSpec([("MY_KEY_2", v)], s, "my-key-2", Null) == Ok(v)
  {
    assert Keys([("MY_KEY_2", v)]) == ["MY_KEY_2"];
    assert "my-key-2" != "MY_KEY_2" by {
      assert "my-key-2"[0] != "MY_KEY_2"[0];
    }
    GetPreprocessed(s, v);
  }

  lemma GetPreprocessed(s: Settings, v: Value)
    requires s.preprocessor == Single(Standard) && !v.Null?
    ensures GetSpec([("MY_KEY_2", v)], s, "my-key-2", Null) == Ok(v)
  {
    var storage := [("MY_KEY_2", v)];
    StandardPreprocessor.NormaliseExampleDashes();
    PreprocessStandard("my-key-2", Null);
    assert Keys(storage) == ["MY_KEY_2"];
    GetAt(storage, 0);
    assert GetOr(storage, "MY_KEY_2", Null) == v;
  }

  /** The default settings admit every pair, preprocessed as it is. */
  lemma DefaultsAdmitAll(st: StoreState, config: Source)
    ensures Admitted(st, DefaultSettings(), config) == Ok(DictOf(config))
  {
    var s := DefaultSettings();
    var d := DictOf(config);
    var pp := PpOf(s.preprocessor);
    var admits := AdmitsOf(s, st.initialKeys);
    forall i | 0 <= i < |d|
      ensures pp(d[i].0, d[i].1).Ok? && admits(pp(d[i].0, d[i].1).value.0, pp(d[i].0, d[i].1).value.1) == Ok(true)
    {
    }
    AllAdmitted(pp, admits, d, |d|);
    assert Admitted(st, s, config).value == d;
  }

  /** Under the default settings a configuration the store can prepare
      always applies; afterwards every key of `dict(config)` holds the value
      that dict gives it and every other key keeps its value. */
  lemma ApplyUnderDefaults(st: StoreState, config: Source, name: Option<string>, source: Option<SourceTag>,
                           typ: Option<string>, handler: Option<string>, k: string)
    requires PrepareSupportedTypes(config, name, source, typ, handler).Ok?
    ensures var r := ConfigApplySpec(st, DefaultSettings(), config, name, source, typ, handler);
      && r.Ok?
      && Get(r.value.storage, k) == if k in Keys(Items(config)) then Some(LastValue(Items(config), k)) else Get(st.storage, k)
  {
    var s := DefaultSettings();
    var d := DictOf(config);
    DefaultsAdmitAll(st, config);
    assert forall x :: PreprocessKey(s.preprocessor, x).Ok?;
    ConfigApplyFlat(st, s, config, name, source, typ, handler, k);
    GetPutAll([], Items(config), k);
    if k in Keys(d) {
      PutAllValid([], Items(config));
      LastValueValid(d, k);
    }
  }

  /** A store built from a dict with the default arguments holds the dict:
      every key reads back its value, and there is one record of type
      "dict" listing the keys in order. */
  lemma CreateFromDict(items: seq<(string, Value)>, name: Option<string>, source: Option<SourceTag>,
                       handler: Option<string>, k: string)
    requires items != []
    ensures var r := CreateSpec(DictSrc(items), name, source, None, handler, DefaultSettings());
      && r.Ok?
      && Get(r.value.storage, k) == Get(DictOf(DictSrc(items)), k)
      && |r.value.appliedConfs| == 1
      && r.value.appliedConfs[0].appliedKeys == Keys(DictOf(DictSrc(items)))
      && r.value.appliedConfs[0].typ == "dict"
  {
    var st := StoreState([], [], []);
    var config := DictSrc(items);
    assert CreateSpec(config, name, source, None, handler, DefaultSettings())
        == ConfigApplySpec(st, DefaultSettings(), config, name, source, Some("dict"), handler);
    ApplyUnderDefaults(st, config, name, source, Some("dict"), handler, k);
    GetPutAll([], items, k);
    DefaultsAdmitAll(st, config);
    ConfigApplyRecord(st, DefaultSettings(), config, name, source, Some("dict"), handler);
  }
}
