# py-simputils-config: the merge/apply pipeline, in Dafny

This project models the core of `simputils.config`: the config store and
the pipeline through which every configuration reaches it. The modelled
pieces are:

- the standard key normaliser and the value caster;
- the helpers in `base.py` that wrap them and build tables from a
  configuration enum;
- the flat and recursive merging strategies, and the shared `apply_data`
  loop;
- the store, `BasicConfigStore`: its storage, its provenance records
  (`AppliedConf`), the keys it learns from its first apply, its
  preprocessor, filter and strategy forms, `get`, `applied_from` and the
  permitted and forbidden mutators;
- `ConfigHub`: `aggregate`, `config_from_dict` and `config_from_file`.

Layout, one module per source file (plus two shared ones):

| file | module | models |
|---|---|---|
| values.dfy | `Values` | configuration values, the `NotExisting` sentinel, the exceptions as `Error`, `Option`/`Result`/`Outcome` |
| ordered_maps.dfy | `OrderedMaps` | Python's insertion-ordered `dict` as a sequence of pairs |
| standard_preprocessor.dfy | `StandardPreprocessor` | `SimputilsStandardPreprocessor.run` |
| casting_preprocessor.dfy | `CastingPreprocessor` | `SimputilsCastingPreprocessor` |
| base.dfy | `Base` | `simputils_pp`, `simputils_cast`, `simputils_pp_with_cast`, `get_enum_defaults`, `get_enum_all_annotations` |
| merging_strategy_flat.dfy | `MergingStrategyFlat` | `MergingStrategyFlat.merge` |
| merging_strategy_recursive.dfy | `MergingStrategyRecursive` | `MergingStrategyRecursive` |
| basic_merging_strategy.dfy | `BasicMergingStrategy` | `BasicMergingStrategy.apply_data` |
| store_forms.dfy | `StoreForms` | the store's preparation helpers (`_prepare_*`), the key-set filter wrapper and `get` |
| basic_config_store.dfy | `BasicConfigStore` | the store as a class, with a value-level specification of every operation |
| config_hub.dfy | `ConfigHub` | `ConfigHub` |

The pure parts of the source become functions and lemmas. The loops become
methods with loop invariants, each proved equal to a specification
function:

- `apply_data`;
- the storage write and the key learning of `_apply_data`;
- the strict-key check of `update` and `+`;
- `applied_from`;
- the recursive strategy's dict and object merges;
- the enum tables;
- the preprocessor chain;
- the filter wrapper;
- the hub's handler loop and aggregate loop.

The store is a class whose `storage`, `appliedConfs` and `initialKeys`
fields its methods update. Each of those methods ensures the following:

- on success, the new state is the specification function applied to the
  old state;
- on an error, the state is unchanged;
- the storage never holds a key twice.

The store calls the caster as written: `simputils_cast`,
`simputils_pp_with_cast` and the chain `[simputils_pp, simputils_cast]`
raise `ValueError` on the value ".", "+." or "-.", and that error leaves
`config_apply`, the filter wrapper, `get`, `store[key] = value` and the
strict check as any other exception does. The corrected caster,
`CastingPreprocessor.Run`, is kept beside it as the reference that the
code as written agrees with everywhere else (see "## Findings").

The lemmas then state what the source promises about those functions:

- last write wins;
- provenance records are appended;
- rejected keys are not written;
- strict mode refuses a key not stored, and a successful strict `update` adds no key;
- `applied_from` gives the latest record that touched the key;
- later sources win in `aggregate`.

Where the code and its documentation or tests disagree, the model follows
the code:

- The recursive strategy cannot be reached through `apply_data`. That loop
  calls `merge` with four arguments, and the recursive `merge` takes three,
  so the call raises `TypeError`. `BasicMergingStrategy.MergeCall` returns
  that error. The recursive merge itself is modelled as a function of
  (target, incoming, list_extend).
- `ConfigStoreType` has no `ENUM` member, so preparing a string-enum class
  raises `AttributeError`. As a result `_process_str_enum` can never run.
- The normaliser's docstring says runs of underscores collapse. They do
  not: `"a__b"` becomes `"A__B"`
  (`StandardPreprocessor.NormaliseKeepsUnderscores`).
- `_apply_data` never passes `none_considered_empty`, and the constructor
  does not take it, so the store always merges with it off.
- `aggregate` has no branch for an argparse `Namespace` or a conditional
  callable. Such an argument raises `TypeError`, as any other unsupported
  argument does.
- A key is preprocessed once more in `target.get(key)` inside `apply_data`
  and in the filter wrapper. Both are modelled as written. The standard
  normaliser is idempotent, so with it the repeated preprocessing changes
  nothing; a rename table is not idempotent.
- `aggregate` hands a dict argument to the target as the store that
  `config_from_dict` built from it, so `config_apply` records the type
  "ConfigStore" (the store's class name), not "dict". A unit test of
  `aggregate` expects "dict"
  (tests/unit/TestConfigStoreThroughAggregate.py:127-128).
  `ConfigHub.DictArgRecordedAsStore` proves the code's behaviour.

## Model

| member | source | states |
|---|---|---|
| `StandardPreprocessor.Normalise` | src/simputils/config/components/preprocessors/SimputilsStandardPreprocessor.py:30 | every character of the result is in `[0-9A-Z_]` and the result is no longer than the key |
| `StandardPreprocessor.Run` | src/simputils/config/components/preprocessors/SimputilsStandardPreprocessor.py:9-32 | the key is normalised (characters in `[0-9A-Z_]`, no longer than before) and the value is returned unchanged |
| `StandardPreprocessor.SubstituteRun` | src/simputils/config/components/preprocessors/SimputilsStandardPreprocessor.py:30 | each maximal run of characters outside `[0-9a-zA-Z_]` becomes exactly one `_`; word characters, underscores included, are copied |
| `StandardPreprocessor.SubstituteWordsIdentity` | src/simputils/config/components/preprocessors/SimputilsStandardPreprocessor.py:30 | a key made only of word characters passes the substitution unchanged |
| `StandardPreprocessor.NormaliseRun` | src/simputils/config/components/preprocessors/SimputilsStandardPreprocessor.py:30 | a word block followed by a run of other characters normalises to the upper-cased block, one `_`, then the normalised rest |
| `StandardPreprocessor.NormaliseIdempotent` | src/simputils/config/components/preprocessors/SimputilsStandardPreprocessor.py:30 | normalising a normalised key changes nothing |
| `StandardPreprocessor.NormaliseThreeWords` | tests/unit/TestPreprocessors.py:6-16 | three word blocks separated by two runs of any length normalise to the blocks upper-cased and joined by single `_`s |
| `StandardPreprocessor.NormaliseExampleSpaces` | tests/unit/TestPreprocessors.py:8 | "my key 1" becomes "MY_KEY_1" |
| `StandardPreprocessor.NormaliseExampleDashes` | tests/unit/TestPreprocessors.py:9 | "my-key-2" becomes "MY_KEY_2" |
| `StandardPreprocessor.NormaliseExampleNormal` | tests/unit/TestPreprocessors.py:10 | "MY_KEY_3" stays as it is |
| `StandardPreprocessor.NormaliseExampleMixed` | tests/unit/TestPreprocessors.py:11 | "my.KEy-4" becomes "MY_KEY_4" |
| `StandardPreprocessor.NormaliseExampleLongRuns` | tests/unit/TestPreprocessors.py:12 | "my    KEy-----5" becomes "MY_KEY_5" |
| `StandardPreprocessor.NormaliseKeepsUnderscores` | src/simputils/config/components/preprocessors/SimputilsStandardPreprocessor.py:22-30 | existing underscores are kept, not collapsed: "a__b" and "a_ b" both give "A__B", against the docstring |
| `CastingPreprocessor.Run` | src/simputils/config/components/preprocessors/SimputilsCastingPreprocessor.py:13-57 | the key is never changed, a non-string passes through, and a result that is still a string is the input |
| `CastingPreprocessor.RunCases` | src/simputils/config/components/preprocessors/SimputilsCastingPreprocessor.py:13-57 | a string whose lower case is in the none, no or yes list becomes `None`, `False` or `True`, the lists tried in that order. An integer-looking string becomes the integer it spells. A string that is neither a token nor a number is returned in its original case |
| `CastingPreprocessor.RunAsWritten` | src/simputils/config/components/preprocessors/SimputilsCastingPreprocessor.py:13-46 | the code as written, with `float(value)` able to raise; the key is never changed |
| `CastingPreprocessor.ParseFloat` | src/simputils/config/components/preprocessors/SimputilsCastingPreprocessor.py:40-42 | on a string of sign, digits and exactly one '.', `float` gives a decimal, and raises exactly when no digit surrounds the point |
| `CastingPreprocessor.RunAsWrittenAgrees` | src/simputils/config/components/preprocessors/SimputilsCastingPreprocessor.py:13-46 | wherever the code as written returns, it returns what the corrected caster does; it raises exactly on ".", "+." or "-." (optionally with a final newline) |
| `CastingPreprocessor.DotRaisesAsWritten` | src/simputils/config/components/preprocessors/SimputilsCastingPreprocessor.py:40-42 | "." raises `ValueError` as written and stays a string in the corrected caster |
| `CastingPreprocessor.LowerKeepsNumbers` | src/simputils/config/components/preprocessors/SimputilsCastingPreprocessor.py:23-44 | lower-casing changes neither whether a string looks like a number nor the string itself when it does |
| `CastingPreprocessor.RunTokens` | src/simputils/config/components/preprocessors/SimputilsCastingPreprocessor.py:48-57 | each token, in any case, becomes its boolean or `None` |
| `CastingPreprocessor.TokensAreNotNumbers` | src/simputils/config/components/preprocessors/SimputilsCastingPreprocessor.py:26-33 | no token looks like a number, so checking tokens first never hides a number ("+" and "-" are tokens) |
| `CastingPreprocessor.IntRoundTrip` | src/simputils/config/components/preprocessors/SimputilsCastingPreprocessor.py:43-44 | the decimal spelling of any integer is cast back to that integer |
| `CastingPreprocessor.IntHasNoDot` | src/simputils/config/components/preprocessors/SimputilsCastingPreprocessor.py:40-44 | an integer-looking string has no '.', so the integer branch is the one that decides it |
| `CastingPreprocessor.SignedIntegerExamples` | tests/unit/TestPreprocessors.py:25-26 | "+15" becomes 15 and "-15" becomes -15 |
| `CastingPreprocessor.PlusSigned` | src/simputils/config/components/preprocessors/SimputilsCastingPreprocessor.py:43-44 | a '+' before a digit string is accepted and ignored |
| `CastingPreprocessor.TrailingNewlineExample` | src/simputils/config/components/preprocessors/SimputilsCastingPreprocessor.py:43-44 | `$` matches before a final newline, so "15\n" is cast to 15 |
| `CastingPreprocessor.FloatExample` | tests/unit/TestPreprocessors.py:28 | "123.0" becomes the decimal 123.0 |
| `CastingPreprocessor.RunFloat` | src/simputils/config/components/preprocessors/SimputilsCastingPreprocessor.py:40-42 | a string with one '.' that passes the float pattern and not the integer one is cast to what `float` makes of it |
| `CastingPreprocessor.ManyDotsUnchanged` | src/simputils/config/components/preprocessors/SimputilsCastingPreprocessor.py:40 | a string with two or more dots stays a string |
| `CastingPreprocessor.TwoDotsExample` | tests/unit/TestPreprocessors.py:21 | "3.14.15" stays a string |
| `CastingPreprocessor.NearMissExample` | tests/unit/TestPreprocessors.py:46 | "nul" stays a string |
| `CastingPreprocessor.CastIdempotent` | src/simputils/config/components/preprocessors/SimputilsCastingPreprocessor.py:21-35 | casting a cast value again changes nothing |
| `Base.SimputilsPp` | src/simputils/config/base.py:4-21 | the default pattern and replacement: the key is normalised and the value kept |
| `Base.SimputilsCast` | src/simputils/config/base.py:24-29 | raises exactly on a string the caster reads as a sign and a lone "." (a `ValueError`); otherwise it returns what the corrected caster does, so the key is kept and a value left a string is the input |
| `Base.SimputilsPpWithCast` | src/simputils/config/base.py:32-36 | raises `ValueError` exactly when the caster does on the value; otherwise the key is normalised and the value is what the caster makes of it |
| `Base.PpWithCastIdempotent` | src/simputils/config/base.py:32-36 | wherever the combined preprocessor returns, applying it again to its result returns the same pair |
| `Base.AnnotationFor` | src/simputils/config/base.py:60-70 | a member has an annotation exactly when its name is annotated |
| `Base.DefaultOf` | src/simputils/config/base.py:51-55 | a member's default is `None` unless its annotation gives one, and then it is the annotation's "default" |
| `Base.GetEnumDefaults` | src/simputils/config/base.py:39-57 | the loop builds the defaults table |
| `Base.EnumDefaultsEntries` | src/simputils/config/base.py:49-57 | the table has one entry per member, keyed by member value, in declaration order, holding the member's default |
| `Base.GetEnumAllAnnotations` | src/simputils/config/base.py:73-79 | the loop builds the annotations table |
| `Base.AllAnnotationsUpToEntries` | src/simputils/config/base.py:74-78 | after the first n members, the table holds a member exactly when it is among them and annotated, with its annotation |
| `Base.AllAnnotationsEntries` | src/simputils/config/base.py:73-79 | the table holds exactly the annotated members, each with its annotation |
| `MergingStrategyFlat.Merge` | src/simputils/config/components/strategies/MergingStrategyFlat.py:7-10 | a `NotExisting` target, a flag off or a non-`None` incoming value gives the incoming value; with the flag on, an existing target and a `None` incoming value keep the target |
| `MergingStrategyFlat.LastWriteWins` | src/simputils/config/components/strategies/MergingStrategyFlat.py:7-10 | merging values one after another with the flag off leaves the last one |
| `MergingStrategyFlat.LastNonNullWins` | src/simputils/config/components/strategies/MergingStrategyFlat.py:7-10 | with the flag on the last non-`None` value is left; if all are `None`, an existing value survives and an absent key ends `None` |
| `MergingStrategyRecursive.Merge` | src/simputils/config/components/strategies/MergingStrategyRecursive.py:41-70 | an incoming `None` gives `None`; if any of the four checks holds, the result is the incoming value; the result is `None` exactly when the incoming value is |
| `MergingStrategyRecursive.DictionariesMerge` | src/simputils/config/components/strategies/MergingStrategyRecursive.py:72-79 | the loop over the incoming pairs leaves the dict specified by the pairwise merge |
| `MergingStrategyRecursive.ObjectsMerge` | src/simputils/config/components/strategies/MergingStrategyRecursive.py:81-89 | the loop over the incoming fields leaves the fields specified by the fieldwise merge |
| `MergingStrategyRecursive.MergeDictFromKeys` | src/simputils/config/components/strategies/MergingStrategyRecursive.py:72-79 | the merged dict's keys are the target's in order, then the incoming-only keys in incoming order |
| `MergingStrategyRecursive.MergeDictFromGet` | src/simputils/config/components/strategies/MergingStrategyRecursive.py:73-77 | a key's merged value is the recursive merge for a shared key, the incoming value for a new key, the target value otherwise |
| `MergingStrategyRecursive.DictMerge` | src/simputils/config/components/strategies/MergingStrategyRecursive.py:60-61 | two dicts merge into that dict: target keys keep their places, shared keys merge recursively, new keys are appended |
| `MergingStrategyRecursive.MergeObjectFromKeys` | src/simputils/config/components/strategies/MergingStrategyRecursive.py:81-89 | an object merge never adds or removes a field |
| `MergingStrategyRecursive.MergeObjectFromGet` | src/simputils/config/components/strategies/MergingStrategyRecursive.py:82-87 | a field both sides have holds the recursive merge unless that is `None`, which keeps the old field; other fields are unchanged |
| `MergingStrategyRecursive.ObjectMerge` | src/simputils/config/components/strategies/MergingStrategyRecursive.py:63-67 | two objects of one class merge field by field; incoming-only fields are dropped |
| `MergingStrategyRecursive.SequenceMerge` | src/simputils/config/components/strategies/MergingStrategyRecursive.py:54-58 | lists (or tuples) concatenate with `list_extend` and are otherwise replaced by the incoming one |
| `MergingStrategyRecursive.ListTupleReplaced` | src/simputils/config/components/strategies/MergingStrategyRecursive.py:32-39 | a list merged with a tuple, or the reverse, is replaced even with `list_extend` |
| `BasicMergingStrategy.MergeCall` | src/simputils/config/generic/BasicMergingStrategy.py:28 | the flat strategy's merge is called with the flag; the recursive strategy's three-argument `merge` raises `TypeError` |
| `BasicMergingStrategy.LookupTarget` | src/simputils/config/generic/BasicMergingStrategy.py:25-27 | an absent key gives `NotExisting`, a present one what `target.get(key)` gives, or its error |
| `BasicMergingStrategy.ApplyData` | src/simputils/config/generic/BasicMergingStrategy.py:11-30 | the loop returns the merged values and admitted keys specified pair by pair, or the first error; the target is only read |
| `BasicMergingStrategy.ErrorStops` | src/simputils/config/generic/BasicMergingStrategy.py:21-28 | once a pass raises, the result is that error |
| `BasicMergingStrategy.AllAdmitted` | src/simputils/config/generic/BasicMergingStrategy.py:21-24 | when nothing raises and the filter admits every pair, the admitted pairs are all the preprocessed pairs in order |
| `BasicMergingStrategy.AdmittedPairsOk` | src/simputils/config/generic/BasicMergingStrategy.py:21-24 | the admitted pairs are known exactly when neither the preprocessor nor the filter raises on any incoming pair |
| `BasicMergingStrategy.AdmittedFrom` | src/simputils/config/generic/BasicMergingStrategy.py:21-24 | when nothing raises, every admitted pair is a preprocessed incoming pair the filter admitted |
| `BasicMergingStrategy.AppliedKeysAdmitted` | src/simputils/config/generic/BasicMergingStrategy.py:19-30 | on success nothing raised, `applied_keys` are the admitted preprocessed keys in incoming order, and a key has a merged value exactly when it was admitted |
| `BasicMergingStrategy.RecursiveFailsWhenAdmitting` | src/simputils/config/generic/BasicMergingStrategy.py:23-28 | against a target whose `get` does not raise on a stored key, under the recursive strategy, the result is an empty success exactly when nothing is admitted without error, and any admitted pair means `TypeError` |
| `BasicMergingStrategy.FlatApplyData` | src/simputils/config/generic/BasicMergingStrategy.py:19-30 | against a target whose `get` does not raise on a stored key, under the flat strategy with the flag off, the result is the first error of the preprocessor or the filter, or else the admitted pairs written in order and the admitted keys |
| `BasicConfigStore.ViewLookupOk` | src/simputils/config/generic/BasicConfigStore.py:412-426 | the store's `get`, as its strategy calls it on a stored key, does not raise when every stored key preprocesses, in strict mode to a stored key |
| `StoreForms.Call` | src/simputils/config/base.py:4-36 | each ready-made callable is the corresponding preprocessor, the casting ones as written; only the two casting callables raise, and only `ValueError` |
| `StoreForms.PreparePreprocessor` | src/simputils/config/generic/BasicConfigStore.py:255-264 | a dict gives a rename table, a list or tuple a chain, a callable itself, anything else the identity |
| `StoreForms.KeyReplace` | src/simputils/config/generic/BasicConfigStore.py:223-241 | a key in the table is renamed, any other key kept; the value is kept |
| `StoreForms.ChainAppend` | src/simputils/config/generic/BasicConfigStore.py:243-248 | running a chain in two parts is running the whole chain: the first part's error, or the second part run on the first part's result |
| `StoreForms.ChainOfStandardAndCasting` | src/simputils/config/base.py:32-36 | the chain `[simputils_pp, simputils_cast]` is `simputils_pp_with_cast`, raising on the same values |
| `StoreForms.RunChain` | src/simputils/config/generic/BasicConfigStore.py:244-247 | the loop feeds each callable what the previous one returned and stops at the first exception |
| `StoreForms.Preprocess` | src/simputils/config/generic/BasicConfigStore.py:238-264 | each prepared preprocessor form behaves as its wrapper does; only `ValueError` escapes |
| `StoreForms.PreprocessOk` | src/simputils/config/generic/BasicConfigStore.py:238-264 | a preprocessor without a casting callable never raises |
| `StoreForms.ChainCannotRaise` | src/simputils/config/generic/BasicConfigStore.py:243-248 | a chain without a casting callable never raises |
| `StoreForms.CastingKeyOk` | src/simputils/config/components/preprocessors/SimputilsCastingPreprocessor.py:13-19 | the casting preprocessors never raise on a key, since `None` is not a string; `simputils_cast` keeps the key and `simputils_pp_with_cast` normalises it |
| `StoreForms.CastingPreprocessorRaises` | src/simputils/config/components/preprocessors/SimputilsCastingPreprocessor.py:40-42 | `simputils_cast` as the store's preprocessor raises `ValueError` on the value ".", and so does `simputils_pp_with_cast` |
| `StoreForms.PreprocessStandard` | src/simputils/config/generic/BasicConfigStore.py:255-264 | the standard preprocessor as the store keeps it succeeds, normalising the key and keeping the value |
| `StoreForms.RenameNotIdempotent` | src/simputils/config/generic/BasicConfigStore.py:232-234 | with {"a": "b", "b": "c"}, "a" goes to "b" and "b" to "c", so repeated preprocessing moves a key again |
| `StoreForms.StandardKeyIdempotent` | src/simputils/config/generic/BasicConfigStore.py:268 | with the standard preprocessor, preprocessing a preprocessed key again never moves it |
| `StoreForms.PrepareFilter` | src/simputils/config/generic/BasicConfigStore.py:279-293 | an iterable gives a key set, `True` the learned keys, a callable itself, anything else accept-all |
| `StoreForms.KeyFilterWrapper` | src/simputils/config/generic/BasicConfigStore.py:266-276 | the loop returns the preprocessing error, or admits a key when the set is empty or some filter key preprocesses to the same key, or raises the first filter key's error |
| `StoreForms.MatchAnyTrue` | src/simputils/config/generic/BasicConfigStore.py:271-275 | the search admits only when some filter key preprocesses to the key; it rejects exactly when every filter key preprocesses, each to another key; an error is some filter key's error |
| `StoreForms.KeyFilterStandard` | src/simputils/config/generic/BasicConfigStore.py:266-276 | under the standard preprocessor, an admitted key has a filter key with the same normal form |
| `StoreForms.KeyFilterComparesPreprocessed` | src/simputils/config/generic/BasicConfigStore.py:268-273 | filter keys and incoming keys are compared after preprocessing |
| `StoreForms.PrepareStrategy` | src/simputils/config/generic/BasicConfigStore.py:153-167 | a strategy object is kept, "recursive" gives the recursive strategy, any other name the flat one |
| `StoreForms.ValOr` | src/simputils/config/generic/BasicConfigStore.py:182-183 | the first value unless it is `None` |
| `StoreForms.PrepareSupportedTypes` | src/simputils/config/generic/BasicConfigStore.py:185-221 | raises exactly for a string enum (`AttributeError`) or an unsupported value (`TypeError`). It tags an environment "environ"/"os"/"EnvVars" and a dict "dict". A missing type becomes the class name. The pairs are kept |
| `StoreForms.PrepareTwice` | src/simputils/config/generic/BasicConfigStore.py:133-151 | the constructor's second preparation, inside `config_apply`, changes nothing |
| `StoreForms.GetSpec` | src/simputils/config/generic/BasicConfigStore.py:412-435 | the key's preprocessing error is raised; otherwise a strict unknown key raises `StrictKeysEnabled` and nothing else raises. A missing key gives the default. With `return_default_on_none`, a stored `None` gives the default; otherwise the stored value is returned |
| `BasicConfigStore.ConfigApplySpec` | src/simputils/config/generic/BasicConfigStore.py:309-360 | a falsy configuration changes nothing. A truthy enum or unsupported value raises. A success appends exactly one record and keeps the earlier ones. Learned keys never change once learned |
| `BasicConfigStore.FirstUnknown` | src/simputils/config/generic/BasicConfigStore.py:444-452 | nothing is found exactly when every key preprocesses to a stored key; a found key is an unstored preprocessed key; an error is a key's `ValueError` |
| `BasicConfigStore.StrictCheckSpec` | src/simputils/config/generic/BasicConfigStore.py:444-452 | `None` cannot be iterated (`TypeError`); the check passes exactly when every key preprocesses, without raising, to a stored key |
| `BasicConfigStore.UpdateSpec` | src/simputils/config/generic/BasicConfigStore.py:443-452 | outside strict mode, or once the check passes, `update` is `config_apply`; in strict mode a failing check's error is `update`'s error (`TypeError` for a source that cannot be iterated) |
| `BasicConfigStore.StrictUnknownKeyRaises` | src/simputils/config/generic/BasicConfigStore.py:444-452 | in strict mode, whatever the preprocessor, a key of `m` that preprocesses to a key not stored makes `update` fail, with `StrictKeysEnabled` or with the `ValueError` an earlier key raised |
| `BasicConfigStore.StrictStoreRefusesUnknownKey` | tests/unit/TestConfigStoreThroughAggregate.py:400-418 | a strict store with `simputils_pp_with_cast` and the filter `True` that holds no key "TEST" refuses `update({"test": "test1"})`, `store["test"] = "test2"` and `get("test")` with `StrictKeysEnabled` |
| `BasicConfigStore.SetItemSpec` | src/simputils/config/generic/BasicConfigStore.py:469-486 | the key's preprocessing error is raised; a strict unknown key raises; a success appends one "single-value" record naming the caller |
| `BasicConfigStore.CreateSpec` | src/simputils/config/generic/BasicConfigStore.py:108-151 | a string enum or an unsupported value cannot build a store |
| `BasicConfigStore.ConfigStore.Empty` | src/simputils/config/generic/BasicConfigStore.py:124-126 | a new store has empty storage, records and learned keys |
| `BasicConfigStore.ConfigStore.Create` | src/simputils/config/generic/BasicConfigStore.py:108-151 | the constructor: an error when preparation or the first apply raises, else a fresh store in the specified state with the prepared name, source and type |
| `BasicConfigStore.ConfigStore.ConfigApply` | src/simputils/config/generic/BasicConfigStore.py:309-360 | the new state is the specified one, or the old one with the error; the storage stays a dict |
| `BasicConfigStore.ConfigStore.ApplyToStorage` | src/simputils/config/generic/BasicConfigStore.py:296-307 | `_apply_data` returns the applied keys the strategy gives. The storage then holds the merged values, the keys are learned if none were, and the records are untouched. An error from the strategy or from key learning leaves the store as it was |
| `BasicConfigStore.ConfigStore.WriteStorage` | src/simputils/config/generic/BasicConfigStore.py:298-299 | the loop writes every merged pair into the storage in order |
| `BasicConfigStore.ConfigStore.LearnInitialKeys` | src/simputils/config/generic/BasicConfigStore.py:302-305 | the loop returns the keys preprocessed in order, or the first error preprocessing a key raises; `ConfigApply` calls it only while nothing is learned |
| `BasicConfigStore.LearnKeysOk` | src/simputils/config/generic/BasicConfigStore.py:302-305 | learning succeeds exactly when no key raises, and then holds each key preprocessed, in order |
| `BasicConfigStore.LearnKeysIdentity` | src/simputils/config/generic/BasicConfigStore.py:302-305 | without a preprocessor the keys are learned as they are |
| `BasicConfigStore.LearnKeysStops` | src/simputils/config/generic/BasicConfigStore.py:302-305 | the first key that raises decides the error of the whole learning |
| `BasicConfigStore.KeyPreprocessingOk` | src/simputils/config/generic/BasicConfigStore.py:255-264 | every preprocessor but a chain holding a custom callable preprocesses every key without raising |
| `BasicConfigStore.ChainKeepsNull` | src/simputils/config/generic/BasicConfigStore.py:243-248 | a chain of ready-made callables keeps the value `None` and never raises on it |
| `BasicConfigStore.ConfigStore.GetItem` | src/simputils/config/generic/BasicConfigStore.py:508-517 | `store[key]` is `get(key)` with `None` as the default |
| `BasicConfigStore.ConfigStore.Contains` | src/simputils/config/generic/BasicConfigStore.py:522-523 | `key in store` asks the storage for the key as given |
| `BasicConfigStore.ConfigStore.Len` | src/simputils/config/generic/BasicConfigStore.py:502-503 | the number of stored keys |
| `BasicConfigStore.ConfigStore.SetItem` | src/simputils/config/generic/BasicConfigStore.py:469-486 | the new state is the one `SetItemSpec` gives, or the old one with the error |
| `BasicConfigStore.ConfigStore.CheckKnownKeys` | src/simputils/config/generic/BasicConfigStore.py:444-450 | the loop of the strict check returns what `StrictCheckSpec` does |
| `BasicConfigStore.ConfigStore.Update` | src/simputils/config/generic/BasicConfigStore.py:443-452 | the new state is the one `UpdateSpec` gives, or the old one with the error |
| `BasicConfigStore.ConfigStore.Add` | src/simputils/config/generic/BasicConfigStore.py:488-497 | `store + m` does what `update(m)` does to the store |
| `BasicConfigStore.ConfigStore.DelItem` | src/simputils/config/generic/BasicConfigStore.py:505-506 | an absent key raises `KeyError`; otherwise only that key goes, no record is added and every other key keeps its value |
| `BasicConfigStore.ConfigStore.Clear` | src/simputils/config/generic/BasicConfigStore.py:437-438 | always raises `NotPermitted` and changes nothing |
| `BasicConfigStore.ConfigStore.Pop` | src/simputils/config/generic/BasicConfigStore.py:463-464 | always raises `NotPermitted` and changes nothing |
| `BasicConfigStore.ConfigStore.PopItem` | src/simputils/config/generic/BasicConfigStore.py:466-467 | always raises `NotPermitted` and changes nothing |
| `BasicConfigStore.ConfigStore.AppliedFrom` | src/simputils/config/generic/BasicConfigStore.py:396-410 | the reversed loop returns what `AppliedFromSpec` does |
| `BasicConfigStore.ConfigApplyRecord` | src/simputils/config/generic/BasicConfigStore.py:296-360 | a truthy success means nothing raised. It appends one record whose applied keys are the admitted keys in order and whose reference is the configuration. The applied keys are stored and every other key keeps its value. The first apply learns the preprocessed keys |
| `BasicConfigStore.ConfigApplyKeepsDict` | src/simputils/config/generic/BasicConfigStore.py:298-299 | applying never makes the storage hold a key twice |
| `BasicConfigStore.ConfigApplyFlat` | src/simputils/config/generic/BasicConfigStore.py:296-299 | under the flat strategy, with a preprocessor that never raises on a key and, in strict mode, stored keys that are their own preprocessed form, a prepared configuration fails exactly with the first error of the preprocessor or the filter; otherwise each admitted key holds its last admitted value and every other key is unchanged |
| `BasicConfigStore.CastingStoreRaises` | src/simputils/config/components/preprocessors/SimputilsCastingPreprocessor.py:40-42 | a store with `simputils_cast` as preprocessor, built from {"k": "."}, raises `ValueError` from its constructor |
| `BasicConfigStore.FilterTrueFirstApplyAdmitsAll` | src/simputils/config/generic/BasicConfigStore.py:281-286 | with `filter=True` the first apply, when nothing raises, admits every incoming pair preprocessed |
| `BasicConfigStore.FilterTrueKeepsToLearnedKeys` | src/simputils/config/generic/BasicConfigStore.py:281-286 | with `filter=True` and keys learned, an admitted key is a normalised learned key |
| `BasicConfigStore.SetThenGet` | src/simputils/config/generic/BasicConfigStore.py:412-486 | with a preprocessor that turns `key` into `k` and keeps the pair `(k, value)` as it is, no filter, the flat strategy and, in strict mode, `k` stored: `store[key] = value` succeeds and `get(key, default)` then gives the value, or the default for a `None` with `return_default_on_none` |
| `BasicConfigStore.SetItemWrites` | src/simputils/config/generic/BasicConfigStore.py:469-486 | under the same conditions, `store[key] = value` succeeds and writes `value` under `k` and nothing else |
| `BasicConfigStore.SetsAsIsStandard` | src/simputils/config/components/preprocessors/SimputilsStandardPreprocessor.py:9-32 | the standard preprocessor keeps any pair under the normalised key as it is, and the identity under the key itself, so both meet the condition of `SetThenGet` |
| `BasicConfigStore.StrictCheckedKeysStored` | src/simputils/config/generic/BasicConfigStore.py:444-452 | with a preprocessor without custom callables, after a passing strict check every pair `update` admits has a stored key |
| `BasicConfigStore.StrictUpdateAddsNoKey` | src/simputils/config/generic/BasicConfigStore.py:443-452 | in strict mode, with a preprocessor without custom callables and under either strategy, a successful `update` leaves the stored keys and their order as they were |
| `StoreForms.PreprocessKeyOnly` | src/simputils/config/generic/BasicConfigStore.py:446-447 | without custom callables, the key computed with `None` as the value (for the strict check, `get` and key learning) is the key the pair itself preprocesses to |
| `BasicConfigStore.AppliedFromLatest` | src/simputils/config/generic/BasicConfigStore.py:404-410 | `applied_from` gives the latest record that affected the key, and `None` exactly when no record did |
| `BasicConfigStore.AppliedFromAfterApply` | src/simputils/config/generic/BasicConfigStore.py:350-359 | right after an apply, `applied_from` answers with its record for every key it applied |
| `BasicConfigStore.MembershipIsNotPreprocessed` | src/simputils/config/generic/BasicConfigStore.py:412-435 | `in` does not preprocess while `get` does: "my-key-2" is not in a store holding "MY_KEY_2", yet `get` finds it |
| `BasicConfigStore.CreateFromDict` | src/simputils/config/generic/BasicConfigStore.py:108-151 | a store built from a non-empty dict holds the dict and one record of type "dict" listing its keys in order |
| `ConfigHub.TypeOrClassName` | src/simputils/config/generic/BasicConfigStore.py:218-219 | a missing or empty type becomes the class name, never empty |
| `ConfigHub.ConfigFromDictSpec` | src/simputils/config/components/ConfigHub.py:64-89 | the new store carries the given name and source and the type or class name, and has no handler; a string enum or truthy unsupported value raises |
| `ConfigHub.FirstHandled` | src/simputils/config/components/ConfigHub.py:121-131 | nothing is found exactly when no handler takes the file; otherwise the first handler that takes it decides |
| `ConfigHub.ConfigFromFileSpec` | src/simputils/config/components/ConfigHub.py:91-136 | an empty chain raises `NoAvailableHandlers`. An explicit handler replaces the chain. The first taker wins. An untaken file gives `None`, or `NoHandler` when missing handlers are not skipped |
| `ConfigHub.ArgSource` | src/simputils/config/components/ConfigHub.py:45-61 | an unsupported argument raises `TypeError`; an environment becomes a store tagged "environ"/"os"/"EnvVars" |
| `ConfigHub.ConfigFromDict` | src/simputils/config/components/ConfigHub.py:64-89 | a fresh store with the default settings whose state is what `config_apply` makes of the dict on an empty store, and whose snapshot is what `ConfigFromDictSpec` gives; or its error |
| `ConfigHub.ConfigFromFile` | src/simputils/config/components/ConfigHub.py:115-136 | the loop with `break` returns what `ConfigFromFileSpec` does |
| `ConfigHub.PrepareArg` | src/simputils/config/components/ConfigHub.py:46-61 | the dispatch on the argument's kind returns what `ArgSource` does |
| `ConfigHub.AggregateInto` | src/simputils/config/components/ConfigHub.py:27-62 | the loop leaves the target in the state `AggregateSpec` gives and raises its error, if any |
| `ConfigHub.Aggregate` | src/simputils/config/components/ConfigHub.py:43-44 | without a target, a fresh default store receives the arguments |
| `BasicConfigStore.ApplyUnderDefaults` | src/simputils/config/generic/BasicConfigStore.py:108-151 | on a default store, a preparable configuration always applies; its keys take the last value it lists, other keys keep theirs |
| `ConfigHub.ConfigFromDictHolds` | src/simputils/config/components/ConfigHub.py:64-89 | `config_from_dict` of a mapping holds each listed key with the last value listed, and no other key |
| `ConfigHub.MappingArgOverrides` | src/simputils/config/components/ConfigHub.py:48-56 | on a default target, a mapping argument always applies; its keys take its values, other keys keep theirs |
| `ConfigHub.DictArgRecordedAsStore` | src/simputils/config/components/ConfigHub.py:56 | a non-empty dict argument to `aggregate` is applied as a store, so its record's type is the class name "ConfigStore", not "dict" |
| `ConfigHub.LastListing` | src/simputils/config/components/ConfigHub.py:45 | the index found is a mapping argument that lists the key |
| `ConfigHub.AggregateSnoc` | src/simputils/config/components/ConfigHub.py:45-62 | for any per-argument step, running the loop over one more argument continues from where it stood, unless it had already raised |
| `ConfigHub.AggregateLaterWins` | src/simputils/config/components/ConfigHub.py:45-62 | aggregating mappings into a default store never fails; each key ends with the value of the last mapping listing it, or keeps its value |
| `ConfigHub.AggregateStopsAtFirstError` | src/simputils/config/components/ConfigHub.py:45-62 | for any per-argument step, on an error the target holds what the arguments before the failing one made, and that argument's error is raised |
| `ConfigHub.UnhandledFileSkipped` | src/simputils/config/components/ConfigHub.py:133-136 | a file nobody takes, when skipped, leaves a non-strict target unchanged; a strict target raises `TypeError` iterating `None` |
| `OrderedMaps.Put` | src/simputils/config/generic/BasicConfigStore.py:299 | assigning a key replaces its value in place or appends it; other entries stay; the dict stays without repeated keys |
| `OrderedMaps.GetPutAll` | src/simputils/config/generic/BasicConfigStore.py:298-299 | after writing pairs in order, a key holds the last value written for it, or its old value |
| `OrderedMaps.Remove` | src/simputils/config/generic/BasicConfigStore.py:505-506 | `del` removes the key and keeps the order of the rest |

## Left out

- File handlers (JSON, YAML, dotenv): reading and parsing files is I/O. A handler is a function from a file to an optional store snapshot.
- pydantic support (`_pydantic_setup`, `_set_pydantic_enabled`, `_process_str_enum`, `_process_union_subtypes`): dynamic imports and foreign type constructors. `_process_str_enum` is also unreachable in this revision, because `ConfigStoreType` has no `ENUM` member.
- Python reflection: enum annotations are taken as a given table. `__setitem__`'s caller function and file are parameters of `SetItem`.
- The custom `replace_pattern`/`replaced_with` arguments of the normaliser: only the default pattern and replacement are modelled.
- Floats: `float(value)` is modelled as an exact decimal literal, without IEEE rounding.
- `str.lower`/`str.upper` are modelled on ASCII letters only. Every letter the patterns and token lists contain is ASCII.
- Aliasing: the recursive dict and object merges update the target in place, and the store shares its learned-keys list with its `True` filter. The model computes the same results as values, so it does not show two references seeing one change.
- Subclassing: `isinstance` between objects is modelled as "same class".
- `dict(store)`, when a store is used as a source, is modelled as the store's storage items. The `__getitem__` route, which in strict mode rechecks keys, is not modelled.
- `for key in m` on a value that is not a mapping, an enum or `None` is modelled as `TypeError`.
- The `target` and `name`/`source`/`type` parameters of `config_from_file`, and the `target` parameter of `config_from_dict`: `aggregate` never passes them.
- Strategy objects other than the two built-in ones.
- `copy`, `keys`, `values`, `items`, `__iter__`, `__repr__`, `__str__`, `__cmp__`, `ObjConfigStorePrism`: pass-throughs to the storage, with no logic of their own.
- `ConfigHub`'s class-level handler list and skip flag are a `Hub` value passed to each operation.
- `get_enum_annotation_for`'s `get_args` unpacking: an annotation either carries `AnnotatedConfigData` or is absent.
- BasicConfigStore.ConfigApplySpec: when learning the keys raises, the model leaves the store unchanged. The source has by then already written the merged values and kept the keys learned before the failing one. `ConfigStore.ApplyToStorage`, the model of `_apply_data`, learns before it writes, so the error leaves nothing behind. Learning can raise only when a chain hands `None`, turned into a string by a custom callable, to a casting callable (`BasicConfigStore.KeyPreprocessingOk`).
- BasicMergingStrategy.RecursiveFailsWhenAdmitting: stated for a target whose `get` does not raise on a stored key. A strict store with a stored key that preprocesses to a key not stored (a rename table that renames it, a custom callable) raises from the lookup instead; `BasicConfigStore.ViewLookupOk` gives the condition for the store's own `get`.
- BasicMergingStrategy.FlatApplyData: stated for a target whose `get` does not raise on a stored key, for the same reason.
- BasicConfigStore.ConfigApplyFlat: in strict mode, stated only when every stored key is its own preprocessed form (as after writes through the standard preprocessor or the identity), so that the strategy's lookups cannot raise.
- BasicConfigStore.SetThenGet: stated only for a preprocessor that keeps the pair `(k, value)` as it is, no filter and the flat strategy. A key-set or callable filter can reject the key, so nothing is written; a casting preprocessor turns a string value into another value; a rename table can rename `k` a second time; the recursive strategy raises `TypeError` on any admitted pair.
- BasicConfigStore.SetItemWrites: stated under the same conditions as `SetThenGet`, for the same reasons.
- BasicConfigStore.StrictCheckedKeysStored: not stated for a preprocessor with a custom callable, whose key may depend on the value, so the key checked with `None` may differ from the key written.
- BasicConfigStore.StrictUpdateAddsNoKey: not stated for a preprocessor with a custom callable, for the same reason.
- Keys are strings. The source's store with the identity preprocessor also accepts any other hashable key.
- StoreForms.Call: a custom callable is a total function, so it never raises. Only the ready-made casting callables raise.

## Findings

| source | as written | input that shows it | evidently intended | confidence | as-written member | corrected member |
|---|---|---|---|---|---|---|
| src/simputils/config/components/preprocessors/SimputilsCastingPreprocessor.py:40-42 | a string of only a sign and one '.' passes the float pattern and the one-dot count, and `float(value)` raises `ValueError` | the value "." (also "+." and "-.") | a value that is not a number stays a string | not executed | `CastingPreprocessor.RunAsWritten`, `CastingPreprocessor.DotRaisesAsWritten` | `CastingPreprocessor.Run`, `CastingPreprocessor.RunAsWrittenAgrees` |
