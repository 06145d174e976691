/** `ConfigHub`: builds stores from dicts and files, and aggregates several
    sources into one store, later sources over earlier ones. */
module ConfigHub {
  import opened Values
  import opened OrderedMaps
  import opened StoreForms
  import opened BasicMergingStrategy
  import opened BasicConfigStore

  /** A file handler: `process_file(file)` gives a store, or `None` when the
      handler does not take the file. Reading and parsing are outside the
      model; a handler is the function from a file to what it yields. */
  datatype FileHandler = FileHandler(process: string -> Option<Snapshot>)

  /** The hub's class attributes. */
  datatype Hub = Hub(fileHandlers: seq<FileHandler>, skipFilesWithMissingHandler: bool)

  /** An argument of `aggregate`: a path, string or stream; `os.environ`; a
      store; a dict; or anything else. */
  datatype HubArg =
    | FileArg(file: string)
    | EnvironArg(environ: seq<(string, Value)>)
    | StoreArg(store: Snapshot)
    | DictArg(items: seq<(string, Value)>)
    | OtherArg(typeName: string)

  /** The type a store made without values takes. */
  function TypeOrClassName(typ: Option<string>): (r: string)
    ensures r != ""
  {
    if typ.Some? && typ.value != "" then typ.value else StoreClassName
  }

  /** `config_from_dict(config, name, source, type)`: a new store with those
      provenance fields and default settings, with `config` applied to it. */
  function ConfigFromDictSpec(config: Source, name: Option<string>, source: Option<SourceTag>,
                              typ: Option<string>): (r: Result<Snapshot>)
    ensures r.Ok? ==> r.value.name == name && r.value.source == source && r.value.typ == TypeOrClassName(typ)
    ensures r.Ok? ==> r.value.handler == None
    ensures config.EnumSrc? || (config.OtherSrc? && config.truthy) ==> r.Err?
  {
    match ConfigApplySpec(StoreState([], [], []), DefaultSettings(), config, name, source, typ, None)
    case Err(e) => Err(e)
    case Ok(st) => Ok(Snapshot(st.storage, name, source, TypeOrClassName(typ), None))
  }

  /** The first handler that takes the file, and what it gives. */
  function FirstHandled(handlers: seq<FileHandler>, file: string): (r: Option<Snapshot>)
    ensures r.None? <==> forall i :: 0 <= i < |handlers| ==> handlers[i].process(file).None?
    ensures r.Some? ==> exists i :: 0 <= i < |handlers| && handlers[i].process(file) == r
                                    && forall j :: 0 <= j < i ==> handlers[j].process(file).None?
  {
    if handlers == [] then None
    else if handlers[0].process(file).Some? then handlers[0].process(file)
    else
      var rest := FirstHandled(handlers[1..], file);
      assert forall i :: 1 <= i < |handlers| ==> handlers[i] == handlers[1..][i - 1];
      rest
  }

  /** `config_from_file(file, handler=...)`: an explicit handler replaces
      the hub's list; no handler at all raises `NoAvailableHandlers`; the
      first handler that takes the file gives the store; a file nobody
      takes gives `None`, or raises `NoHandler` when missing handlers are
      not skipped. */
  function ConfigFromFileSpec(hub: Hub, file: string, handler: Option<FileHandler>): (r: Result<Option<Snapshot>>)
    ensures handler.None? && hub.fileHandlers == [] ==> r == Err(NoAvailableHandlers)
    ensures handler.Some? && handler.value.process(file).Some? ==> r == Ok(handler.value.process(file))
    ensures handler.Some? && handler.value.process(file).None? ==>
      r == if hub.skipFilesWithMissingHandler then Ok(None) else Err(NoHandler(file))
    ensures handler.None? ==> r.Ok? ==> r.value == FirstHandled(hub.fileHandlers, file)
    ensures r.Err? && r.error.NoHandler? ==> !hub.skipFilesWithMissingHandler
  {
    var available := if handler.Some? then [handler.value] else hub.fileHandlers;
    if available == [] then Err(NoAvailableHandlers)
    else
      var handled := FirstHandled(available, file);
      if handled.None? && !hub.skipFilesWithMissingHandler then Err(NoHandler(file))
      else Ok(handled)
  }

  /** What `aggregate` adds to the target for one argument: a file's store
      (or `None`), or a store made from the argument by `config_from_dict`
      (an environment tagged "environ", "os" and "EnvVars"); any other
      argument raises `TypeError`. */
  function ArgSource(hub: Hub, arg: HubArg): (r: Result<Source>)
    ensures arg.OtherArg? ==> r.Err? && r.error.TypeError?
    ensures r.Ok? && arg.EnvironArg? ==>
      (r.value.StoreSrc? && r.value.store.name == Some("environ")
       && r.value.store.source == Some(Text("os")) && r.value.store.typ == "EnvVars")
  {
    match arg
    case FileArg(file) =>
      (match ConfigFromFileSpec(hub, file, None)
       case Err(e) => Err(e)
       case Ok(None) => Ok(NoneSrc)
       case Ok(Some(snapshot)) => Ok(StoreSrc(snapshot)))
    case EnvironArg(environ) =>
      (match ConfigFromDictSpec(EnvironSrc(environ), Some("environ"), Some(Text("os")), Some("EnvVars"))
       case Err(e) => Err(e)
       case Ok(snapshot) => Ok(StoreSrc(snapshot)))
    case StoreArg(store) =>
      (match ConfigFromDictSpec(StoreSrc(store), None, None, None)
       case Err(e) => Err(e)
       case Ok(snapshot) => Ok(StoreSrc(snapshot)))
    case DictArg(items) =>
      (match ConfigFromDictSpec(DictSrc(items), None, None, None)
       case Err(e) => Err(e)
       case Ok(snapshot) => Ok(StoreSrc(snapshot)))
    case OtherArg(typeName) => Err(TypeError("unsupported operand type(s) for +"))
  }

  /** `target += other` for one argument. */
  function ArgStep(hub: Hub, st: StoreState, s: Settings, arg: HubArg): Result<StoreState> {
    match ArgSource(hub, arg)
    case Err(e) => Err(e)
    case Ok(other) => UpdateSpec(st, s, other)
  }

  /** The loop of `aggregate` for any per-argument step: the arguments in
      order; the first error stops the loop, and what the earlier arguments
      did stays in the target. */
  function Fold(step: (StoreState, HubArg) -> Result<StoreState>, st: StoreState, args: seq<HubArg>)
    : (StoreState, Option<Error>)
    decreases |args|
  {
    if args == [] then (st, None)
    else
      match step(st, args[0])
      case Err(e) => (st, Some(e))
      case Ok(st') => Fold(step, st', args[1..])
  }

  function StepOf(hub: Hub, s: Settings): (StoreState, HubArg) -> Result<StoreState> {
    (st, arg) => ArgStep(hub, st, s, arg)
  }

  /** `aggregate(*args, target=...)`. */
  function AggregateSpec(hub: Hub, st: StoreState, s: Settings, args: seq<HubArg>): (StoreState, Option<Error>) {
    Fold(StepOf(hub, s), st, args)
  }

  /** `config_from_dict(config, name, source, type)`: the new store has the
      default settings (so it is not strict), and its storage, records and
      learned keys are those of `config` applied to an empty store. */
  method ConfigFromDict(config: Source, name: Option<string>, source: Option<SourceTag>, typ: Option<string>)
    returns (r: Result<ConfigStore>)
    ensures var spec := ConfigFromDictSpec(config, name, source, typ);
      && (spec.Err? ==> r == Err(spec.error))
      && (spec.Ok? ==> r.Ok? && fresh(r.value) && r.value.Snapshot() == spec.value && r.value.Valid())
      && (spec.Ok? ==> r.value.settings == DefaultSettings())
      && (spec.Ok? ==>
            r.value.State() == ConfigApplySpec(StoreState([], [], []), DefaultSettings(), config, name, source, typ, None).value)
  {
    var created := ConfigStore.Create(NoneSrc, name, source, typ, PpNone, FilterNone, None, true, false, FlatName);
    assert PrepareSupportedTypes(NoneSrc, name, source, typ, None).Ok?;
    assert CreateSpec(NoneSrc, name, source, typ, None, DefaultSettings()) == Ok(StoreState([], [], []));
    var target := created.value;
    assert target.State() == StoreState([], [], []) && target.settings == DefaultSettings();
    var outcome := target.ConfigApply(config, name, source, typ, None);
    if outcome.Fail? {
      return Err(outcome.error);
    }
    return Ok(target);
  }

  /** `config_from_file(file, handler=...)`: the loop over the handlers. */
  method ConfigFromFile(hub: Hub, file: string, handler: Option<FileHandler>) returns (r: Result<Option<Snapshot>>)
    ensures r == ConfigFromFileSpec(hub, file, handler)
  {
    var available := hub.fileHandlers;
    if handler.Some? {
      available := [handler.value];
    }
    if available == [] {
      return Err(NoAvailableHandlers);
    }
    var handled: Option<Snapshot> := None;
    var i := 0;
    while i < |available|
      invariant 0 <= i <= |available|
      invariant FirstHandled(available, file) == FirstHandled(available[i..], file)
    {
      assert available[i..][1..] == available[i + 1..];
      var sub := available[i].process(file);
      if sub.Some? {
        handled := sub;
        break;
      }
      i := i + 1;
    }
    if handled.None? && !hub.skipFilesWithMissingHandler {
      return Err(NoHandler(file));
    }
    return Ok(handled);
  }

  /** The source one argument of `aggregate` contributes. */
  method PrepareArg(hub: Hub, arg: HubArg) returns (r: Result<Source>)
    ensures r == ArgSource(hub, arg)
  {
    match arg
    case FileArg(file) => {
      var sub := ConfigFromFile(hub, file, None);
      if sub.Err? {
        return Err(sub.error);
      }
      return Ok(if sub.value.Some? then StoreSrc(sub.value.value) else NoneSrc);
    }
    case EnvironArg(environ) => {
      var sub := ConfigFromDict(EnvironSrc(environ), Some("environ"), Some(Text("os")), Some("EnvVars"));
      if sub.Err? {
        return Err(sub.error);
      }
      return Ok(StoreSrc(sub.value.Snapshot()));
    }
    case StoreArg(store) => {
      var sub := ConfigFromDict(StoreSrc(store), None, None, None);
      if sub.Err? {
        return Err(sub.error);
      }
      return Ok(StoreSrc(sub.value.Snapshot()));
    }
    case DictArg(items) => {
      var sub := ConfigFromDict(DictSrc(items), None, None, None);
      if sub.Err? {
        return Err(sub.error);
      }
      return Ok(StoreSrc(sub.value.Snapshot()));
    }
    case OtherArg(_) => {
      return Err(TypeError("unsupported operand type(s) for +"));
    }
  }

  /** `aggregate(*args, target=target)`. */
  method AggregateInto(hub: Hub, args: seq<HubArg>, target: ConfigStore) returns (r: Outcome)
    requires target.Valid()
    modifies target
    ensures var (st, error) := AggregateSpec(hub, old(target.State()), target.settings, args);
      && target.State() == st && target.Valid()
      && (error.None? ==> r == Pass)
      && (error.Some? ==> r == Fail(error.value))
  {
    var i := 0;
    while i < |args|
      invariant 0 <= i <= |args|
      invariant target.Valid()
      invariant AggregateSpec(hub, old(target.State()), target.settings, args)
             == AggregateSpec(hub, target.State(), target.settings, args[i..])
    {
      assert args[i..][1..] == args[i + 1..];
      var other := PrepareArg(hub, args[i]);
      if other.Err? {
        return Fail(other.error);
      }
      var outcome := target.Add(other.value);
      if outcome.Fail? {
        return outcome;
      }
      i := i + 1;
    }
    assert args[i..] == [];
    return Pass;
  }

  /** `aggregate(*args)` without a target: a new default store. */
  method Aggregate(hub: Hub, args: seq<HubArg>) returns (r: Result<ConfigStore>)
    ensures var (st, error) := AggregateSpec(hub, StoreState([], [], []), DefaultSettings(), args);
      && (error.Some? ==> r == Err(error.value))
      && (error.None? ==> r.Ok? && fresh(r.value) && r.value.State() == st && r.value.settings == DefaultSettings())
  {
    var created := ConfigStore.Create(NoneSrc, None, None, None, PpNone, FilterNone, None, true, false, FlatName);
    assert PrepareSupportedTypes(NoneSrc, None, None, None, None).Ok?;
    var target := created.value;
    var outcome := AggregateInto(hub, args, target);
    if outcome.Fail? {
      return Err(outcome.error);
    }
    return Ok(target);
  }

  /** `config_from_dict` of a mapping gives a store that holds what the
      mapping holds: each listed key with the last value listed for it. */
  lemma ConfigFromDictHolds(config: Source, name: Option<string>, source: Option<SourceTag>, typ: Option<string>)
    requires config.DictSrc? || config.EnvironSrc? || config.StoreSrc?
    ensures var r := ConfigFromDictSpec(config, name, source, typ);
      && r.Ok?
      && OrderedMaps.Valid(r.value.items)
      && forall k :: Get(r.value.items, k) == if k in Keys(Items(config)) then Some(LastValue(Items(config), k)) else None
  {
    var st := StoreState([], [], []);
    ApplyUnderDefaults(st, config, name, source, typ, None, "");
    var applied := ConfigApplySpec(st, DefaultSettings(), config, name, source, typ, None).value;
    assert ConfigFromDictSpec(config, name, source, typ) == Ok(Snapshot(applied.storage, name, source, TypeOrClassName(typ), None));
    forall k ensures Get(applied.storage, k) == if k in Keys(Items(config)) then Some(LastValue(Items(config), k)) else None
    {
      ApplyUnderDefaults(st, config, name, source, typ, None, k);
    }
    ConfigApplyKeepsDict(st, DefaultSettings(), config, name, source, typ, None);
  }

  /** Whether an argument of `aggregate` is a mapping merged as it is. */
  predicate IsMapping(arg: HubArg) {
    arg.DictArg? || arg.StoreArg? || arg.EnvironArg?
  }

  /** The pairs a mapping argument lists. */
  function ArgItems(arg: HubArg): seq<(string, Value)>
    requires IsMapping(arg)
  {
    match arg
    case DictArg(items) => items
    case StoreArg(store) => store.items
    case EnvironArg(environ) => environ
  }

  /** On a target with the default settings, a mapping argument of
      `aggregate` always applies: each key it lists takes the last value it
      lists for that key, and every other key keeps its value. */
  lemma MappingArgOverrides(hub: Hub, st: StoreState, arg: HubArg, k: string)
    requires IsMapping(arg)
    ensures var r := ArgStep(hub, st, DefaultSettings(), arg);
      && r.Ok?
      && Get(r.value.storage, k) == if k in Keys(ArgItems(arg)) then Some(LastValue(ArgItems(arg), k)) else Get(st.storage, k)
  {
    MappingArgSource(hub, arg, k);
    var src := ArgSource(hub, arg).value;
    ApplyUnderDefaults(st, src, None, None, None, None, k);
    assert Items(src) == src.store.items;
    if k in Keys(src.store.items) {
      LastValueValid(src.store.items, k);
    }
  }

  /** A mapping argument is read into a snapshot holding its last value for
      the key. */
  lemma MappingArgSource(hub: Hub, arg: HubArg, k: string)
    requires IsMapping(arg)
    ensures var r := ArgSource(hub, arg);
      && r.Ok? && r.value.StoreSrc?
      && PrepareSupportedTypes(r.value, None, None, None, None).Ok?
      && OrderedMaps.Valid(r.value.store.items)
      && Get(r.value.store.items, k) == if k in Keys(ArgItems(arg)) then Some(LastValue(ArgItems(arg), k)) else None
  {
    match arg
    case DictArg(items) =>
      ConfigFromDictHolds(DictSrc(items), None, None, None);
    case StoreArg(store) =>
      ConfigFromDictHolds(StoreSrc(store), None, None, None);
    case EnvironArg(environ) =>
      ConfigFromDictHolds(EnvironSrc(environ), Some("environ"), Some(Text("os")), Some("EnvVars"));
  }

  /** `aggregate` hands a dict argument to the target as the store
      `config_from_dict` made of it, so the target records it with that
      store's type, the class name "ConfigStore", rather than "dict". */
  lemma DictArgRecordedAsStore(hub: Hub, st: StoreState, items: seq<(string, Value)>)
    requires items != []
    ensures var r := ArgStep(hub, st, DefaultSettings(), DictArg(items));
      && r.Ok?
      && |r.value.appliedConfs| == |st.appliedConfs| + 1
      && r.value.appliedConfs[|st.appliedConfs|].typ == StoreClassName
  {
    var s := DefaultSettings();
    var k := items[0].0;
    assert k in Keys(items);
    MappingArgSource(hub, DictArg(items), k);
    var src := ArgSource(hub, DictArg(items)).value;
    assert src.store.typ == StoreClassName;
    assert |src.store.items| > 0;
    ApplyUnderDefaults(st, src, None, None, None, None, k);
    assert ArgStep(hub, st, s, DictArg(items)) == ConfigApplySpec(st, s, src, None, None, None, None);
    assert PrepareSupportedTypes(src, None, None, None, None).value.typ == StoreClassName;
  }

  /** The last mapping argument that lists the key. */
  function LastListing(args: seq<HubArg>, k: string): (r: Option<nat>)
    ensures r.Some? ==> r.value < |args| && IsMapping(args[r.value]) && k in Keys(ArgItems(args[r.value]))
  {
    if args == [] then None
    else if IsMapping(args[|args| - 1]) && k in Keys(ArgItems(args[|args| - 1])) then Some(|args| - 1)
    else LastListing(args[..|args| - 1], k)
  }

  /** The loop over one more argument: the loop as it stood, then that
      argument unless an earlier one failed. */
  lemma {:induction false} AggregateSnoc(step: (StoreState, HubArg) -> Result<StoreState>, st: StoreState,
                                         args: seq<HubArg>, arg: HubArg)
    ensures Fold(step, st, args + [arg]) ==
      var (st', error) := Fold(step, st, args);
      if error.Some? then (st', error)
      else match step(st', arg)
        case Err(e) => (st', Some(e))
        case Ok(st'') => (st'', None)
    decreases |args|
  {
    if args == [] {
      assert [arg][1..] == [];
    } else {
      assert (args + [arg])[1..] == args[1..] + [arg];
      match step(st, args[0])
      case Err(_) =>
      case Ok(st1) => AggregateSnoc(step, st1, args[1..], arg);
    }
  }

  /** Later sources win: aggregating mappings into a store with the default
      settings never fails, and each key ends with the value the last
      mapping that lists it gives, or keeps its value when none does. */
  lemma {:induction false} AggregateLaterWins(hub: Hub, st: StoreState, args: seq<HubArg>, k: string)
    requires forall i :: 0 <= i < |args| ==> IsMapping(args[i])
    ensures var (st', error) := AggregateSpec(hub, st, DefaultSettings(), args);
      && error.None?
      && Get(st'.storage, k) == match LastListing(args, k)
                                case None => Get(st.storage, k)
                                case Some(i) => Some(LastValue(ArgItems(args[i]), k))
    decreases |args|
  {
    if args != [] {
      var n := |args| - 1;
      var init := args[..n];
      assert args == init + [args[n]];
      AggregateLaterWins(hub, st, init, k);
      AggregateSnoc(StepOf(hub, DefaultSettings()), st, init, args[n]);
      var mid := AggregateSpec(hub, st, DefaultSettings(), init).0;
      MappingArgOverrides(hub, mid, args[n], k);
    }
  }

  /** `aggregate` is not atomic: when an argument fails, the target holds
      what the arguments before it made, and that argument's error is the
      one raised. */
  lemma {:induction false} AggregateStopsAtFirstError(step: (StoreState, HubArg) -> Result<StoreState>,
                                                      st: StoreState, args: seq<HubArg>)
    ensures var (st', error) := Fold(step, st, args);
      error.Some? ==> exists n :: 0 <= n < |args| && Fold(step, st, args[..n]) == (st', None)
                                   && step(st', args[n]) == Err(error.value)
    decreases |args|
  {
    if args != [] {
      match step(st, args[0])
      case Err(e) =>
        assert args[..0] == [];
      case Ok(st1) =>
        var (st', error) := Fold(step, st, args);
        AggregateStopsAtFirstError(step, st1, args[1..]);
        if error.Some? {
          var n :| 0 <= n < |args[1..]| && Fold(step, st1, args[1..][..n]) == (st', None)
                   && step(st', args[1..][n]) == Err(error.value);
          assert args[..n + 1][1..] == args[1..][..n];
          assert Fold(step, st, args[..n + 1]) == (st', None);
        }
    }
  }

  /** A file no handler takes, when missing handlers are skipped, adds
      `None` to the target: nothing changes, except that a strict target
      iterates `None` for its key check and raises `TypeError`. */
  lemma UnhandledFileSkipped(hub: Hub, st: StoreState, s: Settings, file: string)
    requires hub.skipFilesWithMissingHandler && hub.fileHandlers != []
    requires forall i :: 0 <= i < |hub.fileHandlers| ==> hub.fileHandlers[i].process(file).None?
    ensures !s.strict ==> ArgStep(hub, st, s, FileArg(file)) == Ok(st)
    ensures s.strict ==> ArgStep(hub, st, s, FileArg(file)).Err? && ArgStep(hub, st, s, FileArg(file)).error.TypeError?
  {
    assert ArgSource(hub, FileArg(file)) == Ok(NoneSrc);
  }
}
