/** `apply_data`, shared by the merging strategies: every incoming pair is
    preprocessed and filtered, and each admitted pair is merged with what
    the target store holds under its key. The target is only read; the
    merged values are returned for the store to write.

    The preprocessor, the filter and the target's `get` reach `apply_data`
    as callables, and are parameters here. */
module BasicMergingStrategy {
  import opened Values
  import opened OrderedMaps
  import opened StoreForms
  import MergingStrategyFlat

  /** `self.merge(key, val_target, val_incoming, none_considered_empty)`.
      The recursive strategy's `merge` takes three arguments, so the
      four-argument call raises `TypeError`. */
  function MergeCall(strategy: Strategy, key: string, target: Target, incoming: Value, noneConsideredEmpty: bool): (r: Result<Value>)
    ensures strategy.Flat? ==> r == Ok(MergingStrategyFlat.Merge(key, target, incoming, noneConsideredEmpty))
    ensures strategy.Recursive? ==> r.Err? && r.error.TypeError?
  {
    match strategy
    case Flat => Ok(MergingStrategyFlat.Merge(key, target, incoming, noneConsideredEmpty))
    case Recursive(_) => Err(TypeError("merge() takes 4 positional arguments but 5 were given"))
  }

  /** The target as `apply_data` sees it: `key in target` asks the
      storage, `target.get(key)` may preprocess again and may raise. */
  datatype TargetView = TargetView(storage: seq<(string, Value)>, get: string -> Result<Value>)

  /** The value handed to `merge` as the target: the `NotExisting` sentinel
      when the key is not stored, otherwise `target.get(key)`. */
  function LookupTarget(t: TargetView, key: string): (r: Result<Target>)
    ensures key !in Keys(t.storage) ==> r == Ok(NotExisting)
    ensures key in Keys(t.storage) && t.get(key).Ok? ==> r == Ok(Existing(t.get(key).value))
    ensures key in Keys(t.storage) && t.get(key).Err? ==> r == Err(t.get(key).error)
  {
    if key in Keys(t.storage) then
      match t.get(key)
      case Ok(x) => Ok(Existing(x))
      case Err(e) => Err(e)
    else Ok(NotExisting)
  }

  /** What `apply_data` returns: the merged values by key, and the admitted
      keys in incoming order. */
  type Output = (seq<(string, Value)>, seq<string>)

  /** One pass of the loop, for an incoming pair already preprocessed. */
  function Step(out: Output, t: TargetView, strategy: Strategy, admits: (string, Value) -> Result<bool>,
                p: (string, Value), noneConsideredEmpty: bool): Result<Output>
  {
    match admits(p.0, p.1)
    case Err(e) => Err(e)
    case Ok(admitted) =>
      if !admitted then Ok(out)
      else
        var target := LookupTarget(t, p.0);
        if target.Err? then Err(target.error)
        else
          var m := MergeCall(strategy, p.0, target.value, p.1, noneConsideredEmpty);
          if m.Err? then Err(m.error)
          else Ok((Put(out.0, p.0, m.value), out.1 + [p.0]))
  }

  /** The outcome of the loop after the first `n` incoming pairs. */
  function ApplyDataUpTo(t: TargetView, strategy: Strategy, pp: (string, Value) -> Result<(string, Value)>,
                         admits: (string, Value) -> Result<bool>, items: seq<(string, Value)>,
                         noneConsideredEmpty: bool, n: nat): Result<Output>
    requires n <= |items|
  {
    if n == 0 then Ok(([], []))
    else
      match ApplyDataUpTo(t, strategy, pp, admits, items, noneConsideredEmpty, n - 1)
      case Err(e) => Err(e)
      case Ok(out) =>
        match pp(items[n - 1].0, items[n - 1].1)
        case Err(e) => Err(e)
        case Ok(p) => Step(out, t, strategy, admits, p, noneConsideredEmpty)
  }

  function ApplyDataSpec(t: TargetView, strategy: Strategy, pp: (string, Value) -> Result<(string, Value)>,
                         admits: (string, Value) -> Result<bool>, items: seq<(string, Value)>,
                         noneConsideredEmpty: bool): Result<Output>
  {
    ApplyDataUpTo(t, strategy, pp, admits, items, noneConsideredEmpty, |items|)
  }

  /** `BasicMergingStrategy.apply_data`. An exception from the
      preprocessor, the filter, the target's `get` or `merge` leaves the
      loop. */
  method ApplyData(t: TargetView, strategy: Strategy, pp: (string, Value) -> Result<(string, Value)>,
                   admits: (string, Value) -> Result<bool>, items: seq<(string, Value)>, noneConsideredEmpty: bool)
    returns (r: Result<Output>)
    ensures r == ApplyDataSpec(t, strategy, pp, admits, items, noneConsideredEmpty)
  {
    var appliedKeys: seq<string> := [];
    var storageResult: seq<(string, Value)> := [];
    for n := 0 to |items|
      invariant ApplyDataUpTo(t, strategy, pp, admits, items, noneConsideredEmpty, n) == Ok((storageResult, appliedKeys))
    {
      ghost var before := (storageResult, appliedKeys);
      var pre := pp(items[n].0, items[n].1);
      if pre.Err? {
        ErrorStops(t, strategy, pp, admits, items, noneConsideredEmpty, n + 1, |items|);
        return Err(pre.error);
      }
      var p := pre.value;
      assert ApplyDataUpTo(t, strategy, pp, admits, items, noneConsideredEmpty, n + 1)
          == Step(before, t, strategy, admits, p, noneConsideredEmpty);
      var admitted := admits(p.0, p.1);
      if admitted.Err? {
        ErrorStops(t, strategy, pp, admits, items, noneConsideredEmpty, n + 1, |items|);
        return Err(admitted.error);
      }
      if admitted.value {
        appliedKeys := appliedKeys + [p.0];
        var valTarget := LookupTarget(t, p.0);
        if valTarget.Err? {
          ErrorStops(t, strategy, pp, admits, items, noneConsideredEmpty, n + 1, |items|);
          return Err(valTarget.error);
        }
        var merged := MergeCall(strategy, p.0, valTarget.value, p.1, noneConsideredEmpty);
        if merged.Err? {
          ErrorStops(t, strategy, pp, admits, items, noneConsideredEmpty, n + 1, |items|);
          return Err(merged.error);
        }
        storageResult := Put(storageResult, p.0, merged.value);
      }
    }
    r := Ok((storageResult, appliedKeys));
  }

  /** The loop stops at the first error, and that error is the result. */
  lemma {:induction false} ErrorStops(t: TargetView, strategy: Strategy, pp: (string, Value) -> Result<(string, Value)>,
                                      admits: (string, Value) -> Result<bool>, items: seq<(string, Value)>,
                                      nce: bool, n: nat, m: nat)
    requires n <= m <= |items|
    requires ApplyDataUpTo(t, strategy, pp, admits, items, nce, n).Err?
    ensures ApplyDataUpTo(t, strategy, pp, admits, items, nce, m) == ApplyDataUpTo(t, strategy, pp, admits, items, nce, n)
    decreases m - n
  {
    if n < m {
      ErrorStops(t, strategy, pp, admits, items, nce, n + 1, m);
    }
  }

  /** The admitted pairs among the first `n`, preprocessed, in incoming
      order, or the first error the preprocessor or the filter raises. */
  function AdmittedPairs(pp: (string, Value) -> Result<(string, Value)>, admits: (string, Value) -> Result<bool>,
                         items: seq<(string, Value)>, n: nat): Result<seq<(string, Value)>>
    requires n <= |items|
  {
    if n == 0 then Ok([])
    else
      match AdmittedPairs(pp, admits, items, n - 1)
      case Err(e) => Err(e)
      case Ok(prior) =>
        match pp(items[n - 1].0, items[n - 1].1)
        case Err(e) => Err(e)
        case Ok(p) =>
          match admits(p.0, p.1)
          case Err(e) => Err(e)
          case Ok(admitted) => Ok(prior + (if admitted then [p] else []))
  }

  /** The admitted pairs are known exactly when neither the preprocessor
      nor the filter raises on any incoming pair. */
  lemma {:induction false} AdmittedPairsOk(pp: (string, Value) -> Result<(string, Value)>,
                                           admits: (string, Value) -> Result<bool>,
                                           items: seq<(string, Value)>, n: nat)
    requires n <= |items|
    ensures AdmittedPairs(pp, admits, items, n).Ok? <==>
      forall i :: 0 <= i < n ==>
        (pp(items[i].0, items[i].1).Ok? &&
         admits(pp(items[i].0, items[i].1).value.0, pp(items[i].0, items[i].1).value.1).Ok?)
  {
    if n > 0 {
      AdmittedPairsOk(pp, admits, items, n - 1);
    }
  }

  /** When the filter admits every pair, the admitted pairs are all the
      incoming pairs, preprocessed, in order. */
  lemma {:induction false} AllAdmitted(pp: (string, Value) -> Result<(string, Value)>,
                                       admits: (string, Value) -> Result<bool>,
                                       items: seq<(string, Value)>, n: nat)
    requires n <= |items|
    requires forall i :: 0 <= i < n ==>
      (pp(items[i].0, items[i].1).Ok? &&
       admits(pp(items[i].0, items[i].1).value.0, pp(items[i].0, items[i].1).value.1) == Ok(true))
    ensures AdmittedPairs(pp, admits, items, n).Ok?
    ensures |AdmittedPairs(pp, admits, items, n).value| == n
    ensures forall i :: 0 <= i < n ==> Ok(AdmittedPairs(pp, admits, items, n).value[i]) == pp(items[i].0, items[i].1)
  {
    if n > 0 {
      AllAdmitted(pp, admits, items, n - 1);
    }
  }

  /** Every admitted pair comes from an incoming pair the filter admitted. */
  lemma {:induction false} AdmittedFrom(pp: (string, Value) -> Result<(string, Value)>,
                                        admits: (string, Value) -> Result<bool>,
                                        items: seq<(string, Value)>, n: nat)
    requires n <= |items|
    ensures AdmittedPairs(pp, admits, items, n).Ok? ==>
      forall j :: 0 <= j < |AdmittedPairs(pp, admits, items, n).value| ==>
        var a := AdmittedPairs(pp, admits, items, n).value[j];
        admits(a.0, a.1) == Ok(true) && exists i :: 0 <= i < n && pp(items[i].0, items[i].1) == Ok(a)
  {
    if n > 0 && AdmittedPairs(pp, admits, items, n).Ok? {
      AdmittedFrom(pp, admits, items, n - 1);
      var prior := AdmittedPairs(pp, admits, items, n - 1).value;
      var all := AdmittedPairs(pp, admits, items, n).value;
      forall j | 0 <= j < |all|
        ensures admits(all[j].0, all[j].1) == Ok(true) && exists i :: 0 <= i < n && pp(items[i].0, items[i].1) == Ok(all[j])
      {
        if j < |prior| {
          assert all[j] == prior[j];
        } else {
          assert pp(items[n - 1].0, items[n - 1].1) == Ok(all[j]);
        }
      }
    }
  }

  /** On success, the applied keys are exactly the preprocessed keys the
      filter admitted, in incoming order, and a key has a merged value
      exactly when it was admitted: rejected keys appear in neither. */
  lemma {:induction false} AppliedKeysAdmitted(t: TargetView, strategy: Strategy,
                                               pp: (string, Value) -> Result<(string, Value)>,
                                               admits: (string, Value) -> Result<bool>, items: seq<(string, Value)>,
                                               nce: bool, n: nat)
    requires n <= |items|
    requires ApplyDataUpTo(t, strategy, pp, admits, items, nce, n).Ok?
    ensures AdmittedPairs(pp, admits, items, n).Ok?
    ensures var out := ApplyDataUpTo(t, strategy, pp, admits, items, nce, n).value;
      && out.1 == Keys(AdmittedPairs(pp, admits, items, n).value)
      && (forall k :: k in Keys(out.0) <==> k in out.1)
  {
    if n > 0 {
      AppliedKeysAdmitted(t, strategy, pp, admits, items, nce, n - 1);
    }
  }

  /** Under the recursive strategy, against a target whose `get` does not
      raise on a stored key, nothing admitted means success with nothing to
      merge, and any admitted pair makes `apply_data` fail with
      `TypeError`. */
  lemma {:induction false} RecursiveFailsWhenAdmitting(t: TargetView, strategy: Strategy,
                                                       pp: (string, Value) -> Result<(string, Value)>,
                                                       admits: (string, Value) -> Result<bool>,
                                                       items: seq<(string, Value)>, nce: bool, n: nat)
    requires n <= |items| && strategy.Recursive?
    requires forall k :: k in Keys(t.storage) ==> t.get(k).Ok?
    ensures var r := ApplyDataUpTo(t, strategy, pp, admits, items, nce, n);
      var a := AdmittedPairs(pp, admits, items, n);
      && (a == Ok([]) <==> r == Ok(([], [])))
      && (a.Ok? && a.value != [] ==> r.Err? && r.error.TypeError?)
  {
    if n > 0 {
      RecursiveFailsWhenAdmitting(t, strategy, pp, admits, items, nce, n - 1);
      var prev := AdmittedPairs(pp, admits, items, n - 1);
      var pre := pp(items[n - 1].0, items[n - 1].1);
      if prev.Ok? && pre.Ok? {
        var p := pre.value;
        var up := ApplyDataUpTo(t, strategy, pp, admits, items, nce, n - 1);
        if admits(p.0, p.1) == Ok(true) {
          assert LookupTarget(t, p.0).Ok?;
          if up.Ok? {
            assert ApplyDataUpTo(t, strategy, pp, admits, items, nce, n) == Step(up.value, t, strategy, admits, p, nce);
          }
        }
      }
    }
  }

  /** With the flat strategy and without `none_considered_empty`, against a
      target whose `get` does not raise on a stored key, `apply_data` fails
      only when the preprocessor or the filter does; otherwise its result is
      the admitted pairs written one after another, so the last admitted
      value for a key wins. */
  lemma {:induction false} FlatApplyData(t: TargetView, pp: (string, Value) -> Result<(string, Value)>,
                                         admits: (string, Value) -> Result<bool>, items: seq<(string, Value)>, n: nat)
    requires n <= |items|
    requires forall k :: k in Keys(t.storage) ==> t.get(k).Ok?
    ensures ApplyDataUpTo(t, Flat, pp, admits, items, false, n) ==
      match AdmittedPairs(pp, admits, items, n)
      case Err(e) => Err(e)
      case Ok(a) => Ok((PutAll([], a), Keys(a)))
  {
    if n > 0 {
      FlatApplyData(t, pp, admits, items, n - 1);
      var prev := AdmittedPairs(pp, admits, items, n - 1);
      var pre := pp(items[n - 1].0, items[n - 1].1);
      if prev.Ok? && pre.Ok? {
        FlatStep(t, admits, prev.value, pre.value);
      }
    }
  }

  /** One flat step after the admitted pairs so far were written. */
  lemma FlatStep(t: TargetView, admits: (string, Value) -> Result<bool>, prior: seq<(string, Value)>,
                 p: (string, Value))
    requires forall k :: k in Keys(t.storage) ==> t.get(k).Ok?
    ensures Step((PutAll([], prior), Keys(prior)), t, Flat, admits, p, false) ==
      match admits(p.0, p.1)
      case Err(e) => Err(e)
      case Ok(admitted) =>
        var a := prior + (if admitted then [p] else []);
        Ok((PutAll([], a), Keys(a)))
  {
    if admits(p.0, p.1) == Ok(true) {
      assert LookupTarget(t, p.0).Ok?;
      PutAllSnoc([], prior, p);
      KeysSnoc(prior, p);
    } else if admits(p.0, p.1) == Ok(false) {
      assert prior + [] == prior;
    }
  }
}
