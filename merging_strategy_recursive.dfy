/** The recursive merging strategy: dicts are merged key by key, objects
    field by field, lists and tuples are optionally concatenated, and any
    other combination takes the incoming value. */
module MergingStrategyRecursive {
  import opened Values
  import opened OrderedMaps

  /** `_none_check`: the incoming value is `None`. */
  predicate NoneCheck(target: Target, incoming: Value) {
    incoming.Null?
  }

  /** `_not_existing_check`: the key is absent from the target. */
  predicate NotExistingCheck(target: Target, incoming: Value) {
    target.NotExisting?
  }

  /** `_primitive_check`: neither side is `None` and one of them is an int,
      float, bool or str. */
  predicate PrimitiveCheck(target: Target, incoming: Value) {
    target != Existing(Null) && !incoming.Null? &&
    ((target.Existing? && IsPrimitive(target.value)) || IsPrimitive(incoming))
  }

  /** `isinstance(v, w.__class__)`. A bool is an instance of int; two
      objects are instances of one another's class exactly when the class
      is the same (subclassing is not modelled). */
  predicate InstanceOf(v: Value, w: Value) {
    (v.Null? && w.Null?) ||
    (v.Bool? && (w.Bool? || w.Int?)) ||
    (v.Int? && w.Int?) ||
    (v.Str? && w.Str?) ||
    (v.Decimal? && w.Decimal?) ||
    (v.Seq? && w.Seq? && v.isTuple == w.isTuple) ||
    (v.Map? && w.Map?) ||
    (v.Obj? && w.Obj? && v.cls == w.cls)
  }

  /** `_incompatible_check`: the target is not an instance of the incoming
      value's class. The `NotExisting` sentinel is an instance of no value's
      class. */
  predicate IncompatibleCheck(target: Target, incoming: Value) {
    !(target.Existing? && InstanceOf(target.value, incoming))
  }

  /** Any of the four checks: the incoming value is taken as it is. */
  predicate TakesIncoming(target: Target, incoming: Value) {
    NoneCheck(target, incoming) || NotExistingCheck(target, incoming) ||
    PrimitiveCheck(target, incoming) || IncompatibleCheck(target, incoming)
  }

  /** `MergingStrategyRecursive.merge`. Once the checks fail both sides
      are of one class, so the list/tuple test, the dict test and the object
      test each see two values of that class. */
  function Merge(target: Target, incoming: Value, listExtend: bool): (r: Value)
    ensures NoneCheck(target, incoming) ==> r == Null
    ensures TakesIncoming(target, incoming) ==> r == incoming
    ensures r.Null? <==> incoming.Null?
    decreases incoming, 1
  {
    if TakesIncoming(target, incoming) then incoming
    else
      var t := target.value;
      if t.Seq? && incoming.Seq? then
        if listExtend then Seq(t.isTuple, t.items + incoming.items) else incoming
      else if t.Map? && incoming.Map? then
        Map(MergeDictFrom(t.entries, incoming, 0, listExtend))
      else if t.Obj? && incoming.Obj? then
        Obj(t.cls, MergeObjectFrom(t.fields, incoming, 0, listExtend))
      else incoming
  }

  /** The dict `_dictionaries_merge` leaves behind once it has processed the
      incoming pairs from index `j` on, starting from `acc`: a shared key
      gets the merge of its two values, an incoming-only key is added. */
  function MergeDictFrom(acc: seq<(string, Value)>, incoming: Value, j: nat, listExtend: bool): seq<(string, Value)>
    requires incoming.Map? && j <= |incoming.entries|
    decreases incoming, 0, |incoming.entries| - j
  {
    if j == |incoming.entries| then acc
    else
      assert incoming.entries[j] in incoming.entries;
      MergeDictFrom(DictStep(acc, incoming.entries[j], listExtend), incoming, j + 1, listExtend)
  }

  /** One pass of the `_dictionaries_merge` loop. */
  function DictStep(acc: seq<(string, Value)>, e: (string, Value), listExtend: bool): seq<(string, Value)>
    decreases e.1, 2
  {
    if e.0 in Keys(acc) then Put(acc, e.0, Merge(Existing(Get(acc, e.0).value), e.1, listExtend))
    else Put(acc, e.0, e.1)
  }

  /** The fields `_objects_merge` leaves behind once it has processed the
      incoming fields from index `j` on: only fields the target already
      has are touched, and a merge giving `None` keeps the old field. */
  function MergeObjectFrom(acc: seq<(string, Value)>, incoming: Value, j: nat, listExtend: bool): seq<(string, Value)>
    requires incoming.Obj? && j <= |incoming.fields|
    decreases incoming, 0, |incoming.fields| - j
  {
    if j == |incoming.fields| then acc
    else
      assert incoming.fields[j] in incoming.fields;
      MergeObjectFrom(ObjectStep(acc, incoming.fields[j], listExtend), incoming, j + 1, listExtend)
  }

  /** One pass of the `_objects_merge` loop. */
  function ObjectStep(acc: seq<(string, Value)>, e: (string, Value), listExtend: bool): seq<(string, Value)>
    decreases e.1, 2
  {
    if e.0 in Keys(acc) then
      var prior := Get(acc, e.0).value;
      var sub := Merge(Existing(prior), e.1, listExtend);
      Put(acc, e.0, if sub.Null? then prior else sub)
    else acc
  }

  /** `_dictionaries_merge`: a loop over the incoming pairs writing into the
      target dict. */
  method DictionariesMerge(target: seq<(string, Value)>, incoming: seq<(string, Value)>, listExtend: bool)
    returns (res: seq<(string, Value)>)
    ensures res == MergeDictFrom(target, Map(incoming), 0, listExtend)
  {
    res := target;
    var n := 0;
    while n < |incoming|
      invariant 0 <= n <= |incoming|
      invariant MergeDictFrom(res, Map(incoming), n, listExtend) == MergeDictFrom(target, Map(incoming), 0, listExtend)
    {
      var key, valIn := incoming[n].0, incoming[n].1;
      MergeDictFromStep(res, incoming, n, listExtend);
      if key in Keys(res) {
        res := Put(res, key, Merge(Existing(Get(res, key).value), valIn, listExtend));
      } else {
        res := Put(res, key, valIn);
      }
      n := n + 1;
    }
  }

  lemma MergeDictFromStep(acc: seq<(string, Value)>, incoming: seq<(string, Value)>, n: nat, listExtend: bool)
    requires n < |incoming|
    ensures MergeDictFrom(acc, Map(incoming), n, listExtend)
         == MergeDictFrom(DictStep(acc, incoming[n], listExtend), Map(incoming), n + 1, listExtend)
  {
  }

  /** `_objects_merge`: a loop over the incoming object's fields writing
      into the target object's fields. */
  method ObjectsMerge(target: seq<(string, Value)>, cls: string, incoming: seq<(string, Value)>, listExtend: bool)
    returns (res: seq<(string, Value)>)
    ensures res == MergeObjectFrom(target, Obj(cls, incoming), 0, listExtend)
  {
    res := target;
    var n := 0;
    while n < |incoming|
      invariant 0 <= n <= |incoming|
      invariant MergeObjectFrom(res, Obj(cls, incoming), n, listExtend) == MergeObjectFrom(target, Obj(cls, incoming), 0, listExtend)
    {
      var key, valIn := incoming[n].0, incoming[n].1;
      MergeObjectFromStep(res, cls, incoming, n, listExtend);
      if key in Keys(res) {
        var subVal := Merge(Existing(Get(res, key).value), valIn, listExtend);
        if subVal.Null? {
          subVal := Get(res, key).value;
        }
        res := Put(res, key, subVal);
      }
      n := n + 1;
    }
  }

  lemma MergeObjectFromStep(acc: seq<(string, Value)>, cls: string, incoming: seq<(string, Value)>, n: nat,
                            listExtend: bool)
    requires n < |incoming|
    ensures MergeObjectFrom(acc, Obj(cls, incoming), n, listExtend)
         == MergeObjectFrom(ObjectStep(acc, incoming[n], listExtend), Obj(cls, incoming), n + 1, listExtend)
  {
  }

  /** The incoming keys that are not among `ks`, in incoming order. */
  function AppendedKeys(ks: seq<string>, es: seq<(string, Value)>): seq<string> {
    if es == [] then []
    else (if es[0].0 in ks then [] else [es[0].0]) + AppendedKeys(ks, es[1..])
  }

  lemma {:induction false} AppendedKeysIgnore(ks: seq<string>, x: string, es: seq<(string, Value)>)
    requires x !in Keys(es)
    ensures AppendedKeys(ks + [x], es) == AppendedKeys(ks, es)
  {
    if es != [] {
      assert Keys(es)[0] == es[0].0;
      assert Keys(es[1..]) == Keys(es)[1..];
      AppendedKeysIgnore(ks, x, es[1..]);
    }
  }

  /** A suffix of a dict without repeated keys: its first pair, then the
      rest, in which the first key does not occur again. */
  lemma SuffixKeys(es: seq<(string, Value)>, j: nat)
    requires Valid(es) && j < |es|
    ensures Valid(es[j + 1..]) && es[j].0 !in Keys(es[j + 1..])
    ensures es[j..][0] == es[j] && es[j..][1..] == es[j + 1..]
  {
    assert Keys(es[j + 1..]) == Keys(es)[j + 1..];
  }

  /** Looking a key up in a suffix. */
  lemma SuffixGet(es: seq<(string, Value)>, j: nat, k: string)
    requires j < |es|
    ensures Get(es[j..], k) == if k == es[j].0 then Some(es[j].1) else Get(es[j + 1..], k)
  {
    assert es[j..][1..] == es[j + 1..];
    GetCons(es[j..], k);
  }

  /** The keys of a merged dict: the target's keys in their order, then the
      incoming-only keys in incoming order. */
  lemma {:induction false} MergeDictFromKeys(acc: seq<(string, Value)>, incoming: Value, j: nat, listExtend: bool)
    requires incoming.Map? && j <= |incoming.entries| && Valid(incoming.entries)
    ensures Keys(MergeDictFrom(acc, incoming, j, listExtend)) == Keys(acc) + AppendedKeys(Keys(acc), incoming.entries[j..])
    decreases |incoming.entries| - j
  {
    var es := incoming.entries;
    if j == |es| {
      assert es[j..] == [];
    } else {
      var acc' := DictStep(acc, es[j], listExtend);
      MergeDictFromStep(acc, es, j, listExtend);
      MergeDictFromKeys(acc', incoming, j + 1, listExtend);
      DictStepKeys(acc, es[j], listExtend);
      AppendedKeysStep(Keys(acc), es, j);
    }
  }

  /** One pair of the incoming dict adds its key to the key list unless the
      key is there already. */
  lemma AppendedKeysStep(ks: seq<string>, es: seq<(string, Value)>, j: nat)
    requires Valid(es) && j < |es|
    ensures var k := es[j].0;
      var ks' := if k in ks then ks else ks + [k];
      ks' + AppendedKeys(ks', es[j + 1..]) == ks + AppendedKeys(ks, es[j..])
  {
    var k := es[j].0;
    var rest := AppendedKeys(ks, es[j + 1..]);
    SuffixKeys(es, j);
    assert AppendedKeys(ks, es[j..]) == (if k in ks then [] else [k]) + rest;
    if k !in ks {
      AppendedKeysIgnore(ks, k, es[j + 1..]);
      assert ks + ([k] + rest) == (ks + [k]) + rest;
    } else {
      assert [] + rest == rest;
    }
  }

  lemma DictStepKeys(acc: seq<(string, Value)>, e: (string, Value), listExtend: bool)
    ensures Keys(DictStep(acc, e, listExtend)) == if e.0 in Keys(acc) then Keys(acc) else Keys(acc) + [e.0]
  {
  }

  /** The value a merged dict holds for a key, from the target's value and
      the incoming value for that key. */
  function MergedEntry(target: Option<Value>, incoming: Option<Value>, listExtend: bool): Option<Value> {
    match incoming
    case None => target
    case Some(v) =>
      match target
      case None => Some(v)
      case Some(t) => Some(Merge(Existing(t), v, listExtend))
  }

  lemma DictStepGet(acc: seq<(string, Value)>, e: (string, Value), listExtend: bool, k: string)
    ensures Get(DictStep(acc, e, listExtend), k)
         == if k == e.0 then MergedEntry(Get(acc, k), Some(e.1), listExtend) else Get(acc, k)
  {
    var acc' := DictStep(acc, e, listExtend);
    GetPut(acc, e.0, Get(acc', e.0).value, k);
  }

  lemma {:induction false} MergeDictFromGet(acc: seq<(string, Value)>, incoming: Value, j: nat, listExtend: bool, k: string)
    requires incoming.Map? && j <= |incoming.entries| && Valid(incoming.entries)
    ensures Get(MergeDictFrom(acc, incoming, j, listExtend), k)
         == MergedEntry(Get(acc, k), Get(incoming.entries[j..], k), listExtend)
    decreases |incoming.entries| - j
  {
    var es := incoming.entries;
    if j < |es| {
      var acc' := DictStep(acc, es[j], listExtend);
      MergeDictFromGet(acc', incoming, j + 1, listExtend, k);
      SuffixKeys(es, j);
      SuffixGet(es, j, k);
      DictStepGet(acc, es[j], listExtend, k);
    } else {
      assert es[j..] == [];
    }
  }

  /** `_dictionaries_merge` on two dicts: every target key keeps its place;
      a key only in the target keeps its value, a key only in the incoming
      dict is appended with its value, and a shared key holds the recursive
      merge of its two values. */
  lemma DictMerge(te: seq<(string, Value)>, ie: seq<(string, Value)>, listExtend: bool, k: string)
    requires Valid(ie)
    ensures Merge(Existing(Map(te)), Map(ie), listExtend) == Map(MergeDictFrom(te, Map(ie), 0, listExtend))
    ensures Keys(MergeDictFrom(te, Map(ie), 0, listExtend)) == Keys(te) + AppendedKeys(Keys(te), ie)
    ensures Get(MergeDictFrom(te, Map(ie), 0, listExtend), k) == MergedEntry(Get(te, k), Get(ie, k), listExtend)
  {
    assert !TakesIncoming(Existing(Map(te)), Map(ie));
    assert ie[0..] == ie;
    MergeDictFromKeys(te, Map(ie), 0, listExtend);
    MergeDictFromGet(te, Map(ie), 0, listExtend, k);
  }

  lemma ObjectStepKeys(acc: seq<(string, Value)>, e: (string, Value), listExtend: bool)
    ensures Keys(ObjectStep(acc, e, listExtend)) == Keys(acc)
  {
  }

  /** An object merge never adds or removes a field. */
  lemma {:induction false} MergeObjectFromKeys(acc: seq<(string, Value)>, incoming: Value, j: nat, listExtend: bool)
    requires incoming.Obj? && j <= |incoming.fields|
    ensures Keys(MergeObjectFrom(acc, incoming, j, listExtend)) == Keys(acc)
    decreases |incoming.fields| - j
  {
    if j < |incoming.fields| {
      ObjectStepKeys(acc, incoming.fields[j], listExtend);
      MergeObjectFromKeys(ObjectStep(acc, incoming.fields[j], listExtend), incoming, j + 1, listExtend);
    }
  }

  /** The value an object merge leaves in a field, from the target's field
      and the incoming object's field. */
  function MergedField(target: Option<Value>, incoming: Option<Value>, listExtend: bool): Option<Value> {
    match (target, incoming)
    case (Some(t), Some(v)) => if v.Null? then Some(t) else Some(Merge(Existing(t), v, listExtend))
    case _ => target
  }

  lemma ObjectStepGet(acc: seq<(string, Value)>, e: (string, Value), listExtend: bool, k: string)
    ensures Get(ObjectStep(acc, e, listExtend), k)
         == if k == e.0 then MergedField(Get(acc, k), Some(e.1), listExtend) else Get(acc, k)
  {
    if e.0 in Keys(acc) {
      var acc' := ObjectStep(acc, e, listExtend);
      GetPut(acc, e.0, Get(acc', e.0).value, k);
    }
  }

  lemma {:induction false} MergeObjectFromGet(acc: seq<(string, Value)>, incoming: Value, j: nat, listExtend: bool, k: string)
    requires incoming.Obj? && j <= |incoming.fields| && Valid(incoming.fields)
    ensures Get(MergeObjectFrom(acc, incoming, j, listExtend), k)
         == MergedField(Get(acc, k), Get(incoming.fields[j..], k), listExtend)
    decreases |incoming.fields| - j
  {
    var es := incoming.fields;
    if j < |es| {
      var acc' := ObjectStep(acc, es[j], listExtend);
      MergeObjectFromGet(acc', incoming, j + 1, listExtend, k);
      SuffixKeys(es, j);
      SuffixGet(es, j, k);
      ObjectStepGet(acc, es[j], listExtend, k);
    } else {
      assert es[j..] == [];
    }
  }

  /** `_objects_merge` on two objects of one class: the fields are the
      target's, in their order; a field the incoming object also has holds
      the recursive merge of the two, except that an incoming `None` keeps
      the old value; every other field is unchanged, and incoming-only
      fields are dropped. */
  lemma ObjectMerge(cls: string, tf: seq<(string, Value)>, inf: seq<(string, Value)>, listExtend: bool, k: string)
    requires Valid(inf)
    ensures Merge(Existing(Obj(cls, tf)), Obj(cls, inf), listExtend) == Obj(cls, MergeObjectFrom(tf, Obj(cls, inf), 0, listExtend))
    ensures Keys(MergeObjectFrom(tf, Obj(cls, inf), 0, listExtend)) == Keys(tf)
    ensures Get(MergeObjectFrom(tf, Obj(cls, inf), 0, listExtend), k) == MergedField(Get(tf, k), Get(inf, k), listExtend)
  {
    assert !TakesIncoming(Existing(Obj(cls, tf)), Obj(cls, inf));
    assert Obj(cls, inf).fields[0..] == inf;
    MergeObjectFromKeys(tf, Obj(cls, inf), 0, listExtend);
    MergeObjectFromGet(tf, Obj(cls, inf), 0, listExtend, k);
  }

  /** Lists and tuples of one kind: with `list_extend` the result is the
      target followed by the incoming items, otherwise the incoming value. */
  lemma SequenceMerge(isTuple: bool, ti: seq<Value>, ii: seq<Value>, listExtend: bool)
    ensures Merge(Existing(Seq(isTuple, ti)), Seq(isTuple, ii), listExtend)
         == if listExtend then Seq(isTuple, ti + ii) else Seq(isTuple, ii)
  {
  }

  /** A list merged with a tuple (or the other way round) is replaced, even
      with `list_extend`. */
  lemma ListTupleReplaced(ti: seq<Value>, ii: seq<Value>, isTuple: bool, listExtend: bool)
    ensures Merge(Existing(Seq(!isTuple, ti)), Seq(isTuple, ii), listExtend) == Seq(isTuple, ii)
  {
  }
}
