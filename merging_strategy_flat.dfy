/** The flat merging strategy: the incoming value replaces the stored one,
    except that with `none_considered_empty` an incoming `None` keeps an
    existing value. */
module MergingStrategyFlat {
  import opened Values

  /** `MergingStrategyFlat.merge`; the key takes no part in the decision. */
  function Merge(key: string, target: Target, incoming: Value, noneConsideredEmpty: bool): (r: Value)
    ensures target.NotExisting? ==> r == incoming
    ensures !noneConsideredEmpty ==> r == incoming
    ensures !incoming.Null? ==> r == incoming
    ensures target.Existing? && noneConsideredEmpty && incoming.Null? ==> r == target.value
  {
    if target.Existing? && noneConsideredEmpty && incoming.Null? then target.value else incoming
  }

  /** The value a key ends with after the values `vs` are merged into it one
      after another. */
  function MergeAll(key: string, target: Target, vs: seq<Value>, noneConsideredEmpty: bool): Target
    decreases |vs|
  {
    if vs == [] then target
    else MergeAll(key, Existing(Merge(key, target, vs[0], noneConsideredEmpty)), vs[1..], noneConsideredEmpty)
  }

  /** The last value that is not `None`, if any. */
  function LastNonNull(vs: seq<Value>): Option<Value> {
    if vs == [] then None
    else if !vs[|vs| - 1].Null? then Some(vs[|vs| - 1])
    else LastNonNull(vs[..|vs| - 1])
  }

  /** Last write wins: without `none_considered_empty` the last value is
      kept, whatever it is. */
  lemma {:induction false} LastWriteWins(key: string, target: Target, vs: seq<Value>)
    requires vs != []
    ensures MergeAll(key, target, vs, false) == Existing(vs[|vs| - 1])
    decreases |vs|
  {
    if |vs| > 1 {
      LastWriteWins(key, Existing(Merge(key, target, vs[0], false)), vs[1..]);
    }
  }

  /** With `none_considered_empty`, the last value that is not `None` is
      kept; if every value is `None`, an existing value survives and an
      absent key ends as `None`. */
  lemma {:induction false} LastNonNullWins(key: string, target: Target, vs: seq<Value>)
    ensures LastNonNull(vs).Some? ==> MergeAll(key, target, vs, true) == Existing(LastNonNull(vs).value)
    ensures LastNonNull(vs).None? && target.Existing? ==> MergeAll(key, target, vs, true) == target
    ensures LastNonNull(vs).None? && target.NotExisting? && vs != [] ==> MergeAll(key, target, vs, true) == Existing(Null)
    decreases |vs|
  {
    if vs != [] {
      var t' := Existing(Merge(key, target, vs[0], true));
      LastNonNullWins(key, t', vs[1..]);
      LastNonNullSplit(vs);
    }
  }

  /** `LastNonNull` read from the front: the tail decides unless it holds
      no value other than `None`. */
  lemma {:induction false} LastNonNullSplit(vs: seq<Value>)
    requires vs != []
    ensures LastNonNull(vs) == if LastNonNull(vs[1..]).Some? then LastNonNull(vs[1..])
                               else if vs[0].Null? then None else Some(vs[0])
  {
    if |vs| > 1 {
      var init := vs[..|vs| - 1];
      assert init[1..] == vs[1..][..|vs[1..]| - 1];
      assert init[0] == vs[0];
      if vs[|vs| - 1].Null? {
        LastNonNullSplit(init);
      }
    }
  }
}
