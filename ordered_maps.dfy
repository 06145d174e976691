/** Python's insertion-ordered `dict`, as a sequence of (key, value) pairs.
    Assigning `d[k] = v` replaces the value in place when `k` is present and
    appends the pair otherwise; `del d[k]` drops the pair. */
module OrderedMaps {
  import opened Values

  function Keys<K, V>(m: seq<(K, V)>): (ks: seq<K>)
    ensures |ks| == |m|
    ensures forall i :: 0 <= i < |m| ==> ks[i] == m[i].0
  {
    seq(|m|, i requires 0 <= i < |m| => m[i].0)
  }

  /** Appending a pair appends its key. */
  lemma KeysSnoc<K, V>(m: seq<(K, V)>, p: (K, V))
    ensures Keys(m + [p]) == Keys(m) + [p.0]
  {
  }

  predicate Distinct<K(==)>(ks: seq<K>) {
    forall i, j :: 0 <= i < j < |ks| ==> ks[i] != ks[j]
  }

  /** A well-formed dict: no key twice. */
  predicate Valid<K(==), V>(m: seq<(K, V)>) {
    Distinct(Keys(m))
  }

  /** The position of `k`: the first pair whose key is `k`. */
  function IndexOf<K(==), V>(m: seq<(K, V)>, k: K): (i: nat)
    requires k in Keys(m)
    ensures i < |m| && m[i].0 == k
    ensures forall j :: 0 <= j < i ==> m[j].0 != k
  {
    if m[0].0 == k then 0
    else
      assert Keys(m) == [m[0].0] + Keys(m[1..]);
      1 + IndexOf(m[1..], k)
  }

  /** The position of a key depends only on the key sequence. */
  lemma IndexOfByKeys<K, V>(m1: seq<(K, V)>, m2: seq<(K, V)>, k: K)
    requires Keys(m1) == Keys(m2) && k in Keys(m1)
    ensures IndexOf(m1, k) == IndexOf(m2, k)
  {
    var a, b := IndexOf(m1, k), IndexOf(m2, k);
    assert Keys(m1)[a] == k && Keys(m2)[b] == k;
  }

  /** `d.get(k)`, with absence as `None`. */
  function Get<K(==), V>(m: seq<(K, V)>, k: K): (r: Option<V>)
    ensures r.Some? <==> k in Keys(m)
    ensures r.Some? ==> (k, r.value) in m
  {
    if k in Keys(m) then Some(m[IndexOf(m, k)].1) else None
  }

  /** Looking a key up is looking at the first pair, then at the rest. */
  lemma GetCons<K, V>(m: seq<(K, V)>, k: K)
    requires |m| > 0
    ensures Get(m, k) == if k == m[0].0 then Some(m[0].1) else Get(m[1..], k)
  {
    assert Keys(m) == [m[0].0] + Keys(m[1..]);
    if k != m[0].0 && k in Keys(m) {
      assert m[IndexOf(m, k)] == m[1..][IndexOf(m[1..], k)];
    }
  }

  /** `d.get(k, default)`. */
  function GetOr<K(==), V>(m: seq<(K, V)>, k: K, default: V): (r: V)
    ensures k !in Keys(m) ==> r == default
    ensures k in Keys(m) ==> Some(r) == Get(m, k)
  {
    match Get(m, k)
    case Some(v) => v
    case None => default
  }

  lemma GetAt<K, V>(m: seq<(K, V)>, i: nat)
    requires Valid(m) && i < |m|
    ensures Get(m, m[i].0) == Some(m[i].1)
  {
    var j := IndexOf(m, m[i].0);
    assert Keys(m)[i] == Keys(m)[j];
  }

  /** `d[k] = v`. */
  function Put<K(==), V>(m: seq<(K, V)>, k: K, v: V): (r: seq<(K, V)>)
    ensures Keys(r) == if k in Keys(m) then Keys(m) else Keys(m) + [k]
    ensures k !in Keys(m) ==> r == m + [(k, v)]
    ensures k in Keys(m) ==> |r| == |m|
    ensures forall i :: 0 <= i < |m| && m[i].0 != k ==> r[i] == m[i]
    ensures Get(r, k) == Some(v)
    ensures Valid(m) ==> Valid(r)
  {
    if k in Keys(m) then
      var r := m[IndexOf(m, k) := (k, v)];
      assert Keys(r) == Keys(m);
      IndexOfByKeys(r, m, k);
      r
    else
      var r := m + [(k, v)];
      assert Keys(r) == Keys(m) + [k];
      r
  }

  lemma GetPut<K, V>(m: seq<(K, V)>, k: K, v: V, k': K)
    ensures Get(Put(m, k, v), k') == if k' == k then Some(v) else Get(m, k')
  {
    var r := Put(m, k, v);
    if k' != k && k' in Keys(m) {
      if k in Keys(m) {
        IndexOfByKeys(r, m, k');
      } else {
        var i := IndexOf(m, k');
        var j := IndexOf(r, k');
        assert Keys(r)[i] == k';
      }
    }
  }

  /** `del d[k]` on a present key (and the identity on an absent one). */
  function Remove<K(==), V>(m: seq<(K, V)>, k: K): (r: seq<(K, V)>)
    ensures k !in Keys(m) ==> r == m
    ensures k in Keys(m) ==> Keys(r) == Keys(m)[..IndexOf(m, k)] + Keys(m)[IndexOf(m, k) + 1..]
    ensures Valid(m) ==> Valid(r) && k !in Keys(r)
  {
    if k in Keys(m) then
      var i := IndexOf(m, k);
      var r := m[..i] + m[i + 1..];
      assert Keys(r) == Keys(m)[..i] + Keys(m)[i + 1..];
      assert Valid(m) ==> Valid(r) by {
        if Valid(m) {
          forall a, b | 0 <= a < b < |r| ensures Keys(r)[a] != Keys(r)[b] {
            var a' := if a < i then a else a + 1;
            var b' := if b < i then b else b + 1;
            assert Keys(r)[a] == Keys(m)[a'] && Keys(r)[b] == Keys(m)[b'];
          }
        }
      }
      r
    else m
  }

  lemma GetRemove<K, V>(m: seq<(K, V)>, k: K, k': K)
    requires Valid(m) && k' != k
    ensures Get(Remove(m, k), k') == Get(m, k')
  {
    var r := Remove(m, k);
    if k in Keys(m) {
      var i := IndexOf(m, k);
      if k' in Keys(m) {
        var j := IndexOf(m, k');
        var j' := if j < i then j else j - 1;
        assert r[j'] == m[j];
        GetAt(r, j');
        GetAt(m, j);
      } else {
        assert forall x :: 0 <= x < |r| ==> r[x] in m;
      }
    }
  }

  /** Writing pairs into a dict one after another, as `d[k] = v` in a loop
      and `dict(pairs)` do. */
  function PutAll<K(==), V>(m: seq<(K, V)>, ps: seq<(K, V)>): seq<(K, V)>
    decreases |ps|
  {
    if ps == [] then m else PutAll(Put(m, ps[0].0, ps[0].1), ps[1..])
  }

  lemma {:induction false} PutAllSnoc<K, V>(m: seq<(K, V)>, ps: seq<(K, V)>, p: (K, V))
    ensures PutAll(m, ps + [p]) == Put(PutAll(m, ps), p.0, p.1)
    decreases |ps|
  {
    if ps != [] {
      assert (ps + [p])[1..] == ps[1..] + [p];
      PutAllSnoc(Put(m, ps[0].0, ps[0].1), ps[1..], p);
    } else {
      assert ps + [p] == [p];
    }
  }

  /** The value of the last pair with key `k`. */
  function LastValue<K(==), V>(ps: seq<(K, V)>, k: K): V
    requires k in Keys(ps)
  {
    var n := |ps| - 1;
    if ps[n].0 == k then ps[n].1
    else
      assert Keys(ps) == Keys(ps[..n]) + [ps[n].0];
      LastValue(ps[..n], k)
  }

  /** After writing the pairs `ps`, a key holds its last value in `ps`, or
      what it held before when `ps` does not mention it. */
  lemma {:induction false} GetPutAll<K, V>(m: seq<(K, V)>, ps: seq<(K, V)>, k: K)
    ensures Get(PutAll(m, ps), k) == if k in Keys(ps) then Some(LastValue(ps, k)) else Get(m, k)
    decreases |ps|
  {
    if ps != [] {
      var n := |ps| - 1;
      assert ps == ps[..n] + [ps[n]];
      assert Keys(ps) == Keys(ps[..n]) + [ps[n].0];
      PutAllSnoc(m, ps[..n], ps[n]);
      GetPut(PutAll(m, ps[..n]), ps[n].0, ps[n].1, k);
      GetPutAll(m, ps[..n], k);
    }
  }

  /** Writing keeps a dict well formed. */
  lemma {:induction false} PutAllValid<K, V>(m: seq<(K, V)>, ps: seq<(K, V)>)
    requires Valid(m)
    ensures Valid(PutAll(m, ps))
    decreases |ps|
  {
    if ps != [] {
      PutAllValid(Put(m, ps[0].0, ps[0].1), ps[1..]);
    }
  }

  /** Writing only keys already present leaves the key order as it was. */
  lemma {:induction false} PutAllExistingKeys<K, V>(m: seq<(K, V)>, ps: seq<(K, V)>)
    requires forall i :: 0 <= i < |ps| ==> ps[i].0 in Keys(m)
    ensures Keys(PutAll(m, ps)) == Keys(m)
    decreases |ps|
  {
    if ps != [] {
      var m' := Put(m, ps[0].0, ps[0].1);
      assert Keys(m') == Keys(m);
      forall i | 0 <= i < |ps[1..]| ensures ps[1..][i].0 in Keys(m') {
        assert ps[1..][i] == ps[i + 1];
      }
      PutAllExistingKeys(m', ps[1..]);
    }
  }

  /** In a well-formed dict the last value of a key is its value. */
  lemma {:induction false} LastValueValid<K, V>(m: seq<(K, V)>, k: K)
    requires Valid(m) && k in Keys(m)
    ensures Get(m, k) == Some(LastValue(m, k))
    decreases |m|
  {
    var n := |m| - 1;
    if m[n].0 == k {
      GetAt(m, n);
    } else {
      var init := m[..n];
      assert Keys(m) == Keys(init) + [m[n].0];
      assert Valid(init) by {
        forall a, b | 0 <= a < b < |init| ensures Keys(init)[a] != Keys(init)[b] {
          assert Keys(init)[a] == Keys(m)[a] && Keys(init)[b] == Keys(m)[b];
        }
      }
      LastValueValid(init, k);
      var i := IndexOf(init, k);
      GetAt(init, i);
      assert init[i] == m[i];
      GetAt(m, i);
    }
  }
}
