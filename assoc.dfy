/** Python dicts with string keys, as insertion-ordered association lists.
    A dict built by Python never holds a key twice; every operation here keeps that so. */
module Assoc {
  import opened Wrappers

  type Dict<V> = seq<(string, V)>

  /** The keys in iteration (insertion) order. */
  function Keys<V>(d: Dict<V>): (ks: seq<string>)
    ensures |ks| == |d|
  {
    seq(|d|, i requires 0 <= i < |d| => d[i].0)
  }

  /** The keys of a non-empty dict: its first key, then the keys of the rest. */
  lemma KeysCons<V>(d: Dict<V>)
    requires d != []
    ensures Keys(d) == [d[0].0] + Keys(d[1..])
  {
    assert forall i :: 0 < i < |d| ==> Keys(d)[i] == Keys(d[1..])[i - 1];
  }

  predicate Has<V>(d: Dict<V>, k: string)
  {
    k in Keys(d)
  }

  /** No key occurs twice, as in every Python dict. */
  predicate UniqueKeys<V>(d: Dict<V>)
  {
    forall i, j :: 0 <= i < j < |d| ==> d[i].0 != d[j].0
  }

  /** `d.get(k)`: the value stored under `k` (the first such entry), or None. */
  function Get<V>(d: Dict<V>, k: string): (r: Option<V>)
    ensures r.None? <==> !Has(d, k)
  {
    if d == [] then None
    else KeysCons(d); if d[0].0 == k then Some(d[0].1)
    else Get(d[1..], k)
  }

  /** `d.pop(k)` without the popped value: every entry under `k` goes, the rest keep their order. */
  function Remove<V>(d: Dict<V>, k: string): (r: Dict<V>)
    ensures !Has(r, k)
    ensures forall j :: j != k ==> Get(r, j) == Get(d, j)
    ensures |r| <= |d|
  {
    if d == [] then []
    else if d[0].0 == k then KeysCons(d); Remove(d[1..], k)
    else
      var r := [d[0]] + Remove(d[1..], k);
      KeysCons(d);
      KeysCons(r);
      assert r[1..] == Remove(d[1..], k);
      r
  }

  /** Every entry under `k` gets the value `v`, in place. */
  function Replace<V>(d: Dict<V>, k: string, v: V): (r: Dict<V>)
    ensures Keys(r) == Keys(d)
    ensures forall j :: j != k ==> Get(r, j) == Get(d, j)
    ensures Has(d, k) ==> Get(r, k) == Some(v)
  {
    if d == [] then []
    else
      var r := [if d[0].0 == k then (k, v) else d[0]] + Replace(d[1..], k, v);
      KeysCons(d);
      KeysCons(r);
      assert r[1..] == Replace(d[1..], k, v);
      r
  }

  /** `d[k] = v`: an existing key keeps its position, a new key goes last. */
  function Put<V>(d: Dict<V>, k: string, v: V): (r: Dict<V>)
    ensures Get(r, k) == Some(v)
    ensures forall j :: j != k ==> Get(r, j) == Get(d, j)
    ensures Keys(r) == if Has(d, k) then Keys(d) else Keys(d) + [k]
  {
    if Has(d, k) then Replace(d, k, v) else AppendNew(d, k, v)
  }

  function AppendNew<V>(d: Dict<V>, k: string, v: V): (r: Dict<V>)
    requires !Has(d, k)
    ensures Get(r, k) == Some(v)
    ensures forall j :: j != k ==> Get(r, j) == Get(d, j)
    ensures Keys(r) == Keys(d) + [k]
  {
    if d == [] then [(k, v)]
    else
      KeysCons(d);
      var rest := AppendNew(d[1..], k, v);
      var r := [d[0]] + rest;
      assert r[1..] == rest;
      assert Keys(r) == [d[0].0] + Keys(rest);
      r
  }

  lemma {:induction false} GetFindsEntry<V>(d: Dict<V>, k: string)
    requires Has(d, k)
    ensures exists i :: 0 <= i < |d| && d[i].0 == k && Get(d, k) == Some(d[i].1)
  {
    if d[0].0 != k {
      assert Keys(d) == [d[0].0] + Keys(d[1..]);
      GetFindsEntry(d[1..], k);
      var i :| 0 <= i < |d[1..]| && d[1..][i].0 == k && Get(d[1..], k) == Some(d[1..][i].1);
      assert d[i + 1] == d[1..][i];
    }
  }

  /** Assignment keeps a dict free of repeated keys. */
  lemma {:induction false} PutKeepsUniqueKeys<V>(d: Dict<V>, k: string, v: V)
    requires UniqueKeys(d)
    ensures UniqueKeys(Put(d, k, v))
  {
    var r := Put(d, k, v);
    var ks := Keys(r);
    forall i, j | 0 <= i < j < |r| ensures r[i].0 != r[j].0 {
      assert ks[i] == r[i].0 && ks[j] == r[j].0;
      if Has(d, k) {
        assert Keys(d)[i] == d[i].0 && Keys(d)[j] == d[j].0;
      } else if j < |d| {
        assert Keys(d)[i] == d[i].0 && Keys(d)[j] == d[j].0;
      } else {
        assert ks[j] == k && Keys(d)[i] == d[i].0;
        assert d[i].0 in Keys(d);
      }
    }
  }
}
