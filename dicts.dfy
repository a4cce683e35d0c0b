/** Python dicts, which remember insertion order, as sequences of entries.
    `Get` reads the first entry with a key, `Put` overwrites that entry where it stands or
    appends a new one at the end (`d[k] = v`), and `Remove` drops the key (`del d[k]`). */
module Dicts {
  import opened Outcomes

  type Dict<V> = seq<(string, V)>

  function Keys<V>(d: Dict<V>): seq<string> {
    seq(|d|, i requires 0 <= i < |d| => d[i].0)
  }

  /** Python dicts never hold a key twice. */
  predicate Distinct<V>(d: Dict<V>) {
    forall i, j :: 0 <= i < j < |d| ==> d[i].0 != d[j].0
  }

  /** `d.get(k)`, with None for a missing key. */
  function Get<V>(d: Dict<V>, k: string): (r: Option<V>)
    ensures r.Some? <==> k in Keys(d)
    ensures r.Some? ==> (k, r.value) in d
  {
    if d == [] then None
    else
      assert Keys(d) == [d[0].0] + Keys(d[1..]);
      if d[0].0 == k then Some(d[0].1) else Get(d[1..], k)
  }

  /** `d.get(k, default)`. */
  function GetOr<V>(d: Dict<V>, k: string, default: V): V {
    Get(d, k).GetOr(default)
  }

  /** `d[k] = v`: an existing key keeps its position, a new key goes to the end. */
  function Put<V>(d: Dict<V>, k: string, v: V): (r: Dict<V>)
    ensures Keys(r) == if k in Keys(d) then Keys(d) else Keys(d) + [k]
    ensures Get(r, k) == Some(v)
    ensures forall k' :: k' != k ==> Get(r, k') == Get(d, k')
  {
    PutEntryKeys(d, k, v);
    PutEntryGet(d, k, v);
    PutEntry(d, k, v)
  }

  /** The entry walk behind `Put`. */
  function PutEntry<V>(d: Dict<V>, k: string, v: V): Dict<V> {
    if d == [] then [(k, v)]
    else if d[0].0 == k then [(k, v)] + d[1..]
    else [d[0]] + PutEntry(d[1..], k, v)
  }

  lemma {:induction false} PutEntryKeys<V>(d: Dict<V>, k: string, v: V)
    ensures Keys(PutEntry(d, k, v)) == if k in Keys(d) then Keys(d) else Keys(d) + [k]
  {
    if d != [] {
      KeysCons(d[0], d[1..]);
      assert [d[0]] + d[1..] == d;
      if d[0].0 == k {
        KeysCons((k, v), d[1..]);
      } else {
        PutEntryKeys(d[1..], k, v);
        KeysCons(d[0], PutEntry(d[1..], k, v));
        ConcatAssoc([k], Keys(d[1..]), [k]);
        ConcatAssoc([d[0].0], Keys(d[1..]), [k]);
      }
    }
  }

  lemma KeysCons<V>(e: (string, V), d: Dict<V>)
    ensures Keys([e] + d) == [e.0] + Keys(d)
  {
    assert forall i :: 0 <= i < |d| ==> ([e] + d)[i + 1] == d[i];
  }

  lemma ConcatAssoc<T>(a: seq<T>, b: seq<T>, c: seq<T>)
    ensures a + b + c == a + (b + c)
  {
  }

  lemma {:induction false} PutEntryGet<V>(d: Dict<V>, k: string, v: V)
    ensures Get(PutEntry(d, k, v), k) == Some(v)
    ensures forall k' :: k' != k ==> Get(PutEntry(d, k, v), k') == Get(d, k')
  {
    if d != [] {
      if d[0].0 == k {
        var r := [(k, v)] + d[1..];
        assert r[1..] == d[1..];
      } else {
        PutEntryGet(d[1..], k, v);
        var r := [d[0]] + PutEntry(d[1..], k, v);
        assert r[0] == d[0] && r[1..] == PutEntry(d[1..], k, v);
      }
    }
  }

  /** `del d[k]` when `k` is present; every entry with another key stays, in order. */
  function Remove<V>(d: Dict<V>, k: string): (r: Dict<V>)
    ensures Keys(r) == RemoveKey(Keys(d), k)
    ensures Get(r, k) == None
    ensures forall k' :: k' != k ==> Get(r, k') == Get(d, k')
  {
    if d == [] then []
    else
      assert Keys(d) == [d[0].0] + Keys(d[1..]);
      var rest := Remove(d[1..], k);
      if d[0].0 == k then rest
      else
        var r := [d[0]] + rest;
        assert Keys(r) == [d[0].0] + Keys(rest);
        r
  }

  /** The key sequence with every occurrence of `k` dropped. */
  function RemoveKey(ks: seq<string>, k: string): seq<string> {
    if ks == [] then []
    else if ks[0] == k then RemoveKey(ks[1..], k)
    else [ks[0]] + RemoveKey(ks[1..], k)
  }

  lemma {:induction false} PutPreservesDistinct<V>(d: Dict<V>, k: string, v: V)
    requires Distinct(d)
    ensures Distinct(Put(d, k, v))
  {
    var r := Put(d, k, v);
    forall i, j | 0 <= i < j < |r| ensures r[i].0 != r[j].0 {
      assert Keys(r)[i] == r[i].0 && Keys(r)[j] == r[j].0;
      if k in Keys(d) {
        assert Keys(d)[i] == d[i].0 && Keys(d)[j] == d[j].0;
      } else if j < |d| {
        assert Keys(d)[i] == d[i].0 && Keys(d)[j] == d[j].0;
      } else {
        assert Keys(d)[i] == d[i].0;
      }
    }
  }

  /** A key that is not yet present goes to the end, after every existing entry. */
  lemma {:induction false} PutNew<V>(d: Dict<V>, k: string, v: V)
    requires k !in Keys(d)
    ensures Put(d, k, v) == d + [(k, v)]
  {
    if d != [] {
      assert Keys(d) == [d[0].0] + Keys(d[1..]);
      PutNew(d[1..], k, v);
      assert [d[0]] + (d[1..] + [(k, v)]) == d + [(k, v)];
    }
  }

  /** Writing a key twice keeps only the second value (last write wins). */
  lemma {:induction false} PutPut<V>(d: Dict<V>, k: string, a: V, b: V)
    ensures Put(Put(d, k, a), k, b) == Put(d, k, b)
  {
    if d != [] && d[0].0 != k {
      PutPut(d[1..], k, a, b);
    }
  }

  /** Writing back the value a key already holds leaves the dict as it was. */
  lemma {:induction false} PutCurrent<V>(d: Dict<V>, k: string, v: V)
    requires Get(d, k) == Some(v)
    ensures Put(d, k, v) == d
  {
    if d[0].0 != k {
      PutCurrent(d[1..], k, v);
    }
  }

  /** Overwriting two different keys that are both present gives the same dict in either order. */
  lemma {:induction false} PutCommutes<V>(d: Dict<V>, k1: string, a: V, k2: string, b: V)
    requires k1 != k2 && k1 in Keys(d) && k2 in Keys(d)
    ensures Put(Put(d, k1, a), k2, b) == Put(Put(d, k2, b), k1, a)
  {
    assert Keys(d) == [d[0].0] + Keys(d[1..]);
    if d[0].0 != k1 && d[0].0 != k2 {
      PutCommutes(d[1..], k1, a, k2, b);
    }
  }

  /** In a dict without repeated keys, every entry is what `Get` finds for its key. */
  lemma {:induction false} DistinctGet<V>(d: Dict<V>, i: nat)
    requires Distinct(d) && i < |d|
    ensures Get(d, d[i].0) == Some(d[i].1)
    decreases i
  {
    assert Keys(d) == [d[0].0] + Keys(d[1..]);
    if i > 0 {
      assert d[1..][i - 1] == d[i];
      DistinctGet(d[1..], i - 1);
    }
  }

  /** Two dicts with the same keys in the same order, no repeated key, and the same value at
      every key are the same dict. */
  lemma DictExtensional<V>(a: Dict<V>, b: Dict<V>)
    requires Distinct(a) && Keys(a) == Keys(b)
    requires forall k :: Get(a, k) == Get(b, k)
    ensures a == b
  {
    assert |a| == |Keys(a)| == |Keys(b)| == |b|;
    forall i | 0 <= i < |a| ensures a[i] == b[i] {
      assert a[i].0 == Keys(a)[i] == Keys(b)[i] == b[i].0;
      assert Distinct(b) by {
        forall x, y | 0 <= x < y < |b| ensures b[x].0 != b[y].0 {
          assert b[x].0 == Keys(b)[x] == Keys(a)[x] == a[x].0;
          assert b[y].0 == Keys(b)[y] == Keys(a)[y] == a[y].0;
        }
      }
      DistinctGet(a, i);
      DistinctGet(b, i);
    }
  }

  /** Writing the only key of a one-entry dict. */
  lemma PutOnly<V>(k: string, a: V, b: V)
    ensures Put([(k, a)], k, b) == [(k, b)]
  {
    assert [(k, a)][1..] == [];
  }

  /** Reading and writing the second key of a two-entry dict. */
  lemma PutSecond<V>(k1: string, a1: V, k2: string, a2: V, b: V)
    requires k1 != k2
    ensures Get([(k1, a1), (k2, a2)], k1) == Some(a1)
    ensures Get([(k1, a1), (k2, a2)], k2) == Some(a2)
    ensures Put([(k1, a1), (k2, a2)], k2, b) == [(k1, a1), (k2, b)]
  {
    var d := [(k1, a1), (k2, a2)];
    assert d[1..] == [(k2, a2)] && d[1..][1..] == [];
    PutOnly(k2, a2, b);
    assert [(k1, a1)] + [(k2, b)] == [(k1, a1), (k2, b)];
  }
}
