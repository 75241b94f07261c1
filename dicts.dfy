/** Python dictionaries keep their keys in insertion order, and the program
    depends on that order (the first three specifications, the first of
    several equally cheap retailers).  A dictionary is therefore modelled as
    an association list whose keys are pairwise distinct. */
module Dicts {
  import opened Wrappers

  type Dict<K, V> = seq<(K, V)>

  function KeySet<K, V>(d: Dict<K, V>): set<K> {
    if d == [] then {} else {d[0].0} + KeySet(d[1..])
  }

  lemma {:induction false} KeySetIndex<K, V>(d: Dict<K, V>, k: K) returns (i: nat)
    ensures k in KeySet(d) <==> (exists j :: 0 <= j < |d| && d[j].0 == k)
    ensures k in KeySet(d) ==> i < |d| && d[i].0 == k
  {
    i := 0;
    if d != [] {
      var i' := KeySetIndex(d[1..], k);
      if d[0].0 != k {
        i := i' + 1;
        if exists j :: 0 <= j < |d| && d[j].0 == k {
          var j :| 0 <= j < |d| && d[j].0 == k;
          assert d[1..][j - 1].0 == k;
        }
      }
    }
  }

  lemma {:induction false} KeyInSet<K, V>(d: Dict<K, V>, i: nat)
    requires i < |d|
    ensures d[i].0 in KeySet(d)
  {
    if i > 0 {
      KeyInSet(d[1..], i - 1);
    }
  }

  /** No key occurs twice. */
  predicate UniqueKeys<K(==), V>(d: Dict<K, V>) {
    d == [] || (d[0].0 !in KeySet(d[1..]) && UniqueKeys(d[1..]))
  }

  lemma {:induction false} UniqueKeysDistinct<K, V>(d: Dict<K, V>, i: nat, j: nat)
    requires UniqueKeys(d) && i < j < |d|
    ensures d[i].0 != d[j].0
  {
    if i == 0 {
      KeyInSet(d[1..], j - 1);
    } else {
      UniqueKeysDistinct(d[1..], i - 1, j - 1);
    }
  }

  /** `d.get(k)` */
  function Get<K(==), V>(d: Dict<K, V>, k: K): (r: Option<V>)
    ensures r.Some? <==> k in KeySet(d)
  {
    if d == [] then None
    else if d[0].0 == k then Some(d[0].1)
    else
      var r := Get(d[1..], k);
      assert KeySet(d) == {d[0].0} + KeySet(d[1..]);
      r
  }

  /** In a dictionary every entry is what `get` finds for its key. */
  lemma {:induction false} GetEntry<K, V>(d: Dict<K, V>, i: nat)
    requires UniqueKeys(d) && i < |d|
    ensures Get(d, d[i].0) == Some(d[i].1)
  {
    if i > 0 {
      GetEntry(d[1..], i - 1);
      KeyInSet(d[1..], i - 1);
    }
  }

  /** `d[k] = v`: replaces the value in place when `k` is present, appends otherwise. */
  function Put<K(==), V>(d: Dict<K, V>, k: K, v: V): (r: Dict<K, V>)
    ensures KeySet(r) == KeySet(d) + {k}
    ensures |r| == if k in KeySet(d) then |d| else |d| + 1
    ensures forall i :: 0 <= i < |d| ==> r[i].0 == d[i].0
  {
    if d == [] then [(k, v)]
    else if d[0].0 == k then
      assert ([(k, v)] + d[1..])[1..] == d[1..];
      [(k, v)] + d[1..]
    else
      var t := Put(d[1..], k, v);
      assert ([d[0]] + t)[1..] == t;
      [d[0]] + t
  }

  lemma {:induction false} PutGet<K, V>(d: Dict<K, V>, k: K, v: V, k': K)
    ensures Get(Put(d, k, v), k') == if k' == k then Some(v) else Get(d, k')
  {
    if d != [] && d[0].0 != k {
      PutGet(d[1..], k, v, k');
    }
  }

  /** Every entry after `d[k] = v` is the new one or the entry of `d` at
      the same position. */
  lemma {:induction false} PutEntries<K, V>(d: Dict<K, V>, k: K, v: V)
    ensures forall i :: 0 <= i < |Put(d, k, v)| ==> Put(d, k, v)[i] == (k, v) || (i < |d| && Put(d, k, v)[i] == d[i])
  {
    if d != [] && d[0].0 != k {
      PutEntries(d[1..], k, v);
      var t := Put(d[1..], k, v);
      assert Put(d, k, v) == [d[0]] + t;
    }
  }

  lemma {:induction false} PutUnique<K, V>(d: Dict<K, V>, k: K, v: V)
    requires UniqueKeys(d)
    ensures UniqueKeys(Put(d, k, v))
  {
    if d != [] && d[0].0 != k {
      PutUnique(d[1..], k, v);
      var t := Put(d[1..], k, v);
      assert ([d[0]] + t)[1..] == t;
    }
  }

  /** `d.update(e)`, also `{**d, **e}`: the entries of `e` are put one by one, in order. */
  function Update<K(==), V>(d: Dict<K, V>, e: Dict<K, V>): (r: Dict<K, V>)
    ensures KeySet(r) == KeySet(d) + KeySet(e)
    decreases |e|
  {
    if e == [] then d
    else
      assert KeySet(e) == {e[0].0} + KeySet(e[1..]);
      Update(Put(d, e[0].0, e[0].1), e[1..])
  }

  /** After an update the keys are the union of both sides and a key of `e`
      takes its value from `e`. */
  lemma {:induction false} UpdateGet<K, V>(d: Dict<K, V>, e: Dict<K, V>, k: K)
    requires UniqueKeys(e)
    ensures Get(Update(d, e), k) == if k in KeySet(e) then Get(e, k) else Get(d, k)
    decreases |e|
  {
    if e != [] {
      UpdateGet(Put(d, e[0].0, e[0].1), e[1..], k);
      PutGet(d, e[0].0, e[0].1, k);
    }
  }

  lemma {:induction false} UpdateUnique<K, V>(d: Dict<K, V>, e: Dict<K, V>)
    requires UniqueKeys(d)
    ensures UniqueKeys(Update(d, e))
    decreases |e|
  {
    if e != [] {
      PutUnique(d, e[0].0, e[0].1);
      UpdateUnique(Put(d, e[0].0, e[0].1), e[1..]);
    }
  }

  /** An update keeps the keys of `d` where they were. */
  lemma {:induction false} UpdateKeepsOrder<K, V>(d: Dict<K, V>, e: Dict<K, V>)
    ensures |Update(d, e)| >= |d|
    ensures forall i :: 0 <= i < |d| ==> Update(d, e)[i].0 == d[i].0
    decreases |e|
  {
    if e != [] {
      UpdateKeepsOrder(Put(d, e[0].0, e[0].1), e[1..]);
    }
  }

  /** `{k: v for k, v in d.items() if f(k, v)}` */
  function Filter<K(==), V>(d: Dict<K, V>, f: (K, V) -> bool): (r: Dict<K, V>)
    ensures |r| <= |d|
    ensures forall i :: 0 <= i < |r| ==> f(r[i].0, r[i].1)
  {
    if d == [] then []
    else if f(d[0].0, d[0].1) then [d[0]] + Filter(d[1..], f)
    else Filter(d[1..], f)
  }

  /** A filtered dictionary finds exactly the entries of `d` that pass `f`. */
  lemma {:induction false} FilterGet<K, V>(d: Dict<K, V>, f: (K, V) -> bool, k: K)
    requires UniqueKeys(d)
    ensures Get(Filter(d, f), k) ==
      match Get(d, k)
      case Some(v) => if f(k, v) then Some(v) else None
      case None => None
  {
    if d != [] {
      FilterGet(d[1..], f, k);
      if d[0].0 == k {
        FilterKeys(d[1..], f);
      }
    }
  }

  lemma {:induction false} FilterKeys<K, V>(d: Dict<K, V>, f: (K, V) -> bool)
    ensures KeySet(Filter(d, f)) <= KeySet(d)
  {
    if d != [] {
      FilterKeys(d[1..], f);
      assert KeySet(d) == {d[0].0} + KeySet(d[1..]);
      if f(d[0].0, d[0].1) {
        assert ([d[0]] + Filter(d[1..], f))[1..] == Filter(d[1..], f);
      }
    }
  }

  /** The values, in order. */
  function Values<K, V>(d: Dict<K, V>): (vs: seq<V>)
    ensures |vs| == |d| && forall i :: 0 <= i < |d| ==> vs[i] == d[i].1
  {
    seq(|d|, i requires 0 <= i < |d| => d[i].1)
  }
}
