/** Recursive key sorting (gkpo.py `_sorted_obj`). */
module KeySort {
  import opened Wrappers
  import opened JsonValue
  import opened StrOrder
  import opened Sorting

  function Key(p: (string, Json)): string { p.0 }

  /**
   * `_sorted_obj`: every mapping is rebuilt in ascending key order, values
   * sorted recursively; lists keep their order, their elements are sorted.
   */
  function SortedObj(j: Json): Json
    decreases j
  {
    match j
    case Obj(fs) =>
      Obj(SortBy(seq(|fs|, i requires 0 <= i < |fs| => (fs[i].0, SortedObj(fs[i].1))), Key))
    case Arr(xs) => Arr(seq(|xs|, i requires 0 <= i < |xs| => SortedObj(xs[i])))
    case _ => j
  }

  /** The entries of `fs` with their values key-sorted, before reordering. */
  function SortedValues(fs: Fields): (vs: Fields)
    ensures |vs| == |fs|
    ensures forall i :: 0 <= i < |fs| ==> vs[i] == (fs[i].0, SortedObj(fs[i].1))
  {
    seq(|fs|, i requires 0 <= i < |fs| => (fs[i].0, SortedObj(fs[i].1)))
  }

  /** Every mapping at every depth is in ascending (non-strict) key order. */
  predicate KeySorted(j: Json)
    decreases j
  {
    match j
    case Obj(fs) => SortedBy(fs, Key) && forall i :: 0 <= i < |fs| ==> KeySorted(fs[i].1)
    case Arr(xs) => forall i :: 0 <= i < |xs| ==> KeySorted(xs[i])
    case _ => true
  }

  /** Every mapping at every depth has strictly ascending keys. */
  predicate StrictlySorted(j: Json)
    decreases j
  {
    match j
    case Obj(fs) =>
      (forall a, b :: 0 <= a < b < |fs| ==> LexLt(fs[a].0, fs[b].0)) &&
      forall i :: 0 <= i < |fs| ==> StrictlySorted(fs[i].1)
    case Arr(xs) => forall i :: 0 <= i < |xs| ==> StrictlySorted(xs[i])
    case _ => true
  }

  /** `d.get(k)` is the first entry that carries `k`. */
  lemma {:induction false} LookupIsFirstOfFilter(fs: Fields, k: string)
    ensures Lookup(fs, k) == if Filter(fs, Key, k) == [] then None else Some(Filter(fs, Key, k)[0].1)
  {
    if |fs| > 0 {
      LookupIsFirstOfFilter(fs[1..], k);
    }
  }

  /** Sorting the entries of a mapping by key does not change any lookup. */
  lemma LookupSortBy(fs: Fields, k: string)
    ensures Lookup(SortBy(fs, Key), k) == Lookup(fs, k)
  {
    SortByStable(fs, Key, k);
    LookupIsFirstOfFilter(fs, k);
    LookupIsFirstOfFilter(SortBy(fs, Key), k);
  }

  /** Every entry of a permutation of `s` is an entry of `s`. */
  lemma PermMember<T>(r: seq<T>, s: seq<T>, i: nat)
    requires multiset(r) == multiset(s) && i < |r|
    ensures exists m :: 0 <= m < |s| && s[m] == r[i]
  {
    assert r[i] in multiset(r);
    assert r[i] in s;
  }

  lemma {:induction false} FilterTwo(s: Fields, a: nat, b: nat)
    requires a < b < |s| && s[a].0 == s[b].0
    ensures |Filter(s, Key, s[a].0)| >= 2
  {
    if a == 0 {
      FilterHas(s[1..], b - 1);
    } else {
      FilterTwo(s[1..], a - 1, b - 1);
    }
  }

  lemma {:induction false} FilterHas(s: Fields, b: nat)
    requires b < |s|
    ensures |Filter(s, Key, s[b].0)| >= 1
  {
    if b > 0 {
      FilterHas(s[1..], b - 1);
    }
  }

  lemma {:induction false} FilterDistinct(s: Fields, k: string)
    requires DistinctKeys(s)
    ensures |Filter(s, Key, k)| <= 1
  {
    if |s| > 0 {
      FilterDistinct(s[1..], k);
      if s[0].0 == k && |Filter(s[1..], Key, k)| > 0 {
        FilterWitness(s[1..], k);
      }
    }
  }

  lemma {:induction false} FilterWitness(s: Fields, k: string)
    requires |Filter(s, Key, k)| > 0
    ensures exists m :: 0 <= m < |s| && s[m].0 == k
  {
    if s[0].0 != k {
      FilterWitness(s[1..], k);
      var m :| 0 <= m < |s[1..]| && s[1..][m].0 == k;
      assert s[m + 1].0 == k;
    }
  }

  /** Sorting entries with distinct keys gives strictly ascending keys. */
  lemma SortByStrict(fs: Fields)
    requires DistinctKeys(fs)
    ensures DistinctKeys(SortBy(fs, Key))
    ensures forall a, b :: 0 <= a < b < |SortBy(fs, Key)| ==> LexLt(SortBy(fs, Key)[a].0, SortBy(fs, Key)[b].0)
  {
    var r := SortBy(fs, Key);
    SortBySorted(fs, Key);
    forall a, b | 0 <= a < b < |r| ensures r[a].0 != r[b].0 {
      if r[a].0 == r[b].0 {
        FilterTwo(r, a, b);
        SortByStable(fs, Key, r[a].0);
        FilterDistinct(fs, r[a].0);
      }
    }
  }

  /** After `_sorted_obj` every mapping is in ascending key order. */
  lemma {:induction false} SortedObjIsKeySorted(j: Json)
    ensures KeySorted(SortedObj(j))
    decreases j
  {
    match j
    case Obj(fs) =>
      var vs := SortedValues(fs);
      var r := SortBy(vs, Key);
      SortBySorted(vs, Key);
      SortByPerm(vs, Key);
      forall i | 0 <= i < |r| ensures KeySorted(r[i].1) {
        PermMember(r, vs, i);
        var m :| 0 <= m < |vs| && vs[m] == r[i];
        SortedObjIsKeySorted(fs[m].1);
      }
    case Arr(xs) =>
      forall i | 0 <= i < |xs| ensures KeySorted(SortedObj(xs[i])) {
        SortedObjIsKeySorted(xs[i]);
      }
    case _ =>
  }

  /**
   * On a document whose mappings have distinct keys (every Python dict),
   * `_sorted_obj` gives strictly ascending keys at every depth, and the
   * result still has distinct keys.
   */
  lemma {:induction false} SortedObjStrict(j: Json)
    requires WellFormed(j)
    ensures StrictlySorted(SortedObj(j)) && WellFormed(SortedObj(j))
    decreases j
  {
    match j
    case Obj(fs) =>
      var vs := SortedValues(fs);
      assert DistinctKeys(vs) by {
        forall a, b | 0 <= a < b < |vs| ensures vs[a].0 != vs[b].0 {
          assert vs[a].0 == fs[a].0 && vs[b].0 == fs[b].0;
        }
      }
      var r := SortBy(vs, Key);
      SortByStrict(vs);
      SortByPerm(vs, Key);
      forall i | 0 <= i < |r| ensures StrictlySorted(r[i].1) && WellFormed(r[i].1) {
        PermMember(r, vs, i);
        var m :| 0 <= m < |vs| && vs[m] == r[i];
        SortedObjStrict(fs[m].1);
      }
    case Arr(xs) =>
      forall i | 0 <= i < |xs| ensures StrictlySorted(SortedObj(xs[i])) && WellFormed(SortedObj(xs[i])) {
        SortedObjStrict(xs[i]);
      }
    case _ =>
  }

  /**
   * `_sorted_obj` keeps the key set and the values of every mapping: the
   * value under each key is the key-sorted original value.  Lists keep their
   * length and order.
   */
  lemma SortedObjKeepsEntries(j: Json)
    ensures j.Obj? ==> (
      && SortedObj(j).Obj?
      && KeySet(SortedObj(j).fields) == KeySet(j.fields)
      && multiset(SortedObj(j).fields) == multiset(SortedValues(j.fields))
      && forall k :: Lookup(SortedObj(j).fields, k) ==
           (if k in KeySet(j.fields) then Some(SortedObj(Lookup(j.fields, k).value)) else None))
    ensures j.Arr? ==> (
      && SortedObj(j).Arr?
      && |SortedObj(j).items| == |j.items|
      && forall i :: 0 <= i < |j.items| ==> SortedObj(j).items[i] == SortedObj(j.items[i]))
    ensures !j.Obj? && !j.Arr? ==> SortedObj(j) == j
  {
    if j.Obj? {
      var fs := j.fields;
      var vs := SortedValues(fs);
      SortByPerm(vs, Key);
      forall k ensures Lookup(SortBy(vs, Key), k) ==
        (if k in KeySet(fs) then Some(SortedObj(Lookup(fs, k).value)) else None)
      {
        LookupSortBy(vs, k);
        LookupSortedValues(fs, k);
      }
      var r := SortBy(vs, Key);
      forall k ensures k in KeySet(r) <==> k in KeySet(fs) {
        assert Lookup(r, k).None? <==> k !in KeySet(fs);
      }
    }
  }

  lemma {:induction false} LookupSortedValues(fs: Fields, k: string)
    ensures Lookup(SortedValues(fs), k) ==
      (if k in KeySet(fs) then Some(SortedObj(Lookup(fs, k).value)) else None)
  {
    if |fs| > 0 {
      LookupSortedValues(fs[1..], k);
      assert SortedValues(fs)[1..] == SortedValues(fs[1..]);
    }
  }

  /** A key-sorted document is left unchanged. */
  lemma {:induction false} SortedObjFixesKeySorted(j: Json)
    requires KeySorted(j)
    ensures SortedObj(j) == j
    decreases j
  {
    match j
    case Obj(fs) =>
      forall i | 0 <= i < |fs| ensures SortedObj(fs[i].1) == fs[i].1 {
        SortedObjFixesKeySorted(fs[i].1);
      }
      assert SortedValues(fs) == fs;
      SortBySortedIsIdentity(fs, Key);
    case Arr(xs) =>
      forall i | 0 <= i < |xs| ensures SortedObj(xs[i]) == xs[i] {
        SortedObjFixesKeySorted(xs[i]);
      }
      assert SortedObj(j).items == xs;
    case _ =>
  }

  /** Applying `_sorted_obj` twice gives the same result as once. */
  lemma SortedObjIdempotent(j: Json)
    ensures SortedObj(SortedObj(j)) == SortedObj(j)
  {
    SortedObjIsKeySorted(j);
    SortedObjFixesKeySorted(SortedObj(j));
  }
}
