/**
 * Python's `sorted(xs, key=f)` / `xs.sort(key=f)` with a string key: a stable
 * sort.  It is specified as insertion sort, and its three promises are proved:
 * the result is ordered by key, it is a permutation of the input, and for every
 * key value the entries carrying it keep their input order.
 */
module Sorting {
  import opened StrOrder

  predicate SortedBy<T>(s: seq<T>, key: T -> string) {
    forall i, j :: 0 <= i < j < |s| ==> LexLe(key(s[i]), key(s[j]))
  }

  /** The entries of `s` whose key is `k`, in order. */
  function Filter<T>(s: seq<T>, key: T -> string, k: string): seq<T> {
    if |s| == 0 then []
    else (if key(s[0]) == k then [s[0]] else []) + Filter(s[1..], key, k)
  }

  /** Put `x` behind every entry whose key is not above its own. */
  function Insert<T>(x: T, s: seq<T>, key: T -> string): seq<T> {
    if |s| == 0 then [x]
    else if LexLt(key(x), key(s[0])) then [x] + s
    else [s[0]] + Insert(x, s[1..], key)
  }

  /** Insert the entries one after another, in input order. */
  function SortBy<T>(s: seq<T>, key: T -> string): seq<T> {
    if |s| == 0 then []
    else Insert(s[|s| - 1], SortBy(s[..|s| - 1], key), key)
  }

  lemma {:induction false} FilterAppend<T>(s: seq<T>, t: seq<T>, key: T -> string, k: string)
    ensures Filter(s + t, key, k) == Filter(s, key, k) + Filter(t, key, k)
  {
    if |s| > 0 {
      assert (s + t)[1..] == s[1..] + t;
      FilterAppend(s[1..], t, key, k);
    } else {
      assert s + t == t;
    }
  }

  lemma {:induction false} InsertPerm<T>(x: T, s: seq<T>, key: T -> string)
    ensures multiset(Insert(x, s, key)) == multiset(s) + multiset{x}
  {
    if |s| > 0 && !LexLt(key(x), key(s[0])) {
      InsertPerm(x, s[1..], key);
      assert s == [s[0]] + s[1..];
    }
  }

  lemma {:induction false} InsertSorted<T>(x: T, s: seq<T>, key: T -> string)
    requires SortedBy(s, key)
    ensures SortedBy(Insert(x, s, key), key)
  {
    if |s| == 0 {
    } else if LexLt(key(x), key(s[0])) {
      var r := [x] + s;
      forall j | 1 <= j < |r| ensures LexLe(key(x), key(r[j])) {
        LexLeTransitive(key(x), key(s[0]), key(s[j - 1]));
      }
    } else {
      LexNotLt(key(x), key(s[0]));
      InsertSorted(x, s[1..], key);
      var t := Insert(x, s[1..], key);
      InsertPerm(x, s[1..], key);
      forall j | 0 <= j < |t| ensures LexLe(key(s[0]), key(t[j])) {
        assert t[j] in multiset(t);
        if t[j] != x {
          assert t[j] in multiset(s[1..]);
          var m :| 0 <= m < |s[1..]| && s[1..][m] == t[j];
          assert s[m + 1] == t[j];
        }
      }
    }
  }

  /** In a sorted list the entries with the key of `x` all come before it. */
  lemma {:induction false} InsertFilter<T>(x: T, s: seq<T>, key: T -> string, k: string)
    requires SortedBy(s, key)
    ensures Filter(Insert(x, s, key), key, k)
         == Filter(s, key, k) + (if key(x) == k then [x] else [])
  {
    var tail := if key(x) == k then [x] else [];
    if |s| == 0 {
      assert Insert(x, s, key) == [x];
      assert Filter([x], key, k) == tail + Filter([x][1..], key, k);
    } else if LexLt(key(x), key(s[0])) {
      var r := [x] + s;
      assert r[1..] == s;
      assert Filter(r, key, k) == tail + Filter(s, key, k);
      if key(x) == k {
        NoneAbove(s, key, k);
      }
    } else {
      var t := Insert(x, s[1..], key);
      var r := [s[0]] + t;
      assert r[1..] == t;
      assert SortedBy(s[1..], key);
      InsertFilter(x, s[1..], key, k);
      var head := if key(s[0]) == k then [s[0]] else [];
      calc {
        Filter(r, key, k);
        head + Filter(t, key, k);
        head + (Filter(s[1..], key, k) + tail);
        (head + Filter(s[1..], key, k)) + tail;
        Filter(s, key, k) + tail;
      }
    }
  }

  /** No entry of a sorted list whose first key is above `k` carries `k`. */
  lemma {:induction false} NoneAbove<T>(s: seq<T>, key: T -> string, k: string)
    requires SortedBy(s, key) && |s| > 0 && LexLt(k, key(s[0]))
    ensures Filter(s, key, k) == []
  {
    LexLtAsymmetric(k, key(s[0]));
    if |s| > 1 {
      LexLeTransitive(key(s[0]), key(s[1]), key(s[1]));
      if key(s[0]) != key(s[1]) {
        LexLtTransitive(k, key(s[0]), key(s[1]));
      }
      assert SortedBy(s[1..], key);
      NoneAbove(s[1..], key, k);
    }
  }

  lemma {:induction false} SortByPerm<T>(s: seq<T>, key: T -> string)
    ensures multiset(SortBy(s, key)) == multiset(s)
    ensures |SortBy(s, key)| == |s|
    decreases |s|
  {
    if |s| > 0 {
      var init := s[..|s| - 1];
      SortByPerm(init, key);
      InsertPerm(s[|s| - 1], SortBy(init, key), key);
      assert s == init + [s[|s| - 1]];
    }
  }

  lemma {:induction false} SortBySorted<T>(s: seq<T>, key: T -> string)
    ensures SortedBy(SortBy(s, key), key)
    decreases |s|
  {
    if |s| > 0 {
      SortBySorted(s[..|s| - 1], key);
      InsertSorted(s[|s| - 1], SortBy(s[..|s| - 1], key), key);
    }
  }

  /** Stability: for each key value, the entries carrying it keep their order. */
  lemma {:induction false} SortByStable<T>(s: seq<T>, key: T -> string, k: string)
    ensures Filter(SortBy(s, key), key, k) == Filter(s, key, k)
    decreases |s|
  {
    if |s| > 0 {
      var init, x := s[..|s| - 1], s[|s| - 1];
      SortByStable(init, key, k);
      SortBySorted(init, key);
      InsertFilter(x, SortBy(init, key), key, k);
      assert s == init + [x];
      FilterAppend(init, [x], key, k);
      assert Filter([x], key, k) == if key(x) == k then [x] else [];
    }
  }

  /** A list that is already sorted comes back unchanged. */
  lemma {:induction false} SortBySortedIsIdentity<T>(s: seq<T>, key: T -> string)
    requires SortedBy(s, key)
    ensures SortBy(s, key) == s
    decreases |s|
  {
    if |s| > 0 {
      var init, x := s[..|s| - 1], s[|s| - 1];
      assert SortedBy(init, key);
      SortBySortedIsIdentity(init, key);
      InsertLast(x, init, key);
      assert init + [x] == s;
    }
  }

  lemma {:induction false} InsertLast<T>(x: T, s: seq<T>, key: T -> string)
    requires forall i :: 0 <= i < |s| ==> LexLe(key(s[i]), key(x))
    ensures Insert(x, s, key) == s + [x]
  {
    if |s| > 0 {
      if LexLt(key(x), key(s[0])) {
        LexLtAsymmetric(key(x), key(s[0]));
      }
      InsertLast(x, s[1..], key);
      assert s == [s[0]] + s[1..];
    }
  }

  /**
   * `xs.sort(key=...)` run over a list value: the entries are inserted one at
   * a time, in input order.
   */
  method StableSort<T>(s: seq<T>, key: T -> string) returns (r: seq<T>)
    ensures r == SortBy(s, key)
    ensures SortedBy(r, key) && multiset(r) == multiset(s)
    ensures forall k :: Filter(r, key, k) == Filter(s, key, k)
  {
    r := [];
    var i := 0;
    while i < |s|
      invariant 0 <= i <= |s|
      invariant r == SortBy(s[..i], key)
    {
      assert s[..i + 1][..i] == s[..i];
      r := Insert(s[i], r, key);
      i := i + 1;
    }
    assert s[..i] == s;
    SortBySorted(s, key);
    SortByPerm(s, key);
    forall k ensures Filter(r, key, k) == Filter(s, key, k) {
      SortByStable(s, key, k);
    }
  }
}
