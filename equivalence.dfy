/**
 * equivalence_demo.py: flattening a canonical serial into dotted key paths,
 * the sorted, prefix-filtered field diff of two of them, and the exit code
 * of the comparison (0 exactly when the two `opal_hash` values agree).
 */
module Equivalence {
  import opened Wrappers
  import opened JsonValue
  import opened StrOrder
  import opened GkpoBase
  import opened Canonicalization
  import opened CanonicalLaws
  import opened Reducibility

  /** What the diff shows for a path one side lacks. */
  const MISSING: Json := Str("<MISSING>")

  /** `f"{prefix}.{k}" if prefix else k` */
  function Join(prefix: string, k: string): string {
    if prefix == "" then k else prefix + "." + k
  }

  /** `out.update(more)`: each entry of `more` in turn, as `out[k] = v`. */
  function Update(out: Fields, more: Fields): Fields {
    if |more| == 0 then out
    else Set(Update(out, more[..|more| - 1]), more[|more| - 1].0, more[|more| - 1].1)
  }

  /** The mapping `_flatten(d, prefix)` returns. */
  function Flattened(d: Json, prefix: string): Fields
    decreases d, if d.Obj? then |d.fields| + 1 else 0
  {
    if d.Obj? then FlattenedUpTo(d, |d.fields|, prefix) else [(prefix, d)]
  }

  /** `out` once the loop over the mapping `d` has taken its first `n` entries. */
  function FlattenedUpTo(d: Json, n: nat, prefix: string): Fields
    requires d.Obj? && n <= |d.fields|
    decreases d, n
  {
    if n == 0 then []
    else
      assert d.fields[n - 1] in d.fields;
      Update(FlattenedUpTo(d, n - 1, prefix), Flattened(d.fields[n - 1].1, Join(prefix, d.fields[n - 1].0)))
  }

  /**
   * Every leaf of `d` under its dotted path, in document order: a list or a
   * scalar is one leaf, kept whole; a mapping has the leaves of its values,
   * so an empty mapping has none.  Paths may repeat (a key containing a dot
   * can spell the path of a nested one).
   */
  function Leaves(d: Json, prefix: string): Fields
    decreases d, if d.Obj? then |d.fields| + 1 else 0
  {
    if d.Obj? then LeavesUpTo(d, |d.fields|, prefix) else [(prefix, d)]
  }

  function LeavesUpTo(d: Json, n: nat, prefix: string): Fields
    requires d.Obj? && n <= |d.fields|
    decreases d, n
  {
    if n == 0 then []
    else
      assert d.fields[n - 1] in d.fields;
      LeavesUpTo(d, n - 1, prefix) + Leaves(d.fields[n - 1].1, Join(prefix, d.fields[n - 1].0))
  }

  /** The value of the last entry of `xs` whose key is `k`. */
  function LastValue(xs: Fields, k: string): (r: Option<Json>)
    ensures r.None? <==> k !in KeySet(xs)
    ensures r.Some? ==> exists i :: 0 <= i < |xs| && xs[i] == (k, r.value)
  {
    if |xs| == 0 then None
    else if xs[|xs| - 1].0 == k then Some(xs[|xs| - 1].1)
    else
      var r := LastValue(xs[..|xs| - 1], k);
      assert KeySet(xs) == KeySet(xs[..|xs| - 1]) + {xs[|xs| - 1].0} by {
        forall y | y in KeySet(xs) ensures y in KeySet(xs[..|xs| - 1]) + {xs[|xs| - 1].0} {
          var i :| 0 <= i < |xs| && xs[i].0 == y;
          if i < |xs| - 1 { assert xs[..|xs| - 1][i].0 == y; }
        }
      }
      if r.Some? then
        var i :| 0 <= i < |xs| - 1 && xs[..|xs| - 1][i] == (k, r.value);
        assert xs[i] == (k, r.value);
        r
      else r
  }

  lemma KeySetAppend(xs: Fields, ys: Fields)
    ensures KeySet(xs + ys) == KeySet(xs) + KeySet(ys)
  {
    forall y | y in KeySet(xs + ys) ensures y in KeySet(xs) + KeySet(ys) {
      var i :| 0 <= i < |xs + ys| && (xs + ys)[i].0 == y;
      if i < |xs| { assert xs[i].0 == y; } else { assert ys[i - |xs|].0 == y; }
    }
    forall y | y in KeySet(xs) ensures y in KeySet(xs + ys) {
      var i :| 0 <= i < |xs| && xs[i].0 == y;
      assert (xs + ys)[i].0 == y;
    }
    forall y | y in KeySet(ys) ensures y in KeySet(xs + ys) {
      var i :| 0 <= i < |ys| && ys[i].0 == y;
      assert (xs + ys)[|xs| + i].0 == y;
    }
  }

  lemma {:induction false} LastValueAppend(xs: Fields, ys: Fields, k: string)
    ensures LastValue(xs + ys, k) == if LastValue(ys, k).Some? then LastValue(ys, k) else LastValue(xs, k)
    decreases |ys|
  {
    if |ys| > 0 {
      var zs := xs + ys;
      assert zs[|zs| - 1] == ys[|ys| - 1];
      assert zs[..|zs| - 1] == xs + ys[..|ys| - 1];
      LastValueAppend(xs, ys[..|ys| - 1], k);
    } else {
      assert xs + ys == xs;
    }
  }

  /** With distinct keys the last occurrence is the only one. */
  lemma {:induction false} LastIsLookup(xs: Fields, k: string)
    requires DistinctKeys(xs)
    ensures LastValue(xs, k) == Lookup(xs, k)
  {
    if LastValue(xs, k).Some? {
      var i :| 0 <= i < |xs| && xs[i] == (k, LastValue(xs, k).value);
      LookupAt(xs, i);
    }
  }

  lemma {:induction false} SetDistinct(fs: Fields, k: string, v: Json)
    requires DistinctKeys(fs)
    ensures DistinctKeys(Set(fs, k, v))
  {
    if |fs| > 0 {
      var tail := fs[1..];
      forall i | 0 <= i < |tail| ensures tail[i].0 != fs[0].0 {
        assert tail[i] == fs[i + 1];
      }
      assert fs[0].0 !in KeySet(tail);
      if fs[0].0 == k {
        assert Set(fs, k, v) == [(k, v)] + tail;
        ConsDistinct((k, v), tail);
      } else {
        SetDistinct(tail, k, v);
        var t := Set(tail, k, v);
        assert Set(fs, k, v) == [fs[0]] + t;
        ConsDistinct(fs[0], t);
      }
    }
  }

  lemma ConsDistinct(x: (string, Json), t: Fields)
    requires DistinctKeys(t) && x.0 !in KeySet(t)
    ensures DistinctKeys([x] + t)
  {
    var r := [x] + t;
    forall i, j | 0 <= i < j < |r| ensures r[i].0 != r[j].0 {
      if i == 0 { assert r[j] == t[j - 1] && r[j].0 in KeySet(t); }
      else { assert r[i] == t[i - 1] && r[j] == t[j - 1]; }
    }
  }

  /** `out.update(more)` keeps keys distinct, and its keys are those of both. */
  lemma UpdateKeys(out: Fields, more: Fields)
    requires DistinctKeys(out)
    ensures DistinctKeys(Update(out, more))
    ensures KeySet(Update(out, more)) == KeySet(out) + KeySet(more)
  {
    UpdateDistinct(out, more);
    UpdateKeySet(out, more);
  }

  lemma {:induction false} UpdateDistinct(out: Fields, more: Fields)
    requires DistinctKeys(out)
    ensures DistinctKeys(Update(out, more))
  {
    if |more| > 0 {
      var init := more[..|more| - 1];
      var last := more[|more| - 1];
      assert Update(out, more) == Set(Update(out, init), last.0, last.1);
      UpdateDistinct(out, init);
      SetDistinct(Update(out, init), last.0, last.1);
    }
  }

  lemma {:induction false} UpdateKeySet(out: Fields, more: Fields)
    ensures KeySet(Update(out, more)) == KeySet(out) + KeySet(more)
  {
    if |more| > 0 {
      var init := more[..|more| - 1];
      var last := more[|more| - 1];
      assert Update(out, more) == Set(Update(out, init), last.0, last.1);
      UpdateKeySet(out, init);
      assert more == init + [last];
      KeySetAppend(init, [last]);
      assert KeySet([last]) == {last.0};
    }
  }

  /** After `out.update(more)` a key has its last value in `more`, or keeps its old one. */
  lemma {:induction false} UpdateLookup(out: Fields, more: Fields, k: string)
    ensures Lookup(Update(out, more), k) == if LastValue(more, k).Some? then LastValue(more, k) else Lookup(out, k)
  {
    if |more| > 0 {
      UpdateLookup(out, more[..|more| - 1], k);
    }
  }

  /** `_flatten` gives each path once, and its paths are the leaves' paths. */
  lemma {:induction false} FlattenedKeys(d: Json, prefix: string)
    ensures DistinctKeys(Flattened(d, prefix))
    ensures KeySet(Flattened(d, prefix)) == KeySet(Leaves(d, prefix))
    decreases d, if d.Obj? then |d.fields| + 1 else 0
  {
    if d.Obj? {
      FlattenedUpToKeys(d, |d.fields|, prefix);
    }
  }

  lemma {:induction false} FlattenedUpToKeys(d: Json, n: nat, prefix: string)
    requires d.Obj? && n <= |d.fields|
    ensures DistinctKeys(FlattenedUpTo(d, n, prefix))
    ensures KeySet(FlattenedUpTo(d, n, prefix)) == KeySet(LeavesUpTo(d, n, prefix))
    decreases d, n
  {
    if n > 0 {
      assert d.fields[n - 1] in d.fields;
      var child := d.fields[n - 1].1;
      var path := Join(prefix, d.fields[n - 1].0);
      assert FlattenedUpTo(d, n, prefix) == Update(FlattenedUpTo(d, n - 1, prefix), Flattened(child, path));
      assert LeavesUpTo(d, n, prefix) == LeavesUpTo(d, n - 1, prefix) + Leaves(child, path);
      FlattenedUpToKeys(d, n - 1, prefix);
      FlattenedKeys(child, path);
      UpdateKeys(FlattenedUpTo(d, n - 1, prefix), Flattened(child, path));
      KeySetAppend(LeavesUpTo(d, n - 1, prefix), Leaves(child, path));
    }
  }

  /**
   * `_flatten` against the leaf list: a path maps to its leaf, and a path
   * reached twice keeps the later leaf.
   */
  lemma {:induction false} FlattenedAt(d: Json, prefix: string, k: string)
    ensures Lookup(Flattened(d, prefix), k) == LastValue(Leaves(d, prefix), k)
    decreases d, if d.Obj? then |d.fields| + 1 else 0
  {
    if d.Obj? {
      FlattenedUpToAt(d, |d.fields|, prefix, k);
    }
  }

  lemma {:induction false} FlattenedUpToAt(d: Json, n: nat, prefix: string, k: string)
    requires d.Obj? && n <= |d.fields|
    ensures Lookup(FlattenedUpTo(d, n, prefix), k) == LastValue(LeavesUpTo(d, n, prefix), k)
    decreases d, n
  {
    if n > 0 {
      assert d.fields[n - 1] in d.fields;
      var child := d.fields[n - 1].1;
      var path := Join(prefix, d.fields[n - 1].0);
      assert FlattenedUpTo(d, n, prefix) == Update(FlattenedUpTo(d, n - 1, prefix), Flattened(child, path));
      assert LeavesUpTo(d, n, prefix) == LeavesUpTo(d, n - 1, prefix) + Leaves(child, path);
      FlattenedUpToAt(d, n - 1, prefix, k);
      FlattenedAt(child, path, k);
      FlattenedKeys(child, path);
      LastIsLookup(Flattened(child, path), k);
      UpdateLookup(FlattenedUpTo(d, n - 1, prefix), Flattened(child, path), k);
      LastValueAppend(LeavesUpTo(d, n - 1, prefix), Leaves(child, path), k);
    }
  }

  /**
   * Every leaf is a list or a scalar, never a mapping, and a leaf of a
   * well-formed document is well-formed.
   */
  lemma {:induction false} LeavesAreLeaves(d: Json, prefix: string)
    ensures forall i :: 0 <= i < |Leaves(d, prefix)| ==>
      !Leaves(d, prefix)[i].1.Obj? && (WellFormed(d) ==> WellFormed(Leaves(d, prefix)[i].1))
    decreases d, if d.Obj? then |d.fields| + 1 else 0
  {
    if d.Obj? {
      LeavesUpToAreLeaves(d, |d.fields|, prefix);
    }
  }

  lemma {:induction false} LeavesUpToAreLeaves(d: Json, n: nat, prefix: string)
    requires d.Obj? && n <= |d.fields|
    ensures forall i :: 0 <= i < |LeavesUpTo(d, n, prefix)| ==>
      !LeavesUpTo(d, n, prefix)[i].1.Obj? && (WellFormed(d) ==> WellFormed(LeavesUpTo(d, n, prefix)[i].1))
    decreases d, n
  {
    if n > 0 {
      assert d.fields[n - 1] in d.fields;
      LeavesUpToAreLeaves(d, n - 1, prefix);
      LeavesAreLeaves(d.fields[n - 1].1, Join(prefix, d.fields[n - 1].0));
    }
  }

  /** Under a non-empty prefix, every path of a mapping extends `prefix + "."`. */
  lemma {:induction false} LeavesUnderPrefix(d: Json, prefix: string)
    requires prefix != ""
    ensures forall i :: 0 <= i < |Leaves(d, prefix)| ==>
      if d.Obj? then prefix + "." <= Leaves(d, prefix)[i].0 else Leaves(d, prefix)[i].0 == prefix
    decreases d, if d.Obj? then |d.fields| + 1 else 0
  {
    if d.Obj? {
      LeavesUpToUnderPrefix(d, |d.fields|, prefix);
    }
  }

  lemma {:induction false} LeavesUpToUnderPrefix(d: Json, n: nat, prefix: string)
    requires prefix != "" && d.Obj? && n <= |d.fields|
    ensures forall i :: 0 <= i < |LeavesUpTo(d, n, prefix)| ==> prefix + "." <= LeavesUpTo(d, n, prefix)[i].0
    decreases d, n
  {
    if n > 0 {
      assert d.fields[n - 1] in d.fields;
      var path := Join(prefix, d.fields[n - 1].0);
      LeavesUpToUnderPrefix(d, n - 1, prefix);
      LeavesUnderPrefix(d.fields[n - 1].1, path);
      var ls := Leaves(d.fields[n - 1].1, path);
      forall i | 0 <= i < |ls| ensures prefix + "." <= ls[i].0 {
        assert path <= ls[i].0;
        assert prefix + "." <= path;
      }
    }
  }

  /** `_flatten`: the loop over the mapping's entries, updating `out` with each value's flattening. */
  method Flatten(d: Json, prefix: string) returns (out: Fields)
    ensures out == Flattened(d, prefix)
    decreases d
  {
    if d.Obj? {
      out := [];
      for i := 0 to |d.fields|
        invariant out == FlattenedUpTo(d, i, prefix)
      {
        assert d.fields[i] in d.fields;
        var sub := Flatten(d.fields[i].1, Join(prefix, d.fields[i].0));
        out := DictUpdate(out, sub);
      }
    } else {
      out := [(prefix, d)];
    }
  }

  /** `out.update(more)`, one assignment per entry of `more`. */
  method DictUpdate(out: Fields, more: Fields) returns (r: Fields)
    ensures r == Update(out, more)
  {
    r := out;
    for j := 0 to |more|
      invariant r == Update(out, more[..j])
    {
      assert more[..j + 1][..j] == more[..j];
      r := Set(r, more[j].0, more[j].1);
    }
    assert more[..|more|] == more;
  }

  /** Insert `x` into the strictly ascending `s`, unless it is there already. */
  function Ins(x: string, s: seq<string>): (r: seq<string>)
    requires StrictlyAscending(s)
    ensures StrictlyAscending(r)
    ensures forall y :: y in r <==> y in s || y == x
  {
    if |s| == 0 then [x]
    else if x == s[0] then s
    else if LexLt(x, s[0]) then
      assert forall j :: 0 <= j < |s| ==> LexLt(x, s[j]) by {
        forall j | 0 < j < |s| ensures LexLt(x, s[j]) {
          LexLtTransitive(x, s[0], s[j]);
        }
      }
      [x] + s
    else
      LexNotLt(x, s[0]);
      var t := Ins(x, s[1..]);
      assert forall y :: y in s <==> y == s[0] || y in s[1..] by {
        assert s == [s[0]] + s[1..];
      }
      assert forall j :: 0 <= j < |t| ==> LexLt(s[0], t[j]) by {
        forall j | 0 <= j < |t| ensures LexLt(s[0], t[j]) {
          assert t[j] in t;
          if t[j] != x {
            assert t[j] in s[1..];
            var m :| 0 <= m < |s[1..]| && s[1..][m] == t[j];
            assert s[m + 1] == t[j];
          }
        }
      }
      [s[0]] + t
  }

  /** `sorted(set(keys))`: each key once, in ascending order. */
  function SortedKeys(keys: seq<string>): (r: seq<string>)
    ensures StrictlyAscending(r)
    ensures forall y :: y in r <==> y in keys
  {
    if |keys| == 0 then []
    else
      var init := keys[..|keys| - 1];
      assert keys == init + [keys[|keys| - 1]];
      Ins(keys[|keys| - 1], SortedKeys(init))
  }

  /** The keys of a mapping, in order. */
  function KeyList(fs: Fields): (r: seq<string>)
    ensures forall y :: y in r <==> y in KeySet(fs)
  {
    var r := seq(|fs|, i requires 0 <= i < |fs| => fs[i].0);
    assert forall y :: y in KeySet(fs) ==> y in r by {
      forall y | y in KeySet(fs) ensures y in r {
        var i :| 0 <= i < |fs| && fs[i].0 == y;
        assert r[i] == y;
      }
    }
    r
  }

  /** `any(k.startswith(ig) for ig in ignore_keys)` */
  predicate Ignored(k: string, ignore: seq<string>) {
    exists i :: 0 <= i < |ignore| && ignore[i] <= k
  }

  /**
   * The entries the diff loop has appended after taking `keys` in order:
   * each reports one of `keys`, not ignored, with the two sides' values (or
   * MISSING), which differ.
   */
  function DiffOver(keys: seq<string>, fa: Fields, fb: Fields, ignore: seq<string>): (r: seq<(string, Json, Json)>)
    ensures forall i :: 0 <= i < |r| ==>
      && r[i].0 in keys && !Ignored(r[i].0, ignore)
      && r[i].1 == Get(fa, r[i].0, MISSING) && r[i].2 == Get(fb, r[i].0, MISSING)
      && !PyEq(r[i].1, r[i].2)
  {
    if |keys| == 0 then []
    else
      var k := keys[|keys| - 1];
      var prev := DiffOver(keys[..|keys| - 1], fa, fb, ignore);
      assert forall i :: 0 <= i < |prev| ==> prev[i].0 in keys by {
        forall i | 0 <= i < |prev| ensures prev[i].0 in keys {
          var m :| 0 <= m < |keys| - 1 && keys[..|keys| - 1][m] == prev[i].0;
          assert keys[m] == prev[i].0;
        }
      }
      var va := Get(fa, k, MISSING);
      var vb := Get(fb, k, MISSING);
      if Ignored(k, ignore) || PyEq(va, vb) then prev else prev + [(k, va, vb)]
  }

  /** Every key of `keys` that is not ignored and whose two sides differ is reported. */
  lemma {:induction false} DiffOverComplete(keys: seq<string>, fa: Fields, fb: Fields, ignore: seq<string>, k: string)
    requires k in keys && !Ignored(k, ignore) && !PyEq(Get(fa, k, MISSING), Get(fb, k, MISSING))
    ensures exists i :: 0 <= i < |DiffOver(keys, fa, fb, ignore)| && DiffOver(keys, fa, fb, ignore)[i].0 == k
  {
    var init := keys[..|keys| - 1];
    var prev := DiffOver(init, fa, fb, ignore);
    var r := DiffOver(keys, fa, fb, ignore);
    if k == keys[|keys| - 1] {
      assert r[|r| - 1].0 == k;
    } else {
      assert keys == init + [keys[|keys| - 1]];
      DiffOverComplete(init, fa, fb, ignore, k);
      var i :| 0 <= i < |prev| && prev[i].0 == k;
      assert r[i] == prev[i];
    }
  }

  /** The report's keys are strictly ascending. */
  predicate ReportAscending(r: seq<(string, Json, Json)>) {
    forall i, j :: 0 <= i < j < |r| ==> LexLt(r[i].0, r[j].0)
  }

  /** Taking ascending keys gives a report in strictly ascending key order. */
  lemma {:induction false} DiffOverAscending(keys: seq<string>, fa: Fields, fb: Fields, ignore: seq<string>)
    requires StrictlyAscending(keys)
    ensures ReportAscending(DiffOver(keys, fa, fb, ignore))
  {
    if |keys| > 0 {
      var init := keys[..|keys| - 1];
      var k := keys[|keys| - 1];
      var prev := DiffOver(init, fa, fb, ignore);
      DiffOverAscending(init, fa, fb, ignore);
      var r := DiffOver(keys, fa, fb, ignore);
      if r != prev {
        assert r == prev + [(k, Get(fa, k, MISSING), Get(fb, k, MISSING))];
        forall i | 0 <= i < |prev| ensures LexLt(prev[i].0, k) {
          var m :| 0 <= m < |init| && init[m] == prev[i].0;
          assert keys[m] == prev[i].0;
        }
        forall i, j | 0 <= i < j < |r| ensures LexLt(r[i].0, r[j].0) {
          if j < |prev| {
            assert r[i] == prev[i] && r[j] == prev[j];
          } else {
            assert r[i] == prev[i] && r[j].0 == k;
          }
        }
      }
    }
  }

  /** `_dict_diff(a, b, ignore_keys)` as a value. */
  function Diff(a: Json, b: Json, ignore: seq<string>): seq<(string, Json, Json)> {
    var fa := Flattened(a, "");
    var fb := Flattened(b, "");
    DiffOver(SortedKeys(KeyList(fa) + KeyList(fb)), fa, fb, ignore)
  }

  /** `_dict_diff`: flatten both sides, then walk the sorted union of their paths. */
  method DictDiff(a: Json, b: Json, ignore: seq<string>) returns (diffs: seq<(string, Json, Json)>)
    ensures diffs == Diff(a, b, ignore)
  {
    var fa := Flatten(a, "");
    var fb := Flatten(b, "");
    var keys := SortedKeys(KeyList(fa) + KeyList(fb));
    diffs := [];
    for i := 0 to |keys|
      invariant diffs == DiffOver(keys[..i], fa, fb, ignore)
    {
      var k := keys[i];
      assert keys[..i + 1][..i] == keys[..i];
      if !Ignored(k, ignore) {
        var va := Get(fa, k, MISSING);
        var vb := Get(fb, k, MISSING);
        if !PyEq(va, vb) {
          diffs := diffs + [(k, va, vb)];
        }
      }
    }
    assert keys[..|keys|] == keys;
  }

  /**
   * `_dict_diff` against the leaf lists: it reports, in strictly ascending
   * order, exactly the paths of either side's leaves that no ignore string
   * prefixes and whose two values differ, each value being the later leaf at
   * that path on its side, or MISSING when the side has none.
   */
  lemma DiffSpec(a: Json, b: Json, ignore: seq<string>)
    ensures var r := Diff(a, b, ignore);
      && ReportAscending(r)
      && (forall i :: 0 <= i < |r| ==>
            && (r[i].0 in KeySet(Leaves(a, "")) || r[i].0 in KeySet(Leaves(b, "")))
            && !Ignored(r[i].0, ignore)
            && r[i].1 == LastValue(Leaves(a, ""), r[i].0).GetOr(MISSING)
            && r[i].2 == LastValue(Leaves(b, ""), r[i].0).GetOr(MISSING)
            && !PyEq(r[i].1, r[i].2))
      && (forall k ::
            ((k in KeySet(Leaves(a, "")) || k in KeySet(Leaves(b, ""))) && !Ignored(k, ignore) &&
             !PyEq(LastValue(Leaves(a, ""), k).GetOr(MISSING), LastValue(Leaves(b, ""), k).GetOr(MISSING)))
            ==> exists i :: 0 <= i < |r| && r[i].0 == k)
  {
    var fa := Flattened(a, "");
    var fb := Flattened(b, "");
    FlattenedKeys(a, "");
    FlattenedKeys(b, "");
    forall k ensures Get(fa, k, MISSING) == LastValue(Leaves(a, ""), k).GetOr(MISSING)
      && Get(fb, k, MISSING) == LastValue(Leaves(b, ""), k).GetOr(MISSING)
    {
      FlattenedAt(a, "", k);
      FlattenedAt(b, "", k);
    }
    var keys := SortedKeys(KeyList(fa) + KeyList(fb));
    assert forall k :: k in keys <==> k in KeySet(fa) || k in KeySet(fb);
    DiffOverAscending(keys, fa, fb, ignore);
    forall k | k in keys && !Ignored(k, ignore) && !PyEq(Get(fa, k, MISSING), Get(fb, k, MISSING))
      ensures exists i :: 0 <= i < |DiffOver(keys, fa, fb, ignore)| && DiffOver(keys, fa, fb, ignore)[i].0 == k
    {
      DiffOverComplete(keys, fa, fb, ignore, k);
    }
  }

  /** A value found at a path of a well-formed document equals itself. */
  lemma FoundReflexive(a: Json, k: string)
    requires WellFormed(a)
    ensures PyEq(Get(Flattened(a, ""), k, MISSING), Get(Flattened(a, ""), k, MISSING))
  {
    var v := Get(Flattened(a, ""), k, MISSING);
    FlattenedAt(a, "", k);
    LeavesAreLeaves(a, "");
    if LastValue(Leaves(a, ""), k).Some? {
      var i :| 0 <= i < |Leaves(a, "")| && Leaves(a, "")[i] == (k, v);
    }
    PyEqReflexive(v);
  }

  /** Diffing a document against itself reports nothing, whatever is ignored. */
  lemma DiffSelf(a: Json, ignore: seq<string>)
    requires WellFormed(a)
    ensures Diff(a, a, ignore) == []
  {
    var fa := Flattened(a, "");
    var keys := SortedKeys(KeyList(fa) + KeyList(fa));
    forall k | k in keys ensures PyEq(Get(fa, k, MISSING), Get(fa, k, MISSING)) {
      FoundReflexive(a, k);
    }
    DiffOverNone(keys, fa, fa, ignore);
  }

  /** Keys whose two sides are equal contribute nothing. */
  lemma {:induction false} DiffOverNone(keys: seq<string>, fa: Fields, fb: Fields, ignore: seq<string>)
    requires forall k :: k in keys ==> PyEq(Get(fa, k, MISSING), Get(fb, k, MISSING))
    ensures DiffOver(keys, fa, fb, ignore) == []
  {
    if |keys| > 0 {
      var init := keys[..|keys| - 1];
      assert keys == init + [keys[|keys| - 1]];
      DiffOverNone(init, fa, fb, ignore);
    }
  }

  /** `x.get("provenance", {}).get("opal_hash")`; a provenance that is not a mapping has no `get`. */
  function HashOf(g: Fields): Result<Option<Json>, Error> {
    var p := Get(g, "provenance", Obj([]));
    if p.Obj? then Ok(Lookup(p.fields, "opal_hash")) else Err(TypeError("provenance.get"))
  }

  /**
   * The exit code of `main` for the documents `docA` and `docB`: both are
   * canonicalised, then 0 when their hashes are equal and 1 otherwise.
   */
  function ExitCode(docA: Fields, docB: Fields, digest: Json -> string): Result<int, Error> {
    var ga := Canonicalize(docA, digest);
    if ga.Err? then Err(ga.error)
    else
      var gb := Canonicalize(docB, digest);
      if gb.Err? then Err(gb.error)
      else
        var ha := HashOf(ga.value.doc);
        if ha.Err? then Err(ha.error)
        else
          var hb := HashOf(gb.value.doc);
          if hb.Err? then Err(hb.error)
          else Ok(if ha.value == hb.value then 0 else 1)
  }

  /** A canonical mapping's `opal_hash` is the digest of its serial. */
  lemma HashRead(doc: Fields, digest: Json -> string)
    requires Canonicalize(doc, digest).Ok?
    ensures HashOf(Canonicalize(doc, digest).value.doc) == Ok(Some(Str(Canonicalize(doc, digest).value.hash)))
  {
    CanonicalizeSpec(doc, digest);
  }

  /**
   * The comparison fails only when a document cannot be canonicalised; it
   * exits 0 exactly when the two hashes are equal and 1 otherwise, and,
   * when the digest does not collide on the two serials, 0 exactly when the
   * serials are equal.
   */
  lemma ExitCodeSpec(docA: Fields, docB: Fields, digest: Json -> string)
    ensures ExitCode(docA, docB, digest).Ok? <==> Canonicalize(docA, digest).Ok? && Canonicalize(docB, digest).Ok?
    ensures ExitCode(docA, docB, digest).Ok? ==>
      var ca := Canonicalize(docA, digest).value;
      var cb := Canonicalize(docB, digest).value;
      && (ExitCode(docA, docB, digest).value == 0 <==> ca.hash == cb.hash)
      && (ExitCode(docA, docB, digest).value == 0 || ExitCode(docA, docB, digest).value == 1)
      && (Separates(digest, ca.serial, cb.serial) ==>
            (ExitCode(docA, docB, digest).value == 0 <==> ca.serial == cb.serial))
  {
    if Canonicalize(docA, digest).Ok? && Canonicalize(docB, digest).Ok? {
      HashRead(docA, digest);
      HashRead(docB, digest);
      CanonicalizeSpec(docA, digest);
      CanonicalizeSpec(docB, digest);
    }
  }

  /**
   * Two documents that agree on every key the serial projects, on the
   * claimed witness and on the provenance fields the serial keeps are
   * reported equivalent whenever they canonicalise.
   */
  lemma CongruentEquivalent(docA: Fields, docB: Fields, digest: Json -> string)
    requires forall k :: k in PROJECTED ==> Lookup(docA, k) == Lookup(docB, k)
    requires WitnessOf(docA) == WitnessOf(docB)
    requires ProvenanceOf(docA).Err? == ProvenanceOf(docB).Err?
    requires ProvenanceOf(docA).Ok? && ProvenanceOf(docB).Ok? ==>
      ProvenanceView(ProvenanceOf(docA).value) == ProvenanceView(ProvenanceOf(docB).value)
    ensures Canonicalize(docA, digest).Ok? ==> ExitCode(docA, docB, digest) == Ok(0)
  {
    CanonicalizeCongruence(docA, docB, digest);
    ExitCodeSpec(docA, docB, digest);
  }
}
