/** Penalty normalisation (gkpo.py `_canonical_sort_penalties`). */
module Penalties {
  import opened Wrappers
  import opened JsonValue
  import opened Sorting
  import opened Rounding
  import opened KeySort
  import opened GkpoBase

  /**
   * `dict(p)` for one penalty entry: a mapping is copied, an empty list or an
   * empty string gives `{}`, anything else raises.
   */
  function DictOf(p: Json): Result<Fields, Error> {
    match p
    case Obj(fs) => Ok(fs)
    case Arr(xs) => if |xs| == 0 then Ok([]) else Err(TypeError("dict(penalty)"))
    case Str(s) => if |s| == 0 then Ok([]) else Err(TypeError("dict(penalty)"))
    case _ => Err(TypeError("dict(penalty)"))
  }

  /** `pens or []` iterated: a falsy value is empty, a list gives its items. */
  function PenaltyItems(pens: Json): Result<seq<Json>, Error> {
    if !Truthy(pens) then Ok([])
    else if pens.Arr? then Ok(pens.items)
    else Err(TypeError("iterate penalties"))
  }

  /** The sort key `str(z.get("name", ""))`. */
  function PenaltyKey(p: Json): string {
    if p.Obj? then PyStr(Get(p.fields, "name", Str(""))) else ""
  }

  /**
   * The copy `q` of one entry: `lambda` rounded where present, a `meta`
   * mapping rebuilt in ascending key order (one level only), everything else
   * as it was.
   */
  function NormalizePenalty(p: Json): Result<Fields, Error> {
    var q :- DictOf(p);
    var q1 := if "lambda" in KeySet(q) then Set(q, "lambda", RoundNum(Lookup(q, "lambda").value)) else q;
    Ok(SortMeta(q1))
  }

  /**
   * Normalising an entry raises exactly when `dict()` does; it rounds
   * `lambda`, puts a `meta` mapping in key order with the same entries, and
   * keeps every other key.
   */
  lemma NormalizePenaltySpec(p: Json)
    ensures NormalizePenalty(p).Ok? <==> DictOf(p).Ok?
    ensures NormalizePenalty(p).Ok? ==>
      var q := DictOf(p).value;
      var r := NormalizePenalty(p).value;
      && (forall k :: k != "lambda" && k != "meta" ==> Lookup(r, k) == Lookup(q, k))
      && (match Lookup(q, "lambda")
          case Some(v) => Lookup(r, "lambda") == Some(RoundNum(v))
          case None => Lookup(r, "lambda") == None)
      && (match Lookup(q, "meta")
          case Some(Obj(m)) =>
            exists m' :: Lookup(r, "meta") == Some(Obj(m')) &&
              SortedBy(m', Key) && multiset(m') == multiset(m) &&
              forall k :: Lookup(m', k) == Lookup(m, k)
          case _ => Lookup(r, "meta") == Lookup(q, "meta"))
  {
    if DictOf(p).Ok? {
      var q := DictOf(p).value;
      var q1 := if "lambda" in KeySet(q) then Set(q, "lambda", RoundNum(Lookup(q, "lambda").value)) else q;
      assert NormalizePenalty(p) == Ok(SortMeta(q1));
      assert "meta"[0] != "lambda"[0];
      assert Lookup(q1, "meta") == Lookup(q, "meta");
      SortMetaAt(q1);
      if Lookup(q, "meta").Some? && Lookup(q, "meta").value.Obj? {
        SortByKeepsEntries(Lookup(q, "meta").value.fields);
      }
    }
  }

  /** Sorting `meta` changes no other key. */
  lemma SortMetaAt(q1: Fields)
    ensures forall k :: k != "meta" ==> Lookup(SortMeta(q1), k) == Lookup(q1, k)
    ensures match Lookup(q1, "meta")
      case Some(Obj(m)) => Lookup(SortMeta(q1), "meta") == Some(Obj(SortBy(m, Key)))
      case _ => Lookup(SortMeta(q1), "meta") == Lookup(q1, "meta")
  {
  }

  /** `q["meta"] = {k: q["meta"][k] for k in sorted(q["meta"].keys())}` for a mapping `meta`. */
  function SortMeta(q1: Fields): Fields {
    match Lookup(q1, "meta")
    case Some(Obj(m)) => Set(q1, "meta", Obj(SortBy(m, Key)))
    case _ => q1
  }

  lemma SortByKeepsEntries(m: Fields)
    ensures SortedBy(SortBy(m, Key), Key) && multiset(SortBy(m, Key)) == multiset(m)
    ensures forall k :: Lookup(SortBy(m, Key), k) == Lookup(m, k)
  {
    SortBySorted(m, Key);
    SortByPerm(m, Key);
    forall k ensures Lookup(SortBy(m, Key), k) == Lookup(m, k) { LookupSortBy(m, k); }
  }

  /** Normalise every entry, in order; the first entry that raises decides. */
  function NormalizeAll(xs: seq<Json>): (r: Result<seq<Json>, Error>)
    ensures r.Ok? ==> |r.value| == |xs|
  {
    if |xs| == 0 then Ok([])
    else
      var init :- NormalizeAll(xs[..|xs| - 1]);
      var q :- NormalizePenalty(xs[|xs| - 1]);
      Ok(init + [Obj(q)])
  }

  /** `_canonical_sort_penalties` on a list value. */
  function SortPenalties(pens: Json): Result<seq<Json>, Error> {
    var xs :- PenaltyItems(pens);
    var normed :- NormalizeAll(xs);
    Ok(SortBy(normed, PenaltyKey))
  }

  lemma {:induction false} NormalizeAllSpec(xs: seq<Json>)
    ensures NormalizeAll(xs).Ok? <==> forall i :: 0 <= i < |xs| ==> DictOf(xs[i]).Ok?
    ensures NormalizeAll(xs).Ok? ==>
      forall i :: 0 <= i < |xs| ==> NormalizeAll(xs).value[i] == Obj(NormalizePenalty(xs[i]).value)
    decreases |xs|
  {
    if |xs| > 0 {
      var init, last := xs[..|xs| - 1], xs[|xs| - 1];
      NormalizeAllSpec(init);
      NormalizeOk(last);
      var ri := NormalizeAll(init);
      var rl := NormalizePenalty(last);
      if ri.Err? {
        assert NormalizeAll(xs) == Err(ri.error);
        var i :| 0 <= i < |init| && DictOf(init[i]).Err?;
        assert init[i] == xs[i];
      } else if rl.Err? {
        assert NormalizeAll(xs) == Err(rl.error);
        assert DictOf(xs[|xs| - 1]).Err?;
      } else {
        var r := ri.value + [Obj(rl.value)];
        assert NormalizeAll(xs) == Ok(r);
        forall i | 0 <= i < |xs| ensures DictOf(xs[i]).Ok? && r[i] == Obj(NormalizePenalty(xs[i]).value) {
          if i < |init| {
            assert init[i] == xs[i];
            assert r[i] == ri.value[i];
          }
        }
      }
    }
  }

  lemma NormalizeOk(p: Json)
    ensures NormalizePenalty(p).Ok? <==> DictOf(p).Ok?
  {
  }

  /** Normalising an entry does not change its name, so neither its sort key. */
  lemma NormalizeKeepsKey(p: Json)
    requires DictOf(p).Ok?
    ensures PenaltyKey(Obj(NormalizePenalty(p).value)) == PenaltyKey(Obj(DictOf(p).value))
  {
    NormalizePenaltySpec(p);
  }

  /**
   * The result is a permutation of the normalised entries, as long as the
   * input; it is ordered by name; entries with the same name keep their
   * input order; every `lambda` is rounded and every `meta` mapping is in key
   * order.  It raises exactly when the value is neither falsy nor a list, or
   * an entry is not a mapping.
   */
  lemma SortPenaltiesSpec(pens: Json)
    ensures SortPenalties(pens).Err? <==>
      PenaltyItems(pens).Err? ||
      exists i :: 0 <= i < |PenaltyItems(pens).value| && DictOf(PenaltyItems(pens).value[i]).Err?
    ensures SortPenalties(pens).Ok? ==>
      var xs := PenaltyItems(pens).value;
      var normed := NormalizeAll(xs).value;
      var r := SortPenalties(pens).value;
      && |r| == |xs|
      && multiset(r) == multiset(normed)
      && SortedBy(r, PenaltyKey)
      && (forall k :: Filter(r, PenaltyKey, k) == Filter(normed, PenaltyKey, k))
      && (forall i :: 0 <= i < |xs| ==>
            normed[i] == Obj(NormalizePenalty(xs[i]).value) &&
            PenaltyKey(normed[i]) == PenaltyKey(Obj(DictOf(xs[i]).value)))
      && (forall i :: 0 <= i < |r| ==> NormalShape(r[i]))
  {
    if PenaltyItems(pens).Ok? {
      var xs := PenaltyItems(pens).value;
      NormalizeAllSpec(xs);
      if NormalizeAll(xs).Ok? {
        var normed := NormalizeAll(xs).value;
        var r := SortBy(normed, PenaltyKey);
        SortByPerm(normed, PenaltyKey);
        SortBySorted(normed, PenaltyKey);
        forall k ensures Filter(r, PenaltyKey, k) == Filter(normed, PenaltyKey, k) {
          SortByStable(normed, PenaltyKey, k);
        }
        forall i | 0 <= i < |xs| ensures NormalShape(normed[i]) && PenaltyKey(normed[i]) == PenaltyKey(Obj(DictOf(xs[i]).value)) {
          NormalizeShape(xs[i]);
          NormalizeKeepsKey(xs[i]);
        }
        forall i | 0 <= i < |r| ensures NormalShape(r[i]) {
          PermMember(r, normed, i);
        }
      }
    }
  }

  /** An entry as normalisation leaves it: a mapping, `lambda` rounded, `meta` in key order. */
  predicate NormalShape(p: Json) {
    && p.Obj?
    && (match Lookup(p.fields, "lambda")
        case Some(v) => RoundNum(v) == v
        case None => true)
    && (match Lookup(p.fields, "meta")
        case Some(Obj(m)) => SortedBy(m, Key)
        case _ => true)
  }

  lemma NormalizeShape(p: Json)
    requires DictOf(p).Ok?
    ensures NormalShape(Obj(NormalizePenalty(p).value))
  {
    var q := DictOf(p).value;
    NormalizePenaltySpec(p);
    match Lookup(q, "lambda")
    case Some(v) =>
      if v.Num? { RoundIdempotent(v.x); }
    case None =>
  }

  /** An entry already in normal shape is left as it is. */
  lemma NormalizeFixesNormal(p: Json)
    requires NormalShape(p)
    ensures NormalizePenalty(p) == Ok(p.fields)
  {
    var q := p.fields;
    if "lambda" in KeySet(q) {
      SetSame(q, "lambda", Lookup(q, "lambda").value);
    }
    match Lookup(q, "meta")
    case Some(Obj(m)) =>
      SortBySortedIsIdentity(m, Key);
      SetSame(q, "meta", Obj(m));
    case _ =>
  }

  lemma {:induction false} NormalizeAllFixesNormal(xs: seq<Json>)
    requires forall i :: 0 <= i < |xs| ==> NormalShape(xs[i])
    ensures NormalizeAll(xs) == Ok(xs)
    decreases |xs|
  {
    if |xs| > 0 {
      NormalizeAllFixesNormal(xs[..|xs| - 1]);
      NormalizeFixesNormal(xs[|xs| - 1]);
      assert xs[..|xs| - 1] + [Obj(xs[|xs| - 1].fields)] == xs;
    }
  }

  /** Normalising the normalised penalties gives them back unchanged. */
  lemma SortPenaltiesIdempotent(pens: Json)
    requires SortPenalties(pens).Ok?
    ensures SortPenalties(Arr(SortPenalties(pens).value)) == SortPenalties(pens)
  {
    var r := SortPenalties(pens).value;
    SortPenaltiesSpec(pens);
    NormalizeAllFixesNormal(r);
    SortBySortedIsIdentity(r, PenaltyKey);
  }

  /** Once a prefix raises, the whole list raises the same error. */
  lemma {:induction false} NormalizeAllErrPrefix(xs: seq<Json>, n: nat)
    requires n <= |xs| && NormalizeAll(xs[..n]).Err?
    ensures NormalizeAll(xs) == NormalizeAll(xs[..n])
    decreases |xs|
  {
    if n < |xs| {
      var init := xs[..|xs| - 1];
      assert init[..n] == xs[..n];
      NormalizeAllErrPrefix(init, n);
    } else {
      assert xs[..n] == xs;
    }
  }

  /**
   * `_canonical_sort_penalties`: copy and normalise each entry into `out`,
   * then sort `out` by name.
   */
  method CanonicalSortPenalties(pens: Json) returns (r: Result<seq<Json>, Error>)
    ensures r == SortPenalties(pens)
  {
    var xs;
    match PenaltyItems(pens)
    case Err(e) => return Err(e);
    case Ok(items) => xs := items;
    var out: seq<Json> := [];
    var i := 0;
    while i < |xs|
      invariant 0 <= i <= |xs|
      invariant NormalizeAll(xs[..i]) == Ok(out)
    {
      assert xs[..i + 1][..i] == xs[..i];
      var q := NormalizePenalty(xs[i]);
      if q.Err? {
        NormalizeAllErrPrefix(xs, i + 1);
        return Err(q.error);
      }
      out := out + [Obj(q.value)];
      i := i + 1;
    }
    assert xs[..i] == xs;
    out := StableSort(out, PenaltyKey);
    r := Ok(out);
  }
}
