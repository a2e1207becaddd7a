/** Weight normalisation (gkpo.py `_canonicalize_weight`). */
module Weight {
  import opened Wrappers
  import opened JsonValue
  import opened Sorting
  import opened Rounding
  import opened GkpoBase

  /** `dict(w or {})`: a falsy value gives `{}`, a mapping is copied, anything else raises. */
  function WeightDict(w: Json): Result<Fields, Error> {
    if !Truthy(w) then Ok([])
    else if w.Obj? then Ok(w.fields)
    else Err(TypeError("dict(weight)"))
  }

  /** The form a weight mapping has after `setdefault("form", "constant")`. */
  function FormOf(fs: Fields): Json {
    Get(fs, "form", Str("constant"))
  }

  /** `[str(s) for s in xs]`. */
  function StrList(xs: seq<Json>): (r: seq<Json>)
    ensures |r| == |xs| && forall i :: 0 <= i < |xs| ==> r[i] == Str(PyStr(xs[i]))
  {
    seq(|xs|, i requires 0 <= i < |xs| => Str(PyStr(xs[i])))
  }

  /** `if w["form"] == "constant": w["constant"] = _round_num(float(w.get("constant", 1.0)))` */
  function WithConstant(w1: Fields): Result<Fields, Error> {
    if FormOf(w1) == Str("constant") then
      var c :- ToFloat(Get(w1, "constant", Num(1.0)));
      Ok(Set(w1, "constant", RoundNum(Num(c))))
    else Ok(w1)
  }

  /** `if "factors" in w and isinstance(w["factors"], list): w["factors"] = sorted(...)` */
  function WithFactors(w2: Fields): Fields {
    match Lookup(w2, "factors")
    case Some(Arr(xs)) => Set(w2, "factors", Arr(SortBy(StrList(xs), PyStr)))
    case _ => w2
  }

  /**
   * `_canonicalize_weight`: the form defaults to "constant"; a constant form
   * gets `constant` = the rounded float of its constant (default 1.0); a list
   * of factors becomes the sorted list of their strings; every other key
   * passes through.  `float()` of a non-number raises.
   */
  function CanonWeight(w: Json): (r: Result<Fields, Error>)
    ensures r.Err? <==>
      WeightDict(w).Err? ||
      (FormOf(WeightDict(w).value) == Str("constant") &&
       ToFloat(Get(WeightDict(w).value, "constant", Num(1.0))).Err?)
    ensures r.Ok? ==>
      var fs := WeightDict(w).value;
      && Lookup(r.value, "form") == Some(FormOf(fs))
      && (FormOf(fs) == Str("constant") ==>
            Lookup(r.value, "constant") ==
              Some(Num(Round(ToFloat(Get(fs, "constant", Num(1.0))).value))))
      && (FormOf(fs) != Str("constant") ==> Lookup(r.value, "constant") == Lookup(fs, "constant"))
      && (forall k :: k != "form" && k != "constant" && k != "factors" ==>
            Lookup(r.value, k) == Lookup(fs, k))
  {
    var fs :- WeightDict(w);
    var w2 :- WithConstant(SetDefault(fs, "form", Str("constant")));
    Ok(WithFactors(w2))
  }

  /**
   * The factors entry: a list becomes a sorted permutation of the strings of
   * its elements, anything else passes through.
   */
  lemma CanonWeightFactors(w: Json)
    requires CanonWeight(w).Ok?
    ensures var fs := WeightDict(w).value;
      var out := Lookup(CanonWeight(w).value, "factors");
      match Lookup(fs, "factors")
      case Some(Arr(xs)) =>
        && out.Some? && out.value.Arr?
        && |out.value.items| == |xs|
        && (forall i :: 0 <= i < |xs| ==> out.value.items[i].Str?)
        && SortedBy(out.value.items, PyStr)
        && multiset(out.value.items) == multiset(StrList(xs))
      case _ => out == Lookup(fs, "factors")
  {
    var fs := WeightDict(w).value;
    var w2 := WithConstant(SetDefault(fs, "form", Str("constant"))).value;
    assert CanonWeight(w) == Ok(WithFactors(w2));
    FactorsKept(fs);
    if Lookup(fs, "factors").Some? && Lookup(fs, "factors").value.Arr? {
      SortedStrings(Lookup(fs, "factors").value.items);
    }
  }

  /** `sorted(str(s) for s in xs)`: sorted strings, a permutation of those of `xs`. */
  lemma SortedStrings(xs: seq<Json>)
    ensures var s := SortBy(StrList(xs), PyStr);
      && |s| == |xs| && (forall i :: 0 <= i < |s| ==> s[i].Str?)
      && SortedBy(s, PyStr) && multiset(s) == multiset(StrList(xs))
  {
    var s := SortBy(StrList(xs), PyStr);
    SortBySorted(StrList(xs), PyStr);
    SortByPerm(StrList(xs), PyStr);
    forall i | 0 <= i < |s| ensures s[i].Str? {
      PermMemberStr(s, StrList(xs), i);
    }
  }

  /** Defaulting the form and rounding the constant leave `factors` alone. */
  lemma FactorsKept(fs: Fields)
    requires WithConstant(SetDefault(fs, "form", Str("constant"))).Ok?
    ensures Lookup(WithConstant(SetDefault(fs, "form", Str("constant"))).value, "factors") == Lookup(fs, "factors")
  {
    assert "factors"[1] != "form"[1] && "factors"[0] != "constant"[0];
  }

  lemma PermMemberStr(r: seq<Json>, s: seq<Json>, i: nat)
    requires multiset(r) == multiset(s) && i < |r|
    requires forall m :: 0 <= m < |s| ==> s[m].Str?
    ensures r[i].Str?
  {
    assert r[i] in multiset(s);
  }

  /** The normalised weight is a truthy mapping: it always holds `form`. */
  lemma CanonWeightNonEmpty(w: Json)
    requires CanonWeight(w).Ok?
    ensures |CanonWeight(w).value| > 0
  {
    assert "form" in KeySet(CanonWeight(w).value);
  }

  lemma WeightDictOfObj(fs: Fields)
    requires |fs| > 0
    ensures WeightDict(Obj(fs)) == Ok(fs)
  {
  }

  lemma WithConstantFixed(x: Fields)
    requires FormOf(x) == Str("constant") ==>
      exists r :: Lookup(x, "constant") == Some(Num(r)) && Round(r) == r
    ensures WithConstant(x) == Ok(x)
  {
    if FormOf(x) == Str("constant") {
      var r :| Lookup(x, "constant") == Some(Num(r)) && Round(r) == r;
      SetSame(x, "constant", Num(r));
    }
  }

  lemma WithFactorsFixed(w2: Fields)
    ensures WithFactors(WithFactors(w2)) == WithFactors(w2)
  {
    match Lookup(w2, "factors")
    case Some(Arr(xs)) =>
      var ys := SortBy(StrList(xs), PyStr);
      SortedStrings(xs);
      assert StrList(ys) == ys;
      SortBySortedIsIdentity(ys, PyStr);
      SetSame(WithFactors(w2), "factors", Arr(ys));
    case _ =>
  }

  /** Normalising a normalised weight changes nothing. */
  lemma CanonWeightIdempotent(w: Json)
    requires CanonWeight(w).Ok?
    ensures CanonWeight(Obj(CanonWeight(w).value)) == CanonWeight(w)
  {
    var out := CanonWeight(w).value;
    CanonWeightNonEmpty(w);
    WeightDictOfObj(out);
    var fs := WeightDict(w).value;
    var w2 := WithConstant(SetDefault(fs, "form", Str("constant"))).value;
    assert out == WithFactors(w2);
    assert SetDefault(out, "form", Str("constant")) == out;
    if FormOf(out) == Str("constant") {
      var x := ToFloat(Get(fs, "constant", Num(1.0))).value;
      RoundIdempotent(x);
      assert Lookup(out, "constant") == Some(Num(Round(x)));
    }
    WithConstantFixed(out);
    WithFactorsFixed(w2);
  }
}
