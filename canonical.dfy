/**
 * `canonicalize_and_hash` (gkpo.py): fill in the defaults, normalise the
 * weight and the penalties, recompute the reducibility record, build the
 * fixed eleven-key projection, round and key-sort it, and hash it.
 */
module Canonicalization {
  import opened Wrappers
  import opened JsonValue
  import opened StrOrder
  import opened Sorting
  import opened Rounding
  import opened KeySort
  import opened GkpoBase
  import opened Weight
  import opened Penalties
  import opened Reducibility

  const DEFAULT_WEIGHT: Json := Obj([("form", Str("constant")), ("constant", Num(1.0))])
  const DEFAULT_REFERENCE: Json := Obj([("form", Str("fixed_zero")), ("value", Num(0.0))])
  const DEFAULT_DATASET_OPS: Json :=
    Obj([("group_weights", Arr([])), ("group_penalties", Arr([])),
         ("composition", Str("dataset_then_policy"))])

  /** The value `setdefault` installs under each defaulted key. */
  function Default(k: string): Option<Json> {
    if k == "version" then Some(Str(SCHEMA_VERSION))
    else if k == "reference" then Some(DEFAULT_REFERENCE)
    else if k == "link" then Some(Str("identity"))
    else if k == "loss" then Some(Str("logistic"))
    else if k == "beta" then Some(Num(1.0))
    else if k == "dataset_ops" then Some(DEFAULT_DATASET_OPS)
    else if k == "provenance" then Some(Obj([]))
    else None
  }

  /** The keys of the hashed projection. */
  const SERIAL_KEYS: set<string> :=
    {"version", "score", "weight", "reference", "link", "loss", "beta",
     "penalties", "dataset_ops", "reducibility", "provenance"}

  /** The top-level keys the projection copies from `g` as they are. */
  const PROJECTED: set<string> :=
    {"version", "score", "weight", "reference", "link", "loss", "beta",
     "penalties", "dataset_ops"}

  /**
   * The outcome of one call: `doc` is the returned `g`, `serial` the rounded
   * and key-sorted projection (stored as `_canonical_serial`), `hash` the
   * digest of the serial (stored as `provenance.opal_hash`), and `caller` the
   * caller's own mapping afterwards: the copy of `g` is shallow, so a
   * provenance mapping the caller supplied is the one that gets `opal_hash`.
   */
  datatype Canonical = Canonical(doc: Fields, serial: Json, hash: string, caller: Fields)

  /**
   * The digest does not collide on `a` and `b`: equal digests only for equal
   * values.  SHA-256 is assumed to be collision-free on the serials one
   * compares, never on all values at once.
   */
  predicate Separates(digest: Json -> string, a: Json, b: Json) {
    digest(a) == digest(b) ==> a == b
  }

  /** `g.get("weight") or {"form": "constant", "constant": 1.0}` */
  function WeightIn(doc: Fields): Json {
    OrDefault(Lookup(doc, "weight"), DEFAULT_WEIGHT)
  }

  /** `g.get("penalties") or []` */
  function PenaltiesIn(doc: Fields): Json {
    OrDefault(Lookup(doc, "penalties"), Arr([]))
  }

  /** The reference, link, loss and beta steps, after the weight is set. */
  function Middle(g0: Fields, w: Fields): Fields {
    SetDefault(SetDefault(SetDefault(SetDefault(Set(g0, "weight", Obj(w)),
      "reference", DEFAULT_REFERENCE), "link", Str("identity")),
      "loss", Str("logistic")), "beta", Num(1.0))
  }

  /** The penalties, dataset_ops and provenance steps. */
  function Last(g1: Fields, ps: seq<Json>): Fields {
    SetDefault(SetDefault(Set(g1, "penalties", Arr(ps)), "dataset_ops", DEFAULT_DATASET_OPS),
      "provenance", Obj([]))
  }

  /** `g` after the assignments of gkpo.py lines 72-81, given the normalised weight and penalties. */
  function Build(doc: Fields, w: Fields, ps: seq<Json>): Fields {
    Last(Middle(SetDefault(doc, "version", Str(SCHEMA_VERSION)), w), ps)
  }

  /**
   * `g` up to the reducibility step: the version, reference, link, loss,
   * beta, dataset_ops and provenance defaults, the normalised weight and the
   * normalised penalties.  The weight and the penalties are read from the
   * caller's mapping: the `setdefault` calls before them touch other keys.
   */
  function Prepare(doc: Fields): Result<Fields, Error> {
    var w := CanonWeight(WeightIn(doc));
    if w.Err? then Err(w.error)
    else
      var ps := SortPenalties(PenaltiesIn(doc));
      if ps.Err? then Err(ps.error)
      else Ok(Build(doc, w.value, ps.value))
  }

  /** `{k: prov.get(k) for k in ["method", "citations", "notes"]}` */
  function ProvenanceView(pf: Fields): Json {
    Obj([("method", Get(pf, "method", Null)), ("citations", Get(pf, "citations", Null)),
         ("notes", Get(pf, "notes", Null))])
  }

  /** The eleven-key projection of `g`, before rounding and sorting. */
  function Projection(g: Fields, pf: Fields): Json {
    Obj([("version", Get(g, "version", Null)), ("score", Get(g, "score", Null)),
         ("weight", Get(g, "weight", Null)), ("reference", Get(g, "reference", Null)),
         ("link", Get(g, "link", Null)), ("loss", Get(g, "loss", Null)),
         ("beta", Get(g, "beta", Null)), ("penalties", Get(g, "penalties", Null)),
         ("dataset_ops", Get(g, "dataset_ops", Null)),
         ("reducibility", Get(g, "reducibility", Null)),
         ("provenance", ProvenanceView(pf))])
  }

  /** The provenance mapping of `doc` after `setdefault`, when it is a mapping. */
  function ProvenanceOf(doc: Fields): Result<Fields, Error> {
    match Lookup(doc, "provenance")
    case None => Ok([])
    case Some(Obj(pf)) => Ok(pf)
    case Some(_) => Err(TypeError("provenance.get"))
  }

  /** `g["reducibility"] = {...}`: the recomputed record replaces the caller's. */
  function Record(g: Fields, red: Classification): Fields {
    Set(g, "reducibility", ClassificationJson(red))
  }

  /** The projection, rounded, then key-sorted. */
  function SerialOf(g1: Fields, pf: Fields): Json {
    SortedObj(RoundAll(Projection(g1, pf)))
  }

  /**
   * Hash the serial, write `opal_hash` into the (shared) provenance mapping
   * and store the serial as `_canonical_serial`.
   */
  function Finish(doc: Fields, g1: Fields, pf: Fields, digest: Json -> string): Canonical {
    var serial := SerialOf(g1, pf);
    var h := digest(serial);
    var stamped := Obj(Set(pf, "opal_hash", Str(h)));
    Canonical(Set(Set(g1, "provenance", stamped), "_canonical_serial", serial), serial, h,
      if "provenance" in KeySet(doc) then Set(doc, "provenance", stamped) else doc)
  }

  /**
   * `canonicalize_and_hash`; `digest` stands for SHA-256 of the compact JSON
   * encoding of the serial.  The provenance mapping `g` holds is the
   * caller's, or a fresh `{}`; reading it fails when it is not a mapping.
   */
  function Canonicalize(doc: Fields, digest: Json -> string): Result<Canonical, Error> {
    var g := Prepare(doc);
    if g.Err? then Err(g.error)
    else
      var red := Classify(g.value);
      if red.Err? then Err(red.error)
      else
        var pf := ProvenanceOf(doc);
        if pf.Err? then Err(pf.error)
        else Ok(Finish(doc, Record(g.value, red.value), pf.value, digest))
  }

  /**
   * What `g` holds under `k` after line 81, given the normalised weight and
   * penalties: the caller's value where there is one, else the default.
   */
  function PreparedAt(doc: Fields, w: Fields, ps: seq<Json>, k: string): Option<Json> {
    if k == "weight" then Some(Obj(w))
    else if k == "penalties" then Some(Arr(ps))
    else if Default(k).Some? then Some(Lookup(doc, k).GetOr(Default(k).value))
    else Lookup(doc, k)
  }

  /**
   * Defaults are filled in only where the key is absent; the weight and the
   * penalties are always replaced by their normalised forms; every other key
   * is untouched.  The step fails exactly when normalising the weight or the
   * penalties raises.
   */
  lemma PrepareSpec(doc: Fields)
    ensures Prepare(doc).Err? <==> CanonWeight(WeightIn(doc)).Err? || SortPenalties(PenaltiesIn(doc)).Err?
    ensures Prepare(doc).Ok? ==>
      forall k :: Lookup(Prepare(doc).value, k) ==
        PreparedAt(doc, CanonWeight(WeightIn(doc)).value, SortPenalties(PenaltiesIn(doc)).value, k)
  {
    if Prepare(doc).Ok? {
      var w := CanonWeight(WeightIn(doc)).value;
      var ps := SortPenalties(PenaltiesIn(doc)).value;
      forall k ensures Lookup(Build(doc, w, ps), k) == PreparedAt(doc, w, ps, k) {
        BuildLookup(doc, w, ps, k);
      }
    }
  }

  lemma PrepareIs(doc: Fields)
    requires Prepare(doc).Ok?
    ensures CanonWeight(WeightIn(doc)).Ok? && SortPenalties(PenaltiesIn(doc)).Ok?
    ensures Prepare(doc).value == Build(doc, CanonWeight(WeightIn(doc)).value, SortPenalties(PenaltiesIn(doc)).value)
  {
  }

  lemma SetAt(fs: Fields, k: string, v: Json, k': string)
    ensures Lookup(Set(fs, k, v), k') == if k' == k then Some(v) else Lookup(fs, k')
  {
  }

  lemma SetDefaultAt(fs: Fields, k: string, v: Json, k': string)
    ensures Lookup(SetDefault(fs, k, v), k') == if k' == k then Some(Lookup(fs, k).GetOr(v)) else Lookup(fs, k')
  {
  }

  lemma MiddleLookup(g0: Fields, w: Fields, k: string)
    ensures Lookup(Middle(g0, w), k) ==
      if k == "weight" then Some(Obj(w))
      else if k == "reference" then Some(Lookup(g0, k).GetOr(DEFAULT_REFERENCE))
      else if k == "link" then Some(Lookup(g0, k).GetOr(Str("identity")))
      else if k == "loss" then Some(Lookup(g0, k).GetOr(Str("logistic")))
      else if k == "beta" then Some(Lookup(g0, k).GetOr(Num(1.0)))
      else Lookup(g0, k)
  {
    var a1 := Set(g0, "weight", Obj(w));
    var a2 := SetDefault(a1, "reference", DEFAULT_REFERENCE);
    var a3 := SetDefault(a2, "link", Str("identity"));
    var a4 := SetDefault(a3, "loss", Str("logistic"));
    SetAt(g0, "weight", Obj(w), k);
    SetDefaultAt(a1, "reference", DEFAULT_REFERENCE, k);
    SetDefaultAt(a2, "link", Str("identity"), k);
    SetDefaultAt(a3, "loss", Str("logistic"), k);
    SetDefaultAt(a4, "beta", Num(1.0), k);
  }

  lemma LastLookup(g1: Fields, ps: seq<Json>, k: string)
    ensures Lookup(Last(g1, ps), k) ==
      if k == "penalties" then Some(Arr(ps))
      else if k == "dataset_ops" then Some(Lookup(g1, k).GetOr(DEFAULT_DATASET_OPS))
      else if k == "provenance" then Some(Lookup(g1, k).GetOr(Obj([])))
      else Lookup(g1, k)
  {
    var a6 := Set(g1, "penalties", Arr(ps));
    var a7 := SetDefault(a6, "dataset_ops", DEFAULT_DATASET_OPS);
    SetAt(g1, "penalties", Arr(ps), k);
    SetDefaultAt(a6, "dataset_ops", DEFAULT_DATASET_OPS, k);
    SetDefaultAt(a7, "provenance", Obj([]), k);
  }

  lemma BuildLookup(doc: Fields, w: Fields, ps: seq<Json>, k: string)
    ensures Lookup(Build(doc, w, ps), k) == PreparedAt(doc, w, ps, k)
  {
    var g0 := SetDefault(doc, "version", Str(SCHEMA_VERSION));
    SetDefaultAt(doc, "version", Str(SCHEMA_VERSION), k);
    MiddleLookup(g0, w, k);
    LastLookup(Middle(g0, w), ps, k);
  }

  /** The step-by-step `g` of lines 72-81 is `Build`, reading the caller's weight and penalties. */
  lemma BuildSteps(doc: Fields, w: Fields)
    ensures Lookup(SetDefault(doc, "version", Str(SCHEMA_VERSION)), "weight") == Lookup(doc, "weight")
    ensures Lookup(Middle(SetDefault(doc, "version", Str(SCHEMA_VERSION)), w), "penalties") == Lookup(doc, "penalties")
  {
    var g0 := SetDefault(doc, "version", Str(SCHEMA_VERSION));
    SetDefaultAt(doc, "version", Str(SCHEMA_VERSION), "penalties");
    MiddleLookup(g0, w, "penalties");
  }

  lemma CanonicalizeIs(doc: Fields, digest: Json -> string)
    requires Canonicalize(doc, digest).Ok?
    ensures Prepare(doc).Ok? && Classify(Prepare(doc).value).Ok? && ProvenanceOf(doc).Ok?
    ensures Canonicalize(doc, digest).value ==
      Finish(doc, Record(Prepare(doc).value, Classify(Prepare(doc).value).value), ProvenanceOf(doc).value, digest)
  {
  }

  /**
   * The returned document: `_canonical_serial` is the serial, provenance is
   * the caller's mapping (or `{}`) plus `opal_hash` = the digest of the
   * serial, and every other key is as `g1` holds it.  The caller's mapping
   * changes only in its provenance, and only when it supplied one.
   */
  lemma FinishSpec(doc: Fields, g1: Fields, pf: Fields, digest: Json -> string)
    ensures var c := Finish(doc, g1, pf, digest);
      && c.serial == SerialOf(g1, pf)
      && c.hash == digest(c.serial)
      && Lookup(c.doc, "_canonical_serial") == Some(c.serial)
      && Lookup(c.doc, "provenance") == Some(Obj(Set(pf, "opal_hash", Str(c.hash))))
      && (forall k :: k != "_canonical_serial" && k != "provenance" ==> Lookup(c.doc, k) == Lookup(g1, k))
      && (forall k :: k != "provenance" ==> Lookup(c.caller, k) == Lookup(doc, k))
      && Lookup(c.caller, "provenance") ==
           (if "provenance" in KeySet(doc) then Lookup(c.doc, "provenance") else None)
  {
    var c := Finish(doc, g1, pf, digest);
    var stamped := Obj(Set(pf, "opal_hash", Str(c.hash)));
    forall k ensures Lookup(c.doc, k) ==
      if k == "_canonical_serial" then Some(c.serial)
      else if k == "provenance" then Some(stamped)
      else Lookup(g1, k)
    {
      SetAt(g1, "provenance", stamped, k);
      SetAt(Set(g1, "provenance", stamped), "_canonical_serial", c.serial, k);
    }
  }

  /**
   * The returned document: the reducibility record is always recomputed
   * (whatever `inside_R` and `reasons` the caller claimed), `_canonical_serial`
   * is the serial, provenance gains `opal_hash` = the digest of the serial,
   * and every other key is as `Prepare` left it.  The caller's mapping
   * changes only in its provenance, and only when it supplied one.
   */
  lemma CanonicalizeSpec(doc: Fields, digest: Json -> string)
    requires Canonicalize(doc, digest).Ok?
    ensures Prepare(doc).Ok? && Classify(Prepare(doc).value).Ok? && ProvenanceOf(doc).Ok?
    ensures var c := Canonicalize(doc, digest).value;
      var g := Prepare(doc).value;
      && c.hash == digest(c.serial)
      && Lookup(c.doc, "reducibility") == Some(ClassificationJson(Classify(g).value))
      && Lookup(c.doc, "_canonical_serial") == Some(c.serial)
      && Lookup(c.doc, "provenance") == Some(Obj(Set(ProvenanceOf(doc).value, "opal_hash", Str(c.hash))))
      && (forall k :: k != "reducibility" && k != "_canonical_serial" && k != "provenance" ==>
            Lookup(c.doc, k) == Lookup(g, k))
      && (forall k :: k != "provenance" ==> Lookup(c.caller, k) == Lookup(doc, k))
      && Lookup(c.caller, "provenance") ==
           (if "provenance" in KeySet(doc) then Lookup(c.doc, "provenance") else None)
  {
    CanonicalizeIs(doc, digest);
    var g := Prepare(doc).value;
    var red := Classify(g).value;
    FinishSpec(doc, Record(g, red), ProvenanceOf(doc).value, digest);
    forall k ensures Lookup(Record(g, red), k) == if k == "reducibility" then Some(ClassificationJson(red)) else Lookup(g, k) {
      SetAt(g, "reducibility", ClassificationJson(red), k);
    }
  }

  /** After `Prepare`, provenance is the caller's value or `{}`. */
  lemma ProvenanceAfterPrepare(doc: Fields)
    requires Prepare(doc).Ok?
    ensures Lookup(Prepare(doc).value, "provenance") == Some(Lookup(doc, "provenance").GetOr(Obj([])))
  {
    PrepareIs(doc);
    var w := CanonWeight(WeightIn(doc)).value;
    var ps := SortPenalties(PenaltiesIn(doc)).value;
    BuildLookup(doc, w, ps, "provenance");
  }

  /** `g["provenance"].get` works exactly when the caller's provenance is absent or a mapping. */
  lemma ProvenanceMapping(doc: Fields, g: Fields)
    requires Lookup(g, "provenance") == Some(Lookup(doc, "provenance").GetOr(Obj([])))
    ensures Get(g, "provenance", Obj([])).Obj? <==> ProvenanceOf(doc).Ok?
    ensures ProvenanceOf(doc).Ok? ==> Get(g, "provenance", Obj([])) == Obj(ProvenanceOf(doc).value)
  {
  }

  /** Rounding a mapping keeps its keys, in order, and rounds each value. */
  lemma RoundAllFields(fs: Fields)
    ensures RoundAll(Obj(fs)).Obj? && |RoundAll(Obj(fs)).fields| == |fs|
    ensures forall i :: 0 <= i < |fs| ==> RoundAll(Obj(fs)).fields[i] == (fs[i].0, RoundAll(fs[i].1))
  {
  }

  /** A float-free-of-extra-decimals document stays so when its keys are sorted. */
  lemma {:induction false} SortedObjKeepsRounded(j: Json)
    requires Rounded(j)
    ensures Rounded(SortedObj(j))
    decreases j
  {
    match j
    case Obj(fs) =>
      var vs := SortedValues(fs);
      var r := SortBy(vs, Key);
      SortByPerm(vs, Key);
      forall i | 0 <= i < |r| ensures Rounded(r[i].1) {
        PermMember(r, vs, i);
        var m :| 0 <= m < |vs| && vs[m] == r[i];
        SortedObjKeepsRounded(fs[m].1);
      }
    case Arr(xs) =>
      forall i | 0 <= i < |xs| ensures Rounded(SortedObj(xs[i])) {
        SortedObjKeepsRounded(xs[i]);
      }
    case _ =>
  }

  lemma ProjectionEntries(g1: Fields, pf: Fields)
    ensures var p := Projection(g1, pf).fields;
      && |p| == 11 && p[10] == ("provenance", ProvenanceView(pf))
      && forall i :: 0 <= i < 10 ==> p[i].1 == Get(g1, p[i].0, Null)
  {
  }

  lemma ProjectionKeySet(g1: Fields, pf: Fields)
    ensures DistinctKeys(Projection(g1, pf).fields)
    ensures KeySet(Projection(g1, pf).fields) == SERIAL_KEYS
  {
    var p := Projection(g1, pf).fields;
    assert p[0].0 == "version" && p[1].0 == "score" && p[2].0 == "weight" && p[3].0 == "reference";
    assert p[4].0 == "link" && p[5].0 == "loss" && p[6].0 == "beta" && p[7].0 == "penalties";
    assert p[8].0 == "dataset_ops" && p[9].0 == "reducibility" && p[10].0 == "provenance";
    SerialKeysDistinct(p);
  }

  /** The eleven serial keys are pairwise different: by length, or else by one letter. */
  lemma SerialKeysDistinct(p: Fields)
    requires |p| == 11
    requires p[0].0 == "version" && p[1].0 == "score" && p[2].0 == "weight" && p[3].0 == "reference"
    requires p[4].0 == "link" && p[5].0 == "loss" && p[6].0 == "beta" && p[7].0 == "penalties"
    requires p[8].0 == "dataset_ops" && p[9].0 == "reducibility" && p[10].0 == "provenance"
    ensures DistinctKeys(p)
  {
    assert "reference"[0] != "penalties"[0] && "link"[1] != "loss"[1];
    assert "link"[0] != "beta"[0] && "loss"[0] != "beta"[0];
  }

  lemma ProjectionKeys(g1: Fields, pf: Fields)
    ensures var p := Projection(g1, pf).fields;
      && DistinctKeys(p) && KeySet(p) == SERIAL_KEYS
      && (forall k :: k in SERIAL_KEYS && k != "provenance" ==> Lookup(p, k) == Some(Get(g1, k, Null)))
      && Lookup(p, "provenance") == Some(ProvenanceView(pf))
  {
    var p := Projection(g1, pf).fields;
    ProjectionEntries(g1, pf);
    ProjectionKeySet(g1, pf);
    LookupAt(p, 10);
    LookupEntries(p, g1, "provenance");
  }

  /** Lookups in a mapping whose entries, but one, are read from `g1`. */
  lemma LookupEntries(p: Fields, g1: Fields, last: string)
    requires DistinctKeys(p)
    requires forall i :: 0 <= i < |p| && p[i].0 != last ==> p[i].1 == Get(g1, p[i].0, Null)
    ensures forall k :: k in KeySet(p) && k != last ==> Lookup(p, k) == Some(Get(g1, k, Null))
  {
    forall k | k in KeySet(p) && k != last ensures Lookup(p, k) == Some(Get(g1, k, Null)) {
      var i :| 0 <= i < |p| && p[i].0 == k;
      LookupAt(p, i);
    }
  }

  lemma ProvenanceViewKeys(pf: Fields)
    ensures var v := ProvenanceView(pf).fields;
      && DistinctKeys(v) && KeySet(v) == {"method", "citations", "notes"}
      && forall k :: k in {"method", "citations", "notes"} ==> Lookup(v, k) == Some(Get(pf, k, Null))
  {
    var v := ProvenanceView(pf).fields;
    forall i | 0 <= i < |v| ensures Lookup(v, v[i].0) == Some(v[i].1) {
      LookupAt(v, i);
    }
    assert v[0].0 == "method" && v[1].0 == "citations" && v[2].0 == "notes";
  }

  /**
   * Rounding and key-sorting a mapping with distinct keys: the same key set,
   * strictly ascending keys, and under each key the rounded, key-sorted value.
   */
  lemma RoundSortMapping(fs: Fields)
    requires DistinctKeys(fs)
    ensures var s := SortedObj(RoundAll(Obj(fs)));
      && s.Obj? && KeySet(s.fields) == KeySet(fs)
      && (forall a, b :: 0 <= a < b < |s.fields| ==> LexLt(s.fields[a].0, s.fields[b].0))
      && forall k :: k in KeySet(fs) ==> Lookup(s.fields, k) == Some(SortedObj(RoundAll(Lookup(fs, k).value)))
  {
    var rf := RoundAll(Obj(fs)).fields;
    RoundAllFields(fs);
    assert KeySet(rf) == KeySet(fs) by {
      forall x ensures x in KeySet(rf) <==> x in KeySet(fs) {
        if x in KeySet(fs) { var i :| 0 <= i < |fs| && fs[i].0 == x; assert rf[i].0 == x; }
        if x in KeySet(rf) { var i :| 0 <= i < |rf| && rf[i].0 == x; assert fs[i].0 == x; }
      }
    }
    forall k | k in KeySet(fs) ensures Lookup(rf, k) == Some(RoundAll(Lookup(fs, k).value)) {
      var i :| 0 <= i < |fs| && fs[i].0 == k;
      LookupAt(fs, i);
      LookupAt(rf, i);
    }
    SortedObjKeepsEntries(Obj(rf));
    var vs := SortedValues(rf);
    assert DistinctKeys(vs) by {
      forall a, b | 0 <= a < b < |vs| ensures vs[a].0 != vs[b].0 {
        assert vs[a].0 == fs[a].0 && vs[b].0 == fs[b].0;
      }
    }
    SortByStrict(vs);
  }

  /**
   * The serial is a mapping with exactly the eleven projection keys, in
   * strictly ascending order; under each key but provenance it holds the
   * rounded, key-sorted value of that key of `g1` (null where missing).
   */
  lemma SerialKeys(g1: Fields, pf: Fields)
    ensures var s := SerialOf(g1, pf);
      && s.Obj? && KeySet(s.fields) == SERIAL_KEYS
      && (forall a, b :: 0 <= a < b < |s.fields| ==> LexLt(s.fields[a].0, s.fields[b].0))
      && forall k :: k in SERIAL_KEYS && k != "provenance" ==>
           Lookup(s.fields, k) == Some(SortedObj(RoundAll(Get(g1, k, Null))))
  {
    ProjectionKeys(g1, pf);
    RoundSortMapping(Projection(g1, pf).fields);
  }

  /**
   * Under provenance the serial holds only method, citations and notes, each
   * rounded and key-sorted, null where the provenance mapping lacks it.
   */
  lemma SerialProvenance(g1: Fields, pf: Fields)
    ensures var s := SerialOf(g1, pf);
      && s.Obj? && Lookup(s.fields, "provenance").Some?
      && var pv := Lookup(s.fields, "provenance").value;
      && pv.Obj? && KeySet(pv.fields) == {"method", "citations", "notes"}
      && forall k :: k in {"method", "citations", "notes"} ==>
           Lookup(pv.fields, k) == Some(SortedObj(RoundAll(Get(pf, k, Null))))
  {
    assert Lookup(SerialOf(g1, pf).fields, "provenance") == Some(SortedObj(RoundAll(ProvenanceView(pf)))) by {
      ProjectionKeys(g1, pf);
      RoundSortMapping(Projection(g1, pf).fields);
    }
    ViewServed(pf);
  }

  lemma ViewServed(pf: Fields)
    ensures var pv := SortedObj(RoundAll(ProvenanceView(pf)));
      && pv.Obj? && KeySet(pv.fields) == {"method", "citations", "notes"}
      && forall k :: k in {"method", "citations", "notes"} ==>
           Lookup(pv.fields, k) == Some(SortedObj(RoundAll(Get(pf, k, Null))))
  {
    ProvenanceViewKeys(pf);
    RoundSortMapping(ProvenanceView(pf).fields);
  }

  /** The serial is key-sorted at every depth and holds only rounded floats. */
  lemma SerialNormal(g1: Fields, pf: Fields)
    ensures KeySorted(SerialOf(g1, pf)) && Rounded(SerialOf(g1, pf))
  {
    var p := Projection(g1, pf);
    SortedObjIsKeySorted(RoundAll(p));
    RoundAllShape(p);
    SortedObjKeepsRounded(RoundAll(p));
  }

  /**
   * Lines 72-81 as written: `g` is built up one assignment at a time, the
   * penalties by their loop.
   */
  method FillDefaults(doc: Fields) returns (r: Result<Fields, Error>)
    ensures r == Prepare(doc)
  {
    var g := SetDefault(doc, "version", Str(SCHEMA_VERSION));
    SetDefaultAt(doc, "version", Str(SCHEMA_VERSION), "weight");
    var w := CanonWeight(OrDefault(Lookup(g, "weight"), DEFAULT_WEIGHT));
    assert w == CanonWeight(WeightIn(doc));
    if w.Err? { return Err(w.error); }
    ghost var g0 := g;
    g := Set(g, "weight", Obj(w.value));
    g := SetDefault(g, "reference", DEFAULT_REFERENCE);
    g := SetDefault(g, "link", Str("identity"));
    g := SetDefault(g, "loss", Str("logistic"));
    g := SetDefault(g, "beta", Num(1.0));
    assert g == Middle(g0, w.value);
    BuildSteps(doc, w.value);
    var ps := CanonicalSortPenalties(OrDefault(Lookup(g, "penalties"), Arr([])));
    assert ps == SortPenalties(PenaltiesIn(doc));
    if ps.Err? { return Err(ps.error); }
    ghost var g1 := g;
    g := Set(g, "penalties", Arr(ps.value));
    g := SetDefault(g, "dataset_ops", DEFAULT_DATASET_OPS);
    g := SetDefault(g, "provenance", Obj([]));
    assert g == Last(g1, ps.value);
    r := Ok(g);
  }

  /**
   * `canonicalize_and_hash` as written: fill in `g`, classify it by the
   * loop, record the result, hash the projection and write the hash into the
   * provenance mapping.
   */
  method CanonicalizeAndHash(doc: Fields, digest: Json -> string) returns (r: Result<Canonical, Error>)
    ensures r == Canonicalize(doc, digest)
  {
    var prepared := FillDefaults(doc);
    if prepared.Err? { return Err(prepared.error); }
    var g := prepared.value;
    var red := InferReducibility(g);
    if red.Err? { return Err(red.error); }
    ProvenanceAfterPrepare(doc);
    g := Set(g, "reducibility", ClassificationJson(red.value));
    SetAt(prepared.value, "reducibility", ClassificationJson(red.value), "provenance");
    ProvenanceMapping(doc, g);
    var prov := Get(g, "provenance", Obj([]));
    if !prov.Obj? { return Err(TypeError("provenance.get")); }
    var serial := SortedObj(RoundAll(Projection(g, prov.fields)));
    var h := digest(serial);
    var stamped := Obj(Set(prov.fields, "opal_hash", Str(h)));
    var caller := doc;
    if "provenance" in KeySet(doc) {
      caller := Set(doc, "provenance", stamped);
    }
    assert Finish(doc, g, prov.fields, digest) ==
      Canonical(Set(Set(g, "provenance", stamped), "_canonical_serial", serial), serial, h, caller);
    g := Set(Set(g, "provenance", stamped), "_canonical_serial", serial);
    r := Ok(Canonical(g, serial, h, caller));
  }
}
