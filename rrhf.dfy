/** adapters/rrhf.py: an RRHF configuration to a canonical GKPO mapping and back. */
module Rrhf {
  import opened Wrappers
  import opened JsonValue
  import opened GkpoBase
  import opened Sorting
  import opened Rounding
  import opened KeySort
  import opened Penalties
  import opened Reducibility
  import opened Canonicalization
  import opened CanonicalLaws
  import opened Idempotence
  import opened Adapters
  import opened Dpo

  /** What `gkpo_to_rrhf` returns: the penalties, `delta_ref` and `beta`, as stored. */
  datatype RrhfConfig = RrhfConfig(penalties: seq<Json>, deltaRef: Json, beta: Json)

  const RRHF_CITATION: string := "yuan2023rrhf"

  /** A list comprehension whose element expression may raise: the first raise wins. */
  function MapEach(f: Json -> Result<Json, Error>, ps: seq<Json>): (r: Result<seq<Json>, Error>)
    ensures r.Ok? <==> forall i :: 0 <= i < |ps| ==> f(ps[i]).Ok?
    ensures r.Ok? ==> |r.value| == |ps| && forall i :: 0 <= i < |ps| ==> f(ps[i]) == Ok(r.value[i])
    ensures r.Err? ==> exists i :: 0 <= i < |ps| && f(ps[i]) == Err(r.error) && forall j :: 0 <= j < i ==> f(ps[j]).Ok?
  {
    if |ps| == 0 then Ok([])
    else
      var head := f(ps[0]);
      var tail := MapEach(f, ps[1..]);
      assert forall i :: 1 <= i < |ps| ==> ps[i] == ps[1..][i - 1];
      if head.Err? then Err(head.error)
      else if tail.Err? then
        var i :| 0 <= i < |ps| - 1 && f(ps[1..][i]) == Err(tail.error) && forall j :: 0 <= j < i ==> f(ps[1..][j]).Ok?;
        assert f(ps[i + 1]) == Err(tail.error) && forall j :: 0 <= j < i + 1 ==> f(ps[j]).Ok?;
        Err(tail.error)
      else Ok([head.value] + tail.value)
  }

  /** `p["name"]` and `p["lambda"]`: a missing key, or an entry that is not a mapping, raises. */
  function NameAndLambda(p: Json): Result<(Json, Json), Error> {
    if !p.Obj? then Err(TypeError("penalty[...]"))
    else if "name" !in KeySet(p.fields) then Err(TypeError("KeyError: name"))
    else if "lambda" !in KeySet(p.fields) then Err(TypeError("KeyError: lambda"))
    else Ok((Lookup(p.fields, "name").value, Lookup(p.fields, "lambda").value))
  }

  /** `{"name": name, "lambda": lambda}` */
  function Pair(name: Json, lambda: Json): Json {
    Obj([("name", name), ("lambda", lambda)])
  }

  /** `{"name": p["name"], "lambda": float(p["lambda"])}`, the entry `rrhf_to_gkpo` stores. */
  function RrhfEntry(p: Json): Result<Json, Error> {
    var nl := NameAndLambda(p);
    if nl.Err? then Err(nl.error)
    else
      var l := ToFloat(nl.value.1);
      if l.Err? then Err(l.error) else Ok(Pair(nl.value.0, Num(l.value)))
  }

  /** `{"name": p["name"], "lambda": p["lambda"]}`, the entry `gkpo_to_rrhf` reads back. */
  function ReadEntry(p: Json): Result<Json, Error> {
    var nl := NameAndLambda(p);
    if nl.Err? then Err(nl.error) else Ok(Pair(nl.value.0, nl.value.1))
  }

  /** The mapping `rrhf_to_gkpo` builds from the converted entries: provenance method "RRHF". */
  function RrhfDoc(entries: seq<Json>, deltaRef: real, beta: real, citations: Json): Fields {
    Template(deltaRef, beta, entries, "RRHF", CitationsOr(citations, RRHF_CITATION))
  }

  /** `rrhf_to_gkpo`: convert the entries, then canonicalise the RRHF mapping. */
  function RrhfToGkpo(penalties: seq<Json>, deltaRef: real, beta: real, citations: Json, digest: Json -> string)
    : Result<Canonical, Error>
  {
    var entries := MapEach(RrhfEntry, penalties);
    if entries.Err? then Err(entries.error)
    else Canonicalize(RrhfDoc(entries.value, deltaRef, beta, citations), digest)
  }

  /**
   * The reads of `gkpo_to_rrhf` from the canonical mapping `g2`: refuse a
   * mapping outside R, read each penalty's name and lambda, then the
   * reference's `value` (0.0 when absent) and `beta` (1.0), unconverted.
   */
  function RrhfRead(g2: Fields): Result<RrhfConfig, Error> {
    var rejected := Rejection(g2);
    if rejected.Some? then Err(rejected.value)
    else
      var pens := Get(g2, "penalties", Arr([]));
      if !pens.Arr? then Err(TypeError("iterate penalties"))
      else
        var read := MapEach(ReadEntry, pens.items);
        if read.Err? then Err(read.error)
        else
          var ref := Get(g2, "reference", Obj([]));
          if !ref.Obj? then Err(TypeError("reference.get"))
          else Ok(RrhfConfig(read.value, Get(ref.fields, "value", Num(0.0)), Get(g2, "beta", Num(1.0))))
  }

  /** `gkpo_to_rrhf`: canonicalise, then read the RRHF configuration back. */
  function GkpoToRrhf(g: Fields, digest: Json -> string): Result<RrhfConfig, Error> {
    var c := Canonicalize(g, digest);
    if c.Err? then Err(c.error) else RrhfRead(c.value.doc)
  }

  /** A `{"name": ..., "lambda": ...}` mapping, keys in that order. */
  predicate PairShaped(p: Json) {
    p.Obj? && |p.fields| == 2 && p.fields[0].0 == "name" && p.fields[1].0 == "lambda"
  }

  /** A pair with its lambda rounded, as penalty normalisation leaves it. */
  function RoundLambda(p: Json): Json
    requires PairShaped(p)
  {
    Pair(p.fields[0].1, RoundNum(p.fields[1].1))
  }

  function RoundLambdas(ps: seq<Json>): (r: seq<Json>)
    requires forall i :: 0 <= i < |ps| ==> PairShaped(ps[i])
    ensures |r| == |ps| && forall i :: 0 <= i < |ps| ==> r[i] == RoundLambda(ps[i])
  {
    seq(|ps|, i requires 0 <= i < |ps| => RoundLambda(ps[i]))
  }

  lemma EntryShaped(p: Json)
    requires RrhfEntry(p).Ok?
    ensures PairShaped(RrhfEntry(p).value)
  {
  }

  lemma PairUngated(p: Json)
    requires PairShaped(p)
    ensures "meta" !in KeySet(p.fields)
  {
    assert "meta"[0] != "name"[0] && "meta"[0] != "lambda"[0];
    assert p.fields == [("name", p.fields[0].1), ("lambda", p.fields[1].1)];
  }

  lemma NormalizePair(p: Json)
    requires PairShaped(p)
    ensures NormalizePenalty(p) == Ok(RoundLambda(p).fields)
  {
    var q := p.fields;
    assert q == [("name", q[0].1), ("lambda", q[1].1)];
    assert "name"[0] != "lambda"[0];
    assert Lookup(q, "lambda") == Some(q[1].1);
    var q1 := Set(q, "lambda", RoundNum(q[1].1));
    assert q1 == RoundLambda(p).fields;
    PairUngated(RoundLambda(p));
    assert Lookup(q1, "meta") == None;
  }

  lemma {:induction false} NormalizePairs(ps: seq<Json>)
    requires forall i :: 0 <= i < |ps| ==> PairShaped(ps[i])
    ensures NormalizeAll(ps) == Ok(RoundLambdas(ps))
  {
    if |ps| > 0 {
      var init := ps[..|ps| - 1];
      NormalizePairs(init);
      NormalizePair(ps[|ps| - 1]);
      assert RoundLambdas(ps) == RoundLambdas(init) + [Obj(RoundLambda(ps[|ps| - 1]).fields)];
    }
  }

  /**
   * Normalising converted entries rounds each lambda and sorts the entries
   * stably by the string of their name.
   */
  lemma SortPairs(ps: seq<Json>)
    requires forall i :: 0 <= i < |ps| ==> PairShaped(ps[i])
    ensures SortPenalties(Arr(ps)) == Ok(SortBy(RoundLambdas(ps), PenaltyKey))
  {
    assert PenaltyItems(Arr(ps)) == Ok(ps);
    NormalizePairs(ps);
  }

  /** The penalties `rrhf_to_gkpo` stores: lambdas rounded, stably sorted by name. */
  function Stored(es: seq<Json>): seq<Json>
    requires forall i :: 0 <= i < |es| ==> PairShaped(es[i])
  {
    SortBy(RoundLambdas(es), PenaltyKey)
  }

  lemma PairsUngated(ps: seq<Json>)
    requires forall i :: 0 <= i < |ps| ==> PairShaped(ps[i])
    ensures Ungated(ps)
  {
    forall i | 0 <= i < |ps| ensures ps[i].Obj? && "meta" !in KeySet(ps[i].fields) {
      PairUngated(ps[i]);
    }
  }

  /** The canonical form of the RRHF mapping built from converted entries. */
  lemma RrhfDocCanonical(es: seq<Json>, deltaRef: real, beta: real, citations: Json, digest: Json -> string)
    requires forall i :: 0 <= i < |es| ==> PairShaped(es[i])
    ensures Canonicalize(RrhfDoc(es, deltaRef, beta, citations), digest).Ok?
    ensures var c := Canonicalize(RrhfDoc(es, deltaRef, beta, citations), digest).value;
      && Lookup(c.doc, "reducibility") == Some(ClassificationJson(INSIDE))
      && Lookup(c.doc, "reference") == Some(ScalarReference(deltaRef))
      && Lookup(c.doc, "beta") == Some(Num(beta))
      && Lookup(c.doc, "penalties") == Some(Arr(Stored(es)))
      && c.serial.Obj? && Lookup(c.serial.fields, "provenance").Some?
      && Lookup(c.serial.fields, "provenance").value.Obj?
      && Lookup(Lookup(c.serial.fields, "provenance").value.fields, "method") == Some(Str("RRHF"))
  {
    var cit := CitationsOr(citations, RRHF_CITATION);
    var doc := RrhfDoc(es, deltaRef, beta, citations);
    PairsUngated(es);
    TemplateShape(deltaRef, beta, es, "RRHF", cit);
    TemplateCanonical(doc, deltaRef, beta, es, "RRHF", cit, digest);
    TemplateSerial(doc, deltaRef, beta, es, "RRHF", cit, digest);
    SortPairs(es);
  }

  /**
   * `rrhf_to_gkpo` fails exactly when some entry lacks a name or a lambda,
   * or has a lambda `float` cannot convert. Otherwise the result is inside R;
   * the reference is the fixed scalar `delta_ref` and `beta` is as given;
   * the stored penalties are the converted entries with rounded lambdas,
   * sorted by the string of their name, a permutation that keeps the order
   * of entries with the same name; and the serial's provenance names RRHF.
   */
  lemma RrhfToGkpoSpec(penalties: seq<Json>, deltaRef: real, beta: real, citations: Json, digest: Json -> string)
    ensures RrhfToGkpo(penalties, deltaRef, beta, citations, digest).Err? <==>
      exists i :: 0 <= i < |penalties| && RrhfEntry(penalties[i]).Err?
    ensures RrhfToGkpo(penalties, deltaRef, beta, citations, digest).Ok? ==>
      var es := MapEach(RrhfEntry, penalties).value;
      var c := RrhfToGkpo(penalties, deltaRef, beta, citations, digest).value;
      && MapEach(RrhfEntry, penalties).Ok?
      && (forall i :: 0 <= i < |penalties| ==> RrhfEntry(penalties[i]) == Ok(es[i]) && PairShaped(es[i]))
      && Lookup(c.doc, "reducibility") == Some(ClassificationJson(INSIDE))
      && Lookup(c.doc, "reference") == Some(ScalarReference(deltaRef))
      && Lookup(c.doc, "beta") == Some(Num(beta))
      && Lookup(c.doc, "penalties") == Some(Arr(Stored(es)))
      && SortedBy(Stored(es), PenaltyKey)
      && multiset(Stored(es)) == multiset(RoundLambdas(es))
      && |Stored(es)| == |penalties|
      && (forall k :: Filter(Stored(es), PenaltyKey, k) == Filter(RoundLambdas(es), PenaltyKey, k))
      && c.serial.Obj? && Lookup(c.serial.fields, "provenance").Some?
      && Lookup(c.serial.fields, "provenance").value.Obj?
      && Lookup(Lookup(c.serial.fields, "provenance").value.fields, "method") == Some(Str("RRHF"))
  {
    var m := MapEach(RrhfEntry, penalties);
    if m.Ok? {
      var es := m.value;
      forall i | 0 <= i < |es| ensures PairShaped(es[i]) {
        EntryShaped(penalties[i]);
      }
      RrhfDocCanonical(es, deltaRef, beta, citations, digest);
      SortBySorted(RoundLambdas(es), PenaltyKey);
      SortByPerm(RoundLambdas(es), PenaltyKey);
      forall k ensures Filter(Stored(es), PenaltyKey, k) == Filter(RoundLambdas(es), PenaltyKey, k) {
        SortByStable(RoundLambdas(es), PenaltyKey, k);
      }
    }
  }

  /** A `{"name": ..., "lambda": ...}` entry is read back unchanged. */
  lemma ReadPair(p: Json)
    requires PairShaped(p)
    ensures ReadEntry(p) == Ok(p)
  {
    assert "name"[0] != "lambda"[0];
    assert p.fields == [("name", p.fields[0].1), ("lambda", p.fields[1].1)];
  }

  lemma {:induction false} ReadPairs(ps: seq<Json>)
    requires forall i :: 0 <= i < |ps| ==> PairShaped(ps[i])
    ensures MapEach(ReadEntry, ps) == Ok(ps)
  {
    if |ps| > 0 {
      ReadPair(ps[0]);
      ReadPairs(ps[1..]);
      assert [ps[0]] + ps[1..] == ps;
    }
  }

  /** Sorting keeps every entry a pair. */
  lemma StoredShaped(es: seq<Json>)
    requires forall i :: 0 <= i < |es| ==> PairShaped(es[i])
    ensures forall i :: 0 <= i < |Stored(es)| ==> PairShaped(Stored(es)[i])
  {
    var rs := RoundLambdas(es);
    SortByPerm(rs, PenaltyKey);
    forall i | 0 <= i < |Stored(es)| ensures PairShaped(Stored(es)[i]) {
      PermMember(Stored(es), rs, i);
    }
  }

  /** What `RrhfRead` returns from a mapping the classifier put inside R. */
  lemma RrhfReadInside(g2: Fields, deltaRef: real, beta: real, stored: seq<Json>)
    requires Lookup(g2, "reducibility") == Some(ClassificationJson(INSIDE))
    requires Lookup(g2, "reference") == Some(ScalarReference(deltaRef)) && Lookup(g2, "beta") == Some(Num(beta))
    requires Lookup(g2, "penalties") == Some(Arr(stored))
    requires forall i :: 0 <= i < |stored| ==> PairShaped(stored[i])
    ensures RrhfRead(g2) == Ok(RrhfConfig(stored, Num(deltaRef), Num(beta)))
  {
    RejectionOfRecord(g2, INSIDE);
    ReadPairs(stored);
    assert "value"[0] != "form"[0];
    LookupPast(ScalarReference(deltaRef).fields, 1, "value");
  }

  /**
   * Converting RRHF penalties to GKPO and back returns the stored
   * penalties (each entry's name and rounded lambda, sorted by name), the
   * given `delta_ref` and the given `beta`, also after one more
   * canonicalisation.
   */
  lemma RrhfRoundTrip(penalties: seq<Json>, deltaRef: real, beta: real, citations: Json, digest: Json -> string)
    requires RrhfToGkpo(penalties, deltaRef, beta, citations, digest).Ok?
    ensures var es := MapEach(RrhfEntry, penalties).value;
      var g := RrhfToGkpo(penalties, deltaRef, beta, citations, digest).value.doc;
      && MapEach(RrhfEntry, penalties).Ok?
      && (forall i :: 0 <= i < |es| ==> PairShaped(es[i]))
      && GkpoToRrhf(g, digest) == Ok(RrhfConfig(Stored(es), Num(deltaRef), Num(beta)))
      && Canonicalize(g, digest).Ok?
      && GkpoToRrhf(Canonicalize(g, digest).value.doc, digest) == Ok(RrhfConfig(Stored(es), Num(deltaRef), Num(beta)))
  {
    RrhfToGkpoSpec(penalties, deltaRef, beta, citations, digest);
    var es := MapEach(RrhfEntry, penalties).value;
    var doc := RrhfDoc(es, deltaRef, beta, citations);
    var c := Canonicalize(doc, digest).value;
    StoredShaped(es);
    CanonicalizeIdempotent(doc, digest);
    assert Canonicalize(c.doc, digest).value.doc == c.doc;
    RrhfReadInside(c.doc, deltaRef, beta, Stored(es));
  }

  /** Reading an entry fails only with a built-in error. */
  lemma ReadEntriesFail(ps: seq<Json>)
    requires MapEach(ReadEntry, ps).Err?
    ensures MapEach(ReadEntry, ps).error.TypeError?
  {
  }

  /** Past the reducibility test, reading fails only with a built-in error. */
  lemma RrhfReadFails(g2: Fields)
    requires Rejection(g2).None? && RrhfRead(g2).Err?
    ensures RrhfRead(g2).error.TypeError?
  {
    var pens := Get(g2, "penalties", Arr([]));
    if pens.Arr? && MapEach(ReadEntry, pens.items).Err? {
      ReadEntriesFail(pens.items);
    }
  }

  /**
   * `gkpo_to_rrhf` refuses exactly the mappings whose recomputed record is
   * outside R, with the recomputed reasons; a failing canonicalisation fails
   * it the same way.
   */
  lemma GkpoToRrhfRefuses(g: Fields, digest: Json -> string)
    ensures Canonicalize(g, digest).Err? ==> GkpoToRrhf(g, digest) == Err(Canonicalize(g, digest).error)
    ensures Canonicalize(g, digest).Ok? ==>
      var red := Classify(Prepare(g).value).value;
      && (red.reasons != [] ==> GkpoToRrhf(g, digest) == Err(Irreducible(Arr(Tags(red.reasons)))))
      && (red.reasons == [] ==> !(GkpoToRrhf(g, digest).Err? && GkpoToRrhf(g, digest).error.Irreducible?))
  {
    if Canonicalize(g, digest).Ok? {
      RejectionOfCanonical(g, digest);
      var c := Canonicalize(g, digest).value;
      assert GkpoToRrhf(g, digest) == RrhfRead(c.doc);
      if Rejection(c.doc).None? && RrhfRead(c.doc).Err? {
        RrhfReadFails(c.doc);
      }
    }
  }

  /**
   * A configuration read back comes from a mapping inside R; its penalties
   * are the stored list's names and lambdas, `delta_ref` is the caller's
   * reference `value` (0.0 when absent) and `beta` the caller's (1.0).
   */
  lemma GkpoToRrhfReads(g: Fields, digest: Json -> string)
    ensures GkpoToRrhf(g, digest).Ok? ==>
      var cfg := GkpoToRrhf(g, digest).value;
      var ref := Lookup(g, "reference").GetOr(DEFAULT_REFERENCE);
      var pens := Get(Canonicalize(g, digest).value.doc, "penalties", Arr([]));
      && Canonicalize(g, digest).Ok? && Classify(Prepare(g).value).value.insideR
      && pens.Arr? && MapEach(ReadEntry, pens.items) == Ok(cfg.penalties)
      && ref.Obj? && cfg.deltaRef == Get(ref.fields, "value", Num(0.0))
      && cfg.beta == Lookup(g, "beta").GetOr(Num(1.0))
  {
    if GkpoToRrhf(g, digest).Ok? {
      RejectionOfCanonical(g, digest);
      RrhfReadSpec(Canonicalize(g, digest).value.doc);
      CanonicalizeKeeps(g, digest);
    }
  }

  /** The reads from a mapping that passes the reducibility test. */
  lemma RrhfReadSpec(g2: Fields)
    ensures RrhfRead(g2).Ok? ==>
      var cfg := RrhfRead(g2).value;
      var pens := Get(g2, "penalties", Arr([]));
      var ref := Get(g2, "reference", Obj([]));
      && Rejection(g2).None?
      && pens.Arr? && MapEach(ReadEntry, pens.items) == Ok(cfg.penalties)
      && ref.Obj? && cfg.deltaRef == Get(ref.fields, "value", Num(0.0))
      && cfg.beta == Get(g2, "beta", Num(1.0))
  {
  }

  /**
   * Whatever the arguments, a DPO mapping and an RRHF mapping never have the
   * same serial: their provenance names different methods. So when the
   * digest does not collide on those two serials, their `opal_hash` values
   * differ, whatever the penalties, as the repository's hash test expects.
   */
  lemma DpoRrhfDiffer(deltaRef1: real, beta1: real, citations1: Json,
                      penalties: seq<Json>, deltaRef2: real, beta2: real, citations2: Json, digest: Json -> string)
    requires RrhfToGkpo(penalties, deltaRef2, beta2, citations2, digest).Ok?
    ensures DpoToGkpo(deltaRef1, beta1, citations1, digest).Ok?
    ensures var d := DpoToGkpo(deltaRef1, beta1, citations1, digest).value;
      var r := RrhfToGkpo(penalties, deltaRef2, beta2, citations2, digest).value;
      && d.serial != r.serial
      && (Separates(digest, d.serial, r.serial) ==> d.hash != r.hash)
  {
    DpoToGkpoSpec(deltaRef1, beta1, citations1, digest);
    RrhfToGkpoSpec(penalties, deltaRef2, beta2, citations2, digest);
    var es := MapEach(RrhfEntry, penalties).value;
    CanonicalHash(DpoDoc(deltaRef1, beta1, citations1), digest);
    CanonicalHash(RrhfDoc(es, deltaRef2, beta2, citations2), digest);
    MethodsDiffer(DpoToGkpo(deltaRef1, beta1, citations1, digest).value,
                  RrhfToGkpo(penalties, deltaRef2, beta2, citations2, digest).value, digest);
  }

  /** The provenance method a serial names, if any. */
  function ServedBy(serial: Json): Option<Json> {
    if serial.Obj? && Lookup(serial.fields, "provenance").Some? && Lookup(serial.fields, "provenance").value.Obj?
    then Lookup(Lookup(serial.fields, "provenance").value.fields, "method")
    else None
  }

  lemma MethodsDiffer(d: Canonical, r: Canonical, digest: Json -> string)
    requires ServedBy(d.serial) == Some(Str("DPO")) && ServedBy(r.serial) == Some(Str("RRHF"))
    requires d.hash == digest(d.serial) && r.hash == digest(r.serial)
    ensures d.serial != r.serial
    ensures Separates(digest, d.serial, r.serial) ==> d.hash != r.hash
  {
    assert "DPO"[0] != "RRHF"[0];
  }

  /**
   * The repository's hash test: `dpo_to_gkpo(0.0, 1.0)` and
   * `rrhf_to_gkpo([{"name": "rank_margin_1", "lambda": 0.5}], 0.0)` (no
   * citations given) have different serials, so they have different
   * `opal_hash` values whenever the digest does not collide on those two
   * serials.
   */
  lemma HashTestDiffers(digest: Json -> string)
    ensures DpoToGkpo(0.0, 1.0, Null, digest).Ok?
    ensures RrhfToGkpo([Obj([("name", Str("rank_margin_1")), ("lambda", Num(0.5))])], 0.0, 1.0, Null, digest).Ok?
    ensures var d := DpoToGkpo(0.0, 1.0, Null, digest).value;
      var r := RrhfToGkpo([Obj([("name", Str("rank_margin_1")), ("lambda", Num(0.5))])], 0.0, 1.0, Null, digest).value;
      && d.serial != r.serial
      && (Separates(digest, d.serial, r.serial) ==> d.hash != r.hash)
  {
    var p := Obj([("name", Str("rank_margin_1")), ("lambda", Num(0.5))]);
    assert "name"[0] != "lambda"[0];
    assert RrhfEntry(p) == Ok(Pair(Str("rank_margin_1"), Num(0.5)));
    RrhfToGkpoSpec([p], 0.0, 1.0, Null, digest);
    DpoRrhfDiffer(0.0, 1.0, Null, [p], 0.0, 1.0, Null, digest);
  }

  /** The serial does not depend on the digest: only the hash does. */
  lemma SerialWithoutDigest(doc: Fields, digest1: Json -> string, digest2: Json -> string)
    requires Canonicalize(doc, digest1).Ok?
    ensures Canonicalize(doc, digest2).Ok?
    ensures Canonicalize(doc, digest2).value.serial == Canonicalize(doc, digest1).value.serial
  {
    CanonicalizeSteps(doc, digest1);
    CanonicalizeSteps(doc, digest2);
  }

  /** Two mappings with different serials get different hashes under some digest. */
  lemma SeparatingDigest(d: Fields, r: Fields, digest0: Json -> string) returns (split: Json -> string)
    requires Canonicalize(d, digest0).Ok? && Canonicalize(r, digest0).Ok?
    requires Canonicalize(d, digest0).value.serial != Canonicalize(r, digest0).value.serial
    ensures Canonicalize(d, split).Ok? && Canonicalize(r, split).Ok?
    ensures Canonicalize(d, split).value.hash != Canonicalize(r, split).value.hash
  {
    var ds := Canonicalize(d, digest0).value.serial;
    split := (x: Json) => if x == ds then "DPO" else "other";
    SerialWithoutDigest(d, digest0, split);
    SerialWithoutDigest(r, digest0, split);
    CanonicalHash(d, split);
    CanonicalHash(r, split);
  }

  /**
   * The hypothesis of `HashTestDiffers` can be met: some digest gives the
   * test's DPO and RRHF mappings different `opal_hash` values.
   */
  lemma HashTestSeparable()
    ensures exists digest: Json -> string ::
      && DpoToGkpo(0.0, 1.0, Null, digest).Ok?
      && RrhfToGkpo([Obj([("name", Str("rank_margin_1")), ("lambda", Num(0.5))])], 0.0, 1.0, Null, digest).Ok?
      && DpoToGkpo(0.0, 1.0, Null, digest).value.hash !=
         RrhfToGkpo([Obj([("name", Str("rank_margin_1")), ("lambda", Num(0.5))])], 0.0, 1.0, Null, digest).value.hash
  {
    var p := Obj([("name", Str("rank_margin_1")), ("lambda", Num(0.5))]);
    var ps := [p];
    var blank := (x: Json) => "";
    assert RrhfEntry(p) == Ok(Pair(Str("rank_margin_1"), Num(0.5))) by {
      assert "name"[0] != "lambda"[0];
    }
    var es := MapEach(RrhfEntry, ps).value;
    var d := DpoDoc(0.0, 1.0, Null);
    var r := RrhfDoc(es, 0.0, 1.0, Null);
    assert Canonicalize(d, blank).Ok? && Canonicalize(r, blank).Ok? &&
      Canonicalize(d, blank).value.serial != Canonicalize(r, blank).value.serial by {
      HashTestDiffers(blank);
    }
    var split := SeparatingDigest(d, r, blank);
    assert DpoToGkpo(0.0, 1.0, Null, split) == Canonicalize(d, split);
    assert RrhfToGkpo(ps, 0.0, 1.0, Null, split) == Canonicalize(r, split);
  }
}
