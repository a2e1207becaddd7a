/**
 * What adapters/dpo.py and adapters/rrhf.py share: the GKPO mapping both
 * build before canonicalising it, and the reducibility test both apply to a
 * canonical mapping before reading a configuration back out of it.
 */
module Adapters {
  import opened Wrappers
  import opened JsonValue
  import opened GkpoBase
  import opened Weight
  import opened Sorting
  import opened KeySort
  import opened Rounding
  import opened Penalties
  import opened Reducibility
  import opened Canonicalization
  import opened CanonicalLaws
  import opened Idempotence

  const LOGPI_SCORE: Json := Obj([("type", Str("logpi"))])
  const UNIT_WEIGHT: Json := Obj([("form", Str("constant")), ("constant", Num(1.0))])
  /** The record both adapters claim; canonicalisation recomputes it anyway. */
  const CLAIMED_INSIDE: Json := Obj([("inside_R", Bool(true)), ("reasons", Arr([])), ("witness", Obj([]))])

  /** `{"form": "fixed_scalar", "value": float(delta_ref)}` */
  function ScalarReference(deltaRef: real): Json {
    Obj([("form", Str("fixed_scalar")), ("value", Num(deltaRef))])
  }

  /** Reading `value` from a fixed-scalar reference gives `delta_ref` back. */
  lemma ScalarValue(deltaRef: real)
    ensures ToFloat(Get(ScalarReference(deltaRef).fields, "value", Num(0.0))) == Ok(deltaRef)
  {
    assert "value"[0] != "form"[0];
    LookupPast(ScalarReference(deltaRef).fields, 1, "value");
  }

  /** `{"method": ..., "citations": ...}` */
  function AdapterProvenance(origin: string, citations: Json): Json {
    Obj([("method", Str(origin)), ("citations", citations)])
  }

  /** `citations or [default]` */
  function CitationsOr(citations: Json, default: string): (r: Json)
    ensures Truthy(r)
  {
    if Truthy(citations) then citations else Arr([Str(default)])
  }

  /** The mapping literal of dpo_to_gkpo and rrhf_to_gkpo, in its key order. */
  function Template(deltaRef: real, beta: real, penalties: seq<Json>, origin: string, citations: Json): Fields {
    [("version", Str(SCHEMA_VERSION)), ("score", LOGPI_SCORE), ("weight", UNIT_WEIGHT),
     ("reference", ScalarReference(deltaRef)), ("link", Str("identity")), ("loss", Str("logistic")),
     ("beta", Num(beta)), ("penalties", Arr(penalties)), ("dataset_ops", DEFAULT_DATASET_OPS),
     ("provenance", AdapterProvenance(origin, citations)), ("reducibility", CLAIMED_INSIDE)]
  }

  /** The entries of the template that canonicalisation reads. */
  predicate TemplateShaped(doc: Fields, deltaRef: real, beta: real, penalties: seq<Json>, origin: string, citations: Json) {
    && Lookup(doc, "weight") == Some(UNIT_WEIGHT)
    && Lookup(doc, "reference") == Some(ScalarReference(deltaRef))
    && Lookup(doc, "link") == Some(Str("identity"))
    && Lookup(doc, "loss") == Some(Str("logistic"))
    && Lookup(doc, "beta") == Some(Num(beta))
    && Lookup(doc, "penalties") == Some(Arr(penalties))
    && Lookup(doc, "provenance") == Some(AdapterProvenance(origin, citations))
    && Lookup(doc, "reducibility") == Some(CLAIMED_INSIDE)
  }

  lemma {:induction false} LookupPast(fs: Fields, n: nat, k: string)
    requires n <= |fs| && forall i :: 0 <= i < n ==> fs[i].0 != k
    ensures Lookup(fs, k) == Lookup(fs[n..], k)
  {
    if n > 0 {
      LookupPast(fs[1..], n - 1, k);
      assert fs[1..][n - 1..] == fs[n..];
    }
  }

  lemma TemplateWeight(deltaRef: real, beta: real, penalties: seq<Json>, origin: string, citations: Json)
    ensures Lookup(Template(deltaRef, beta, penalties, origin, citations), "weight") == Some(UNIT_WEIGHT)
  {
    LookupPast(Template(deltaRef, beta, penalties, origin, citations), 2, "weight");
  }

  lemma TemplateReference(deltaRef: real, beta: real, penalties: seq<Json>, origin: string, citations: Json)
    ensures Lookup(Template(deltaRef, beta, penalties, origin, citations), "reference") == Some(ScalarReference(deltaRef))
  {
    LookupPast(Template(deltaRef, beta, penalties, origin, citations), 3, "reference");
  }

  lemma TemplateLink(deltaRef: real, beta: real, penalties: seq<Json>, origin: string, citations: Json)
    ensures Lookup(Template(deltaRef, beta, penalties, origin, citations), "link") == Some(Str("identity"))
  {
    LookupPast(Template(deltaRef, beta, penalties, origin, citations), 4, "link");
  }

  lemma TemplateLoss(deltaRef: real, beta: real, penalties: seq<Json>, origin: string, citations: Json)
    ensures Lookup(Template(deltaRef, beta, penalties, origin, citations), "loss") == Some(Str("logistic"))
  {
    LookupPast(Template(deltaRef, beta, penalties, origin, citations), 5, "loss");
  }

  lemma TemplateBeta(deltaRef: real, beta: real, penalties: seq<Json>, origin: string, citations: Json)
    ensures Lookup(Template(deltaRef, beta, penalties, origin, citations), "beta") == Some(Num(beta))
  {
    LookupPast(Template(deltaRef, beta, penalties, origin, citations), 6, "beta");
  }

  lemma TemplatePenalties(deltaRef: real, beta: real, penalties: seq<Json>, origin: string, citations: Json)
    ensures Lookup(Template(deltaRef, beta, penalties, origin, citations), "penalties") == Some(Arr(penalties))
  {
    LookupPast(Template(deltaRef, beta, penalties, origin, citations), 7, "penalties");
  }

  lemma TemplateProvenance(deltaRef: real, beta: real, penalties: seq<Json>, origin: string, citations: Json)
    ensures Lookup(Template(deltaRef, beta, penalties, origin, citations), "provenance") == Some(AdapterProvenance(origin, citations))
  {
    LookupPast(Template(deltaRef, beta, penalties, origin, citations), 9, "provenance");
  }

  lemma TemplateReducibility(deltaRef: real, beta: real, penalties: seq<Json>, origin: string, citations: Json)
    ensures Lookup(Template(deltaRef, beta, penalties, origin, citations), "reducibility") == Some(CLAIMED_INSIDE)
  {
    LookupPast(Template(deltaRef, beta, penalties, origin, citations), 10, "reducibility");
  }

  lemma TemplateShape(deltaRef: real, beta: real, penalties: seq<Json>, origin: string, citations: Json)
    ensures TemplateShaped(Template(deltaRef, beta, penalties, origin, citations), deltaRef, beta, penalties, origin, citations)
  {
    TemplateWeight(deltaRef, beta, penalties, origin, citations);
    TemplateReference(deltaRef, beta, penalties, origin, citations);
    TemplateLink(deltaRef, beta, penalties, origin, citations);
    TemplateLoss(deltaRef, beta, penalties, origin, citations);
    TemplateBeta(deltaRef, beta, penalties, origin, citations);
    TemplatePenalties(deltaRef, beta, penalties, origin, citations);
    TemplateProvenance(deltaRef, beta, penalties, origin, citations);
    TemplateReducibility(deltaRef, beta, penalties, origin, citations);
  }

  /** Every entry is a mapping without `meta`, so no entry is a gate. */
  predicate Ungated(ps: seq<Json>) {
    forall i :: 0 <= i < |ps| ==> ps[i].Obj? && "meta" !in KeySet(ps[i].fields)
  }

  lemma NormalizeUngated(p: Json)
    requires p.Obj? && "meta" !in KeySet(p.fields)
    ensures NormalizePenalty(p).Ok? && "meta" !in KeySet(NormalizePenalty(p).value)
  {
    var q := p.fields;
    assert DictOf(p) == Ok(q);
    var q1 := if "lambda" in KeySet(q) then Set(q, "lambda", RoundNum(Lookup(q, "lambda").value)) else q;
    assert "meta"[0] != "lambda"[0];
    assert Lookup(q1, "meta") == None;
    assert SortMeta(q1) == q1;
  }

  lemma {:induction false} NormalizeAllUngated(xs: seq<Json>)
    requires Ungated(xs)
    ensures NormalizeAll(xs).Ok? && Ungated(NormalizeAll(xs).value)
  {
    if |xs| > 0 {
      NormalizeAllUngated(xs[..|xs| - 1]);
      NormalizeUngated(xs[|xs| - 1]);
    }
  }

  /** Normalising and sorting entries without `meta` succeeds and adds none. */
  lemma SortedUngated(ps: seq<Json>)
    requires Ungated(ps)
    ensures SortPenalties(Arr(ps)).Ok? && Ungated(SortPenalties(Arr(ps)).value)
  {
    assert PenaltyItems(Arr(ps)) == Ok(ps);
    NormalizeAllUngated(ps);
    var normed := NormalizeAll(ps).value;
    var r := SortBy(normed, PenaltyKey);
    assert SortPenalties(Arr(ps)) == Ok(r);
    SortByPerm(normed, PenaltyKey);
    forall i | 0 <= i < |r| ensures r[i].Obj? && "meta" !in KeySet(r[i].fields) {
      PermMember(r, normed, i);
    }
  }

  lemma UngatedScan(ps: seq<Json>)
    requires Ungated(ps)
    ensures GateScan(ps) == Ok(false)
  {
    forall i | 0 <= i < |ps| ensures PenaltyGated(ps[i]) == Ok(false) {
      assert Lookup(ps[i].fields, "meta") == None;
    }
    GateScanNone(ps);
  }

  /** The unit weight normalises to a mapping whose form is constant. */
  lemma UnitWeight()
    ensures CanonWeight(UNIT_WEIGHT).Ok?
    ensures |CanonWeight(UNIT_WEIGHT).value| > 0
    ensures Lookup(CanonWeight(UNIT_WEIGHT).value, "form") == Some(Str("constant"))
  {
    assert WeightDict(UNIT_WEIGHT) == Ok(UNIT_WEIGHT.fields);
    assert Lookup(UNIT_WEIGHT.fields, "form") == Some(Str("constant"));
    CanonWeightNonEmpty(UNIT_WEIGHT);
  }

  lemma TemplateInputs(doc: Fields, deltaRef: real, beta: real, ps: seq<Json>, origin: string, citations: Json)
    requires TemplateShaped(doc, deltaRef, beta, ps, origin, citations) && Ungated(ps)
    ensures WeightIn(doc) == UNIT_WEIGHT && PenaltiesIn(doc) == Arr(ps)
    ensures Prepare(doc).Ok?
  {
    assert WeightIn(doc) == UNIT_WEIGHT by { assert Truthy(UNIT_WEIGHT); }
    assert PenaltiesIn(doc) == Arr(ps);
    UnitWeight();
    SortedUngated(ps);
    assert CanonWeight(WeightIn(doc)).Ok? && SortPenalties(PenaltiesIn(doc)).Ok?;
  }

  /** Filling in the template's defaults keeps its entries; the weight and the penalties are normalised. */
  lemma TemplatePrepared(doc: Fields, deltaRef: real, beta: real, ps: seq<Json>, origin: string, citations: Json)
    requires TemplateShaped(doc, deltaRef, beta, ps, origin, citations) && Ungated(ps)
    ensures Prepare(doc).Ok? && SortPenalties(Arr(ps)).Ok?
    ensures var g := Prepare(doc).value;
      && Lookup(g, "reference") == Some(ScalarReference(deltaRef))
      && Lookup(g, "link") == Some(Str("identity"))
      && Lookup(g, "loss") == Some(Str("logistic"))
      && Lookup(g, "beta") == Some(Num(beta))
      && Lookup(g, "penalties") == Some(Arr(SortPenalties(Arr(ps)).value))
      && Lookup(g, "reducibility") == Some(CLAIMED_INSIDE)
      && Lookup(g, "weight") == Some(Obj(CanonWeight(UNIT_WEIGHT).value))
  {
    TemplateInputs(doc, deltaRef, beta, ps, origin, citations);
    SortedUngated(ps);
    PrepareAt(doc, "reference");
    PrepareAt(doc, "link");
    PrepareAt(doc, "loss");
    PrepareAt(doc, "beta");
    PrepareAt(doc, "penalties");
    PrepareAt(doc, "reducibility");
    PrepareAt(doc, "weight");
  }

  lemma ClaimedWitness(g: Fields)
    requires Lookup(g, "reducibility") == Some(CLAIMED_INSIDE)
    ensures WitnessOf(g) == Ok(Obj([]))
  {
    assert Lookup(CLAIMED_INSIDE.fields, "witness") == Some(Obj([]));
  }

  lemma ScalarUnshifted(g: Fields, deltaRef: real)
    requires Lookup(g, "reference") == Some(ScalarReference(deltaRef))
    ensures ReferenceShifted(g) == Ok(false)
  {
    assert Lookup(ScalarReference(deltaRef).fields, "form") == Some(Str("fixed_scalar"));
    assert ReferenceForm(g) == Ok(Str("fixed_scalar"));
  }

  lemma InsideReadings(g: Fields, w: Fields, deltaRef: real, sorted: seq<Json>)
    requires Lookup(g, "reference") == Some(ScalarReference(deltaRef))
    requires Lookup(g, "weight") == Some(Obj(w)) && |w| > 0 && Lookup(w, "form") == Some(Str("constant"))
    requires Lookup(g, "penalties") == Some(Arr(sorted)) && Ungated(sorted)
    requires Lookup(g, "reducibility") == Some(CLAIMED_INSIDE)
    ensures Classify(g) == Ok(Classification(true, [], Obj([])))
  {
    ScalarUnshifted(g, deltaRef);
    ConstantRead(g, w);
    PenaltiesRead(g, sorted);
    UngatedScan(sorted);
    ClaimedWitness(g);
    ClassifyFrom(g, false, Str("constant"), sorted, false, Obj([]));
    assert Str("constant") != Str("score_dependent") by {
      assert "constant"[0] != "score_dependent"[0];
    }
  }

  lemma ConstantRead(g: Fields, w: Fields)
    requires Lookup(g, "weight") == Some(Obj(w)) && |w| > 0 && Lookup(w, "form") == Some(Str("constant"))
    ensures WeightForm(g) == Ok(Str("constant"))
  {
  }

  lemma PenaltiesRead(g: Fields, ps: seq<Json>)
    requires Lookup(g, "penalties") == Some(Arr(ps))
    ensures ScannedPenalties(g) == Ok(ps)
  {
    if |ps| == 0 { assert ps == []; }
  }

  /** The template is inside R: fixed-scalar reference, constant weight, no gate; its witness is `{}`. */
  lemma TemplateClassified(doc: Fields, deltaRef: real, beta: real, ps: seq<Json>, origin: string, citations: Json)
    requires TemplateShaped(doc, deltaRef, beta, ps, origin, citations) && Ungated(ps)
    ensures Prepare(doc).Ok? && Classify(Prepare(doc).value) == Ok(Classification(true, [], Obj([])))
  {
    TemplatePrepared(doc, deltaRef, beta, ps, origin, citations);
    UnitWeight();
    SortedUngated(ps);
    InsideReadings(Prepare(doc).value, CanonWeight(UNIT_WEIGHT).value, deltaRef, SortPenalties(Arr(ps)).value);
  }

  /** The record the classifier computes for the template. */
  const INSIDE: Classification := Classification(true, [], Obj([]))

  /** Canonicalising the template finishes the prepared template, inside R, with its own provenance mapping. */
  lemma TemplateFinish(doc: Fields, deltaRef: real, beta: real, ps: seq<Json>, origin: string, citations: Json,
                       digest: Json -> string)
    requires TemplateShaped(doc, deltaRef, beta, ps, origin, citations) && Ungated(ps)
    ensures Prepare(doc).Ok?
    ensures Canonicalize(doc, digest) ==
      Ok(Finish(doc, Record(Prepare(doc).value, INSIDE), AdapterProvenance(origin, citations).fields, digest))
  {
    TemplateClassified(doc, deltaRef, beta, ps, origin, citations);
    FinishInside(doc, AdapterProvenance(origin, citations).fields, digest);
  }

  lemma FinishInside(doc: Fields, pf: Fields, digest: Json -> string)
    requires Prepare(doc).Ok? && Classify(Prepare(doc).value) == Ok(INSIDE)
    requires Lookup(doc, "provenance") == Some(Obj(pf))
    ensures Canonicalize(doc, digest) == Ok(Finish(doc, Record(Prepare(doc).value, INSIDE), pf, digest))
  {
    CanonicalizeFrom(doc, Prepare(doc).value, INSIDE, pf, digest);
  }

  /**
   * Canonicalising the template succeeds; the recorded reducibility is
   * inside R with no reasons and an empty witness; reference, link, loss and
   * beta are as given; the penalties are normalised and sorted.
   */
  lemma TemplateCanonical(doc: Fields, deltaRef: real, beta: real, ps: seq<Json>, origin: string, citations: Json,
                          digest: Json -> string)
    requires TemplateShaped(doc, deltaRef, beta, ps, origin, citations) && Ungated(ps)
    ensures Canonicalize(doc, digest).Ok? && SortPenalties(Arr(ps)).Ok?
    ensures var c := Canonicalize(doc, digest).value;
      && Lookup(c.doc, "reducibility") == Some(ClassificationJson(INSIDE))
      && Lookup(c.doc, "reference") == Some(ScalarReference(deltaRef))
      && Lookup(c.doc, "link") == Some(Str("identity"))
      && Lookup(c.doc, "loss") == Some(Str("logistic"))
      && Lookup(c.doc, "beta") == Some(Num(beta))
      && Lookup(c.doc, "penalties") == Some(Arr(SortPenalties(Arr(ps)).value))
  {
    TemplatePrepared(doc, deltaRef, beta, ps, origin, citations);
    TemplateFinish(doc, deltaRef, beta, ps, origin, citations, digest);
    var g := Prepare(doc).value;
    var c := Finish(doc, Record(g, INSIDE), AdapterProvenance(origin, citations).fields, digest);
    FinishedShape(doc, g, INSIDE, AdapterProvenance(origin, citations).fields, digest);
    FinishedKeeps(c.doc, g);
  }

  /** The entries that finishing leaves alone. */
  lemma FinishedKeeps(d: Fields, g: Fields)
    requires forall k :: k != "_canonical_serial" && k != "provenance" && k != "reducibility" ==>
      Lookup(d, k) == Lookup(g, k)
    ensures Lookup(d, "reference") == Lookup(g, "reference") && Lookup(d, "link") == Lookup(g, "link")
    ensures Lookup(d, "loss") == Lookup(g, "loss") && Lookup(d, "beta") == Lookup(g, "beta")
    ensures Lookup(d, "penalties") == Lookup(g, "penalties")
  {
  }

  /** The serial's provenance names the origin and holds the citations, rounded and key-sorted. */
  lemma TemplateSerial(doc: Fields, deltaRef: real, beta: real, ps: seq<Json>, origin: string, citations: Json,
                       digest: Json -> string)
    requires TemplateShaped(doc, deltaRef, beta, ps, origin, citations) && Ungated(ps)
    ensures Canonicalize(doc, digest).Ok?
    ensures var s := Canonicalize(doc, digest).value.serial;
      && s.Obj? && Lookup(s.fields, "provenance").Some? && Lookup(s.fields, "provenance").value.Obj?
      && Lookup(Lookup(s.fields, "provenance").value.fields, "method") == Some(Str(origin))
      && Lookup(Lookup(s.fields, "provenance").value.fields, "citations") == Some(SortedObj(RoundAll(citations)))
  {
    TemplateFinish(doc, deltaRef, beta, ps, origin, citations, digest);
    var g1 := Record(Prepare(doc).value, INSIDE);
    var pf := AdapterProvenance(origin, citations).fields;
    FinishSpec(doc, g1, pf, digest);
    assert Lookup(pf, "method") == Some(Str(origin)) && Lookup(pf, "citations") == Some(citations);
    OriginServed(g1, pf, origin, citations);
  }

  lemma OriginServed(g1: Fields, pf: Fields, origin: string, citations: Json)
    requires Lookup(pf, "method") == Some(Str(origin)) && Lookup(pf, "citations") == Some(citations)
    ensures var s := SerialOf(g1, pf);
      && s.Obj? && Lookup(s.fields, "provenance").Some? && Lookup(s.fields, "provenance").value.Obj?
      && Lookup(Lookup(s.fields, "provenance").value.fields, "method") == Some(Str(origin))
      && Lookup(Lookup(s.fields, "provenance").value.fields, "citations") == Some(SortedObj(RoundAll(citations)))
  {
    ProvenanceServed(g1, pf, "method", Str(origin));
    ProvenanceServed(g1, pf, "citations", citations);
    assert RoundAll(Str(origin)) == Str(origin);
  }

  lemma ProvenanceServed(g1: Fields, pf: Fields, k: string, v: Json)
    requires (k == "method" || k == "citations") && Lookup(pf, k) == Some(v)
    ensures var s := SerialOf(g1, pf);
      && s.Obj? && Lookup(s.fields, "provenance").Some? && Lookup(s.fields, "provenance").value.Obj?
      && Lookup(Lookup(s.fields, "provenance").value.fields, k) == Some(SortedObj(RoundAll(v)))
  {
    SerialProvenance(g1, pf);
  }

  /**
   * `g2["reducibility"]["inside_R"]`: a falsy flag raises the ValueError
   * that carries `g2["reducibility"]["reasons"]`; a missing key, or a record
   * that is not a mapping, raises before that.
   */
  function Rejection(g2: Fields): Option<Error> {
    match Lookup(g2, "reducibility")
    case None => Some(TypeError("KeyError: reducibility"))
    case Some(Obj(rf)) =>
      (match Lookup(rf, "inside_R")
       case None => Some(TypeError("KeyError: inside_R"))
       case Some(flag) =>
         if Truthy(flag) then None
         else if "reasons" !in KeySet(rf) then Some(TypeError("KeyError: reasons"))
         else Some(Irreducible(Lookup(rf, "reasons").value)))
    case Some(_) => Some(TypeError("reducibility[...]"))
  }

  lemma RejectionOfRecord(g2: Fields, red: Classification)
    requires Lookup(g2, "reducibility") == Some(ClassificationJson(red))
    ensures Rejection(g2) == if red.insideR then None else Some(Irreducible(Arr(Tags(red.reasons))))
  {
    var rf := ClassificationJson(red).fields;
    assert Lookup(rf, "inside_R") == Some(Bool(red.insideR));
    assert Lookup(rf, "reasons") == Some(Arr(Tags(red.reasons)));
  }

  /**
   * A canonical mapping is rejected exactly when the recomputed record is
   * outside R, that is when it lists a reason, and the error carries those
   * reasons; the caller's own `inside_R` claim plays no part.
   */
  lemma RejectionOfCanonical(doc: Fields, digest: Json -> string)
    requires Canonicalize(doc, digest).Ok?
    ensures Prepare(doc).Ok? && Classify(Prepare(doc).value).Ok?
    ensures var red := Classify(Prepare(doc).value).value;
      && (red.insideR <==> red.reasons == [])
      && Rejection(Canonicalize(doc, digest).value.doc) ==
           if red.reasons == [] then None else Some(Irreducible(Arr(Tags(red.reasons))))
  {
    CanonicalizeSpec(doc, digest);
    var red := Classify(Prepare(doc).value).value;
    ClassifySpec(Prepare(doc).value);
    RejectionOfRecord(Canonicalize(doc, digest).value.doc, red);
  }

  /** Outside the three keys canonicalisation writes last, the canonical mapping is the prepared one. */
  lemma CanonicalAt(g: Fields, digest: Json -> string, k: string)
    requires Canonicalize(g, digest).Ok?
    requires k != "reducibility" && k != "_canonical_serial" && k != "provenance"
    ensures Prepare(g).Ok? && Lookup(Canonicalize(g, digest).value.doc, k) == Lookup(Prepare(g).value, k)
  {
    CanonicalizeIs(g, digest);
    FinishedShape(g, Prepare(g).value, Classify(Prepare(g).value).value, ProvenanceOf(g).value, digest);
  }

  /** A defaulted key of the canonical mapping holds the caller's value, or the default. */
  lemma KeptAt(g: Fields, digest: Json -> string, k: string)
    requires Canonicalize(g, digest).Ok? && Default(k).Some?
    requires k != "reducibility" && k != "_canonical_serial" && k != "provenance"
    requires k != "weight" && k != "penalties"
    ensures Lookup(Canonicalize(g, digest).value.doc, k) == Some(Lookup(g, k).GetOr(Default(k).value))
  {
    CanonicalAt(g, digest, k);
    PrepareAt(g, k);
    var w := CanonWeight(WeightIn(g)).value;
    var ps := SortPenalties(PenaltiesIn(g)).value;
    assert PreparedAt(g, w, ps, k) == Some(Lookup(g, k).GetOr(Default(k).value));
  }

  /** The defaults of the four entries the adapters read back. */
  lemma ReadDefaults()
    ensures Default("reference") == Some(DEFAULT_REFERENCE) && Default("beta") == Some(Num(1.0))
    ensures Default("loss") == Some(Str("logistic")) && Default("link") == Some(Str("identity"))
  {
    assert "beta"[0] != "link"[0] && "beta"[0] != "loss"[0] && "loss"[1] != "link"[1];
  }
}
