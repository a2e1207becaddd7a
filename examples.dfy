/**
 * Expected outcomes from the repository's tests and demonstration scripts,
 * proved of the model.
 */
module Examples {
  import opened Wrappers
  import opened JsonValue
  import opened GkpoBase
  import opened Weight
  import opened Penalties
  import opened Reducibility
  import opened Canonicalization
  import opened CanonicalLaws
  import opened Idempotence

  lemma ReferenceRead(g: Fields, form: string)
    requires Lookup(g, "reference") == Some(Obj([("form", Str(form))])) && |form| > 0
    ensures ReferenceShifted(g) == Ok(form != "fixed_zero" && form != "fixed_scalar")
  {
    assert ReferenceForm(g) == Ok(Str(form));
  }

  lemma WeightRead(g: Fields, w: Fields, form: string)
    requires Lookup(g, "weight") == Some(Obj(w)) && |w| > 0 && Lookup(w, "form") == Some(Str(form)) && |form| > 0
    ensures WeightForm(g) == Ok(Str(form))
  {
  }

  lemma NoPenaltiesRead(g: Fields)
    requires Lookup(g, "penalties") == Some(Arr([]))
    ensures ScannedPenalties(g) == Ok([]) && GateScan([]) == Ok(false)
  {
  }

  lemma NoWitnessRead(g: Fields)
    requires Lookup(g, "reducibility") == None
    ensures WitnessOf(g) == Ok(Obj([]))
  {
  }

  /**
   * The shape of the document of the reference-shift test: a per-prompt
   * reference, a constant weight, and no penalties, reducibility or
   * provenance entry.
   */
  predicate ShiftShaped(doc: Fields) {
    && Lookup(doc, "reference") == Some(Obj([("form", Str("per_prompt"))]))
    && Lookup(doc, "weight").Some? && Lookup(doc, "weight").value.Obj?
    && Lookup(Lookup(doc, "weight").value.fields, "form") == Some(Str("constant"))
    && Lookup(Lookup(doc, "weight").value.fields, "constant").Some?
    && Lookup(Lookup(doc, "weight").value.fields, "constant").value.Num?
    && Lookup(doc, "penalties") == None
    && Lookup(doc, "reducibility") == None
    && Lookup(doc, "provenance") == None
  }

  /** The test's document `{"reference": {"form": "per_prompt"}, "weight": {"form": "constant", "constant": 1.0}}`. */
  const SHIFT_TEST_DOC: Fields :=
    [("reference", Obj([("form", Str("per_prompt"))])),
     ("weight", Obj([("form", Str("constant")), ("constant", Num(1.0))]))]

  lemma ShiftTestDoc()
    ensures ShiftShaped(SHIFT_TEST_DOC)
  {
  }

  lemma ShiftPrepared(doc: Fields)
    requires ShiftShaped(doc)
    ensures Prepare(doc).Ok?
    ensures var g := Prepare(doc).value;
      && Lookup(g, "reference") == Some(Obj([("form", Str("per_prompt"))]))
      && Lookup(g, "penalties") == Some(Arr([]))
      && Lookup(g, "reducibility") == None
      && Lookup(g, "weight").Some? && Lookup(g, "weight").value.Obj?
      && |Lookup(g, "weight").value.fields| > 0
      && Lookup(Lookup(g, "weight").value.fields, "form") == Some(Str("constant"))
  {
    var wfs := Lookup(doc, "weight").value.fields;
    assert WeightIn(doc) == Obj(wfs);
    assert FormOf(wfs) == Str("constant");
    assert CanonWeight(WeightIn(doc)).Ok?;
    CanonWeightNonEmpty(WeightIn(doc));
    assert PenaltiesIn(doc) == Arr([]);
    assert SortPenalties(Arr([])) == Ok([]);
    PrepareAt(doc, "reference");
    PrepareAt(doc, "weight");
    PrepareAt(doc, "penalties");
    PrepareAt(doc, "reducibility");
  }

  lemma ShiftClassified(doc: Fields)
    requires ShiftShaped(doc)
    ensures Prepare(doc).Ok?
    ensures Classify(Prepare(doc).value) == Ok(Classification(false, [ReferenceShift], Obj([])))
  {
    ShiftPrepared(doc);
    ShiftReadings(Prepare(doc).value);
  }

  lemma ShiftReadings(g: Fields)
    requires Lookup(g, "reference") == Some(Obj([("form", Str("per_prompt"))]))
    requires Lookup(g, "penalties") == Some(Arr([])) && Lookup(g, "reducibility") == None
    requires Lookup(g, "weight").Some? && Lookup(g, "weight").value.Obj? && |Lookup(g, "weight").value.fields| > 0
    requires Lookup(Lookup(g, "weight").value.fields, "form") == Some(Str("constant"))
    ensures Classify(g) == Ok(Classification(false, [ReferenceShift], Obj([])))
  {
    ReferenceRead(g, "per_prompt");
    WeightRead(g, Lookup(g, "weight").value.fields, "constant");
    NoPenaltiesRead(g);
    NoWitnessRead(g);
    ClassifyFrom(g, true, Str("constant"), [], false, Obj([]));
    assert Str("constant") != Str("score_dependent") by {
      assert "constant"[0] != "score_dependent"[0];
    }
    assert Reasons(true, false, false) == [ReferenceShift];
  }

  /**
   * The reference-shift test: the canonical document is outside R, with the
   * single reason reference_shift and an empty witness.
   */
  lemma ReferenceShiftFlagged(doc: Fields, digest: Json -> string)
    requires ShiftShaped(doc)
    ensures Canonicalize(doc, digest).Ok?
    ensures Lookup(Canonicalize(doc, digest).value.doc, "reducibility") ==
      Some(Obj([("inside_R", Bool(false)), ("reasons", Arr([Str("reference_shift")])), ("witness", Obj([]))]))
  {
    ShiftClassified(doc);
    var g := Prepare(doc).value;
    var red := Classification(false, [ReferenceShift], Obj([]));
    assert ProvenanceOf(doc) == Ok([]);
    CanonicalizeFrom(doc, g, red, [], digest);
    FinishedShape(doc, g, red, [], digest);
    ShiftRecord();
  }

  lemma ShiftRecord()
    ensures ClassificationJson(Classification(false, [ReferenceShift], Obj([]))) ==
      Obj([("inside_R", Bool(false)), ("reasons", Arr([Str("reference_shift")])), ("witness", Obj([]))])
  {
    var tags := ClassificationJson(Classification(false, [ReferenceShift], Obj([]))).fields[1].1.items;
    assert |tags| == 1 && tags[0] == Str("reference_shift");
    assert tags == [Str("reference_shift")];
  }

  /**
   * The repository's reference-shift test on its own document: the
   * canonical record is outside R and lists reference_shift as its only
   * reason.
   */
  lemma ShiftTestFlagged(digest: Json -> string)
    ensures Canonicalize(SHIFT_TEST_DOC, digest).Ok?
    ensures Lookup(Canonicalize(SHIFT_TEST_DOC, digest).value.doc, "reducibility") ==
      Some(Obj([("inside_R", Bool(false)), ("reasons", Arr([Str("reference_shift")])), ("witness", Obj([]))]))
  {
    ShiftTestDoc();
    ReferenceShiftFlagged(SHIFT_TEST_DOC, digest);
  }
}
