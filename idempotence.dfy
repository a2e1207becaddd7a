/**
 * `canonicalize_and_hash` is idempotent: canonicalizing its output changes
 * nothing and reproduces the same serial and hash.
 */
module Idempotence {
  import opened Wrappers
  import opened JsonValue
  import opened GkpoBase
  import opened Weight
  import opened Penalties
  import opened Reducibility
  import opened Canonicalization
  import opened CanonicalLaws

  /** The keys a prepared document always holds. */
  predicate HasDefaults(d: Fields) {
    && "version" in KeySet(d) && "reference" in KeySet(d) && "link" in KeySet(d)
    && "loss" in KeySet(d) && "beta" in KeySet(d) && "dataset_ops" in KeySet(d)
    && "provenance" in KeySet(d)
  }

  lemma SetDefaultPresent(fs: Fields, k: string, v: Json)
    requires k in KeySet(fs)
    ensures SetDefault(fs, k, v) == fs
  {
  }

  /** Filling in defaults where every default key is present and the weight and penalties are already normal changes nothing. */
  lemma BuildFixed(d: Fields, w: Fields, ps: seq<Json>)
    requires HasDefaults(d)
    requires Lookup(d, "weight") == Some(Obj(w)) && Lookup(d, "penalties") == Some(Arr(ps))
    ensures Build(d, w, ps) == d
  {
    SetDefaultPresent(d, "version", Str(SCHEMA_VERSION));
    SetSame(d, "weight", Obj(w));
    SetDefaultPresent(d, "reference", DEFAULT_REFERENCE);
    SetDefaultPresent(d, "link", Str("identity"));
    SetDefaultPresent(d, "loss", Str("logistic"));
    SetDefaultPresent(d, "beta", Num(1.0));
    assert Middle(d, w) == d;
    SetSame(d, "penalties", Arr(ps));
    SetDefaultPresent(d, "dataset_ops", DEFAULT_DATASET_OPS);
    SetDefaultPresent(d, "provenance", Obj([]));
  }

  lemma PrepareFixed(d: Fields, w: Fields, ps: seq<Json>)
    requires HasDefaults(d)
    requires Lookup(d, "weight") == Some(Obj(w)) && Lookup(d, "penalties") == Some(Arr(ps))
    requires |w| > 0 && CanonWeight(Obj(w)) == Ok(w)
    requires SortPenalties(Arr(ps)) == Ok(ps)
    ensures Prepare(d) == Ok(d)
  {
    InputsFixed(d, w, ps);
    PrepareFrom(d, w, ps);
    BuildFixed(d, w, ps);
  }

  lemma InputsFixed(d: Fields, w: Fields, ps: seq<Json>)
    requires Lookup(d, "weight") == Some(Obj(w)) && Lookup(d, "penalties") == Some(Arr(ps))
    requires |w| > 0 && CanonWeight(Obj(w)) == Ok(w)
    requires SortPenalties(Arr(ps)) == Ok(ps)
    ensures CanonWeight(WeightIn(d)) == Ok(w) && SortPenalties(PenaltiesIn(d)) == Ok(ps)
  {
    assert WeightIn(d) == Obj(w);
    assert PenaltiesIn(d) == Arr(ps) by {
      if ps == [] { assert Arr(ps) == Arr([]); }
    }
  }

  lemma PrepareFrom(d: Fields, w: Fields, ps: seq<Json>)
    requires CanonWeight(WeightIn(d)) == Ok(w) && SortPenalties(PenaltiesIn(d)) == Ok(ps)
    ensures Prepare(d) == Ok(Build(d, w, ps))
  {
  }

  /** A prepared document holds every default key and its normalised weight and penalties. */
  lemma PreparedShape(doc: Fields)
    requires Prepare(doc).Ok?
    ensures var w := CanonWeight(WeightIn(doc)).value;
      var ps := SortPenalties(PenaltiesIn(doc)).value;
      && HasDefaults(Prepare(doc).value)
      && Lookup(Prepare(doc).value, "weight") == Some(Obj(w))
      && Lookup(Prepare(doc).value, "penalties") == Some(Arr(ps))
      && |w| > 0 && CanonWeight(Obj(w)) == Ok(w)
      && SortPenalties(Arr(ps)) == Ok(ps)
  {
    var g := Prepare(doc).value;
    PrepareAt(doc, "weight");
    PrepareAt(doc, "penalties");
    PrepareAt(doc, "version");
    PrepareAt(doc, "reference");
    PrepareAt(doc, "link");
    PrepareAt(doc, "loss");
    PrepareAt(doc, "beta");
    PrepareAt(doc, "dataset_ops");
    PrepareAt(doc, "provenance");
    LookupSome(g);
    CanonWeightNonEmpty(WeightIn(doc));
    CanonWeightIdempotent(WeightIn(doc));
    SortPenaltiesIdempotent(PenaltiesIn(doc));
  }

  lemma LookupSome(g: Fields)
    requires Lookup(g, "version").Some? && Lookup(g, "reference").Some? && Lookup(g, "link").Some?
    requires Lookup(g, "loss").Some? && Lookup(g, "beta").Some? && Lookup(g, "dataset_ops").Some?
    requires Lookup(g, "provenance").Some?
    ensures HasDefaults(g)
  {
  }

  /** What the returned document holds, in terms of the prepared `g`. */
  lemma FinishedShape(doc: Fields, g: Fields, red: Classification, pf: Fields, digest: Json -> string)
    ensures var c := Finish(doc, Record(g, red), pf, digest);
      && KeySet(g) <= KeySet(c.doc)
      && (forall k :: k != "_canonical_serial" && k != "provenance" && k != "reducibility" ==>
            Lookup(c.doc, k) == Lookup(g, k))
      && Lookup(c.doc, "reducibility") == Some(ClassificationJson(red))
      && Lookup(c.doc, "provenance") == Some(Obj(Set(pf, "opal_hash", Str(c.hash))))
      && Lookup(c.doc, "_canonical_serial") == Some(c.serial)
  {
    FinishSpec(doc, Record(g, red), pf, digest);
  }

  lemma WitnessOfRecord(d: Fields, red: Classification)
    requires Lookup(d, "reducibility") == Some(ClassificationJson(red))
    ensures WitnessOf(d) == Ok(red.evidence)
  {
    var fs := ClassificationJson(red).fields;
    assert fs[2].0 == "witness" && fs[0].0 != "witness" && fs[1].0 != "witness";
  }

  /** Classifying the returned document reproduces the classification it records. */
  lemma ClassifyFixed(d: Fields, g: Fields, red: Classification)
    requires Classify(g) == Ok(red)
    requires Lookup(d, "reference") == Lookup(g, "reference")
    requires Lookup(d, "weight") == Lookup(g, "weight")
    requires Lookup(d, "penalties") == Lookup(g, "penalties")
    requires Lookup(d, "reducibility") == Some(ClassificationJson(red))
    ensures Classify(d) == Ok(red)
  {
    WitnessOfRecord(d, red);
    ClassifyEvidence(g);
    ClassifyCongruence(d, g);
  }

  /** The serial of the returned document is the serial it records. */
  lemma SerialFixed(doc: Fields, g1: Fields, pf: Fields, digest: Json -> string)
    ensures var c := Finish(doc, g1, pf, digest);
      SerialOf(c.doc, Set(pf, "opal_hash", Str(c.hash))) == c.serial
  {
    var c := Finish(doc, g1, pf, digest);
    FinishSpec(doc, g1, pf, digest);
    forall k | k in SERIAL_KEYS && k != "provenance" ensures Lookup(c.doc, k) == Lookup(g1, k) {
      assert k != "_canonical_serial";
    }
    ViewIgnoresHash(pf, Str(c.hash));
    SerialCongruence(c.doc, g1, Set(pf, "opal_hash", Str(c.hash)), pf);
  }

  lemma CanonicalizeFrom(d: Fields, g: Fields, red: Classification, pf: Fields, digest: Json -> string)
    requires Prepare(d) == Ok(g) && Classify(g) == Ok(red) && ProvenanceOf(d) == Ok(pf)
    ensures Canonicalize(d, digest) == Ok(Finish(d, Record(g, red), pf, digest))
  {
  }

  /** Finishing a document that already records its serial and hash changes nothing. */
  lemma FinishFixed(d: Fields, pf: Fields, serial: Json, h: string, digest: Json -> string)
    requires SerialOf(d, pf) == serial && digest(serial) == h
    requires Lookup(pf, "opal_hash") == Some(Str(h))
    requires Lookup(d, "provenance") == Some(Obj(pf))
    requires Lookup(d, "_canonical_serial") == Some(serial)
    ensures Finish(d, d, pf, digest) == Canonical(d, serial, h, d)
  {
    SetSame(pf, "opal_hash", Str(h));
    SetSame(d, "provenance", Obj(pf));
    SetSame(d, "_canonical_serial", serial);
    assert "provenance" in KeySet(d);
  }

  /** The returned document is already prepared. */
  lemma PreparedFixed(doc: Fields, g: Fields, red: Classification, pf: Fields, w: Fields, ps: seq<Json>,
                      digest: Json -> string)
    requires HasDefaults(g)
    requires Lookup(g, "weight") == Some(Obj(w)) && Lookup(g, "penalties") == Some(Arr(ps))
    requires |w| > 0 && CanonWeight(Obj(w)) == Ok(w)
    requires SortPenalties(Arr(ps)) == Ok(ps)
    ensures var d := Finish(doc, Record(g, red), pf, digest).doc;
      Prepare(d) == Ok(d)
  {
    var d := Finish(doc, Record(g, red), pf, digest).doc;
    FinishedShape(doc, g, red, pf, digest);
    assert HasDefaults(d);
    PrepareFixed(d, w, ps);
  }

  /** The returned document classifies as it records, and recording it again changes nothing. */
  lemma RecordedFixed(doc: Fields, g: Fields, red: Classification, pf: Fields, digest: Json -> string)
    requires Classify(g) == Ok(red)
    ensures var d := Finish(doc, Record(g, red), pf, digest).doc;
      Classify(d) == Ok(red) && Record(d, red) == d
  {
    var d := Finish(doc, Record(g, red), pf, digest).doc;
    FinishedShape(doc, g, red, pf, digest);
    ClassifyFixed(d, g, red);
    SetSame(d, "reducibility", ClassificationJson(red));
  }

  lemma ProvenanceFixed(doc: Fields, g1: Fields, pf: Fields, digest: Json -> string)
    ensures var c := Finish(doc, g1, pf, digest);
      ProvenanceOf(c.doc) == Ok(Set(pf, "opal_hash", Str(c.hash)))
  {
    FinishSpec(doc, g1, pf, digest);
  }

  lemma FixedFrom(doc: Fields, g: Fields, red: Classification, pf: Fields, w: Fields, ps: seq<Json>,
                  digest: Json -> string)
    requires HasDefaults(g)
    requires Lookup(g, "weight") == Some(Obj(w)) && Lookup(g, "penalties") == Some(Arr(ps))
    requires |w| > 0 && CanonWeight(Obj(w)) == Ok(w)
    requires SortPenalties(Arr(ps)) == Ok(ps)
    requires Classify(g) == Ok(red)
    ensures var c := Finish(doc, Record(g, red), pf, digest);
      Canonicalize(c.doc, digest) == Ok(Canonical(c.doc, c.serial, c.hash, c.doc))
  {
    var c := Finish(doc, Record(g, red), pf, digest);
    var pf2 := Set(pf, "opal_hash", Str(c.hash));
    PreparedFixed(doc, g, red, pf, w, ps, digest);
    RecordedFixed(doc, g, red, pf, digest);
    ProvenanceFixed(doc, Record(g, red), pf, digest);
    CanonicalizeFrom(c.doc, c.doc, red, pf2, digest);
    SerialFixed(doc, Record(g, red), pf, digest);
    FinishSpec(doc, Record(g, red), pf, digest);
    SetAt(pf, "opal_hash", Str(c.hash), "opal_hash");
    FinishFixed(c.doc, pf2, c.serial, c.hash, digest);
  }

  /**
   * Canonicalizing a canonical document changes nothing: the same document
   * comes back, with the same serial and the same hash, and the mapping
   * passed in is left as it was.
   */
  lemma CanonicalizeIdempotent(doc: Fields, digest: Json -> string)
    requires Canonicalize(doc, digest).Ok?
    ensures var c := Canonicalize(doc, digest).value;
      Canonicalize(c.doc, digest) == Ok(Canonical(c.doc, c.serial, c.hash, c.doc))
  {
    CanonicalizeIs(doc, digest);
    PreparedShape(doc);
    FixedFrom(doc, Prepare(doc).value, Classify(Prepare(doc).value).value, ProvenanceOf(doc).value,
      CanonWeight(WeightIn(doc)).value, SortPenalties(PenaltiesIn(doc)).value, digest);
  }
}
