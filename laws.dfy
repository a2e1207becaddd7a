/**
 * What the hash depends on: congruence of `canonicalize_and_hash` and the
 * parts of a document it ignores.
 */
module CanonicalLaws {
  import opened Wrappers
  import opened JsonValue
  import opened Rounding
  import opened KeySort
  import opened GkpoBase
  import opened Weight
  import opened Penalties
  import opened Reducibility
  import opened Canonicalization

  /** The serial reads `g1` only under the projection keys other than provenance. */
  lemma SerialCongruence(g1: Fields, g2: Fields, pf1: Fields, pf2: Fields)
    requires forall k :: k in SERIAL_KEYS && k != "provenance" ==> Lookup(g1, k) == Lookup(g2, k)
    requires ProvenanceView(pf1) == ProvenanceView(pf2)
    ensures SerialOf(g1, pf1) == SerialOf(g2, pf2)
  {
    assert Projection(g1, pf1) == Projection(g2, pf2);
  }

  lemma PrepareAt(doc: Fields, k: string)
    requires Prepare(doc).Ok?
    ensures Lookup(Prepare(doc).value, k) ==
      PreparedAt(doc, CanonWeight(WeightIn(doc)).value, SortPenalties(PenaltiesIn(doc)).value, k)
  {
    PrepareIs(doc);
    BuildLookup(doc, CanonWeight(WeightIn(doc)).value, SortPenalties(PenaltiesIn(doc)).value, k);
  }

  /** Preparing reads the weight and penalties entries only to normalise them. */
  lemma PrepareOutcome(doc1: Fields, doc2: Fields)
    requires WeightIn(doc1) == WeightIn(doc2) && PenaltiesIn(doc1) == PenaltiesIn(doc2)
    ensures Prepare(doc1).Err? ==> Prepare(doc2) == Prepare(doc1)
    ensures Prepare(doc1).Ok? ==> Prepare(doc2).Ok?
  {
  }

  lemma PrepareAgreeAt(doc1: Fields, doc2: Fields, k: string)
    requires WeightIn(doc1) == WeightIn(doc2) && PenaltiesIn(doc1) == PenaltiesIn(doc2)
    requires Prepare(doc1).Ok? && Prepare(doc2).Ok?
    requires Lookup(doc1, k) == Lookup(doc2, k)
    ensures Lookup(Prepare(doc1).value, k) == Lookup(Prepare(doc2).value, k)
  {
    var w := CanonWeight(WeightIn(doc1)).value;
    var ps := SortPenalties(PenaltiesIn(doc1)).value;
    PrepareAt(doc1, k);
    PrepareAt(doc2, k);
    PreparedAtAgree(doc1, doc2, w, ps, k);
  }

  lemma PreparedAtAgree(doc1: Fields, doc2: Fields, w: Fields, ps: seq<Json>, k: string)
    requires Lookup(doc1, k) == Lookup(doc2, k)
    ensures PreparedAt(doc1, w, ps, k) == PreparedAt(doc2, w, ps, k)
  {
  }

  /** The reducibility entry passes through preparation untouched. */
  lemma PrepareKeepsReducibility(doc: Fields)
    requires Prepare(doc).Ok?
    ensures Lookup(Prepare(doc).value, "reducibility") == Lookup(doc, "reducibility")
  {
    PrepareAt(doc, "reducibility");
  }

  /** The reducibility entry, hence its witness, passes through preparation untouched. */
  lemma PrepareKeepsWitness(doc: Fields)
    requires Prepare(doc).Ok?
    ensures WitnessOf(Prepare(doc).value) == WitnessOf(doc)
  {
    PrepareKeepsReducibility(doc);
    WitnessAgree(Prepare(doc).value, doc);
  }

  lemma WitnessAgree(g: Fields, doc: Fields)
    requires Lookup(g, "reducibility") == Lookup(doc, "reducibility")
    ensures WitnessOf(g) == WitnessOf(doc)
  {
  }

  /**
   * Preparing two documents that agree on the projected keys: both fail
   * alike, or both succeed and agree on those keys.
   */
  lemma PrepareCongruence(doc1: Fields, doc2: Fields)
    requires forall k :: k in PROJECTED ==> Lookup(doc1, k) == Lookup(doc2, k)
    ensures Prepare(doc1).Err? ==> Prepare(doc2) == Prepare(doc1)
    ensures Prepare(doc1).Ok? ==> Prepare(doc2).Ok?
    ensures Prepare(doc1).Ok? ==>
      forall k :: k in PROJECTED ==> Lookup(Prepare(doc1).value, k) == Lookup(Prepare(doc2).value, k)
  {
    assert Lookup(doc1, "weight") == Lookup(doc2, "weight");
    assert Lookup(doc1, "penalties") == Lookup(doc2, "penalties");
    PrepareOutcome(doc1, doc2);
    if Prepare(doc1).Ok? {
      forall k | k in PROJECTED ensures Lookup(Prepare(doc1).value, k) == Lookup(Prepare(doc2).value, k) {
        PrepareAgreeAt(doc1, doc2, k);
      }
    }
  }

  /** The returned hash is the digest of the returned serial. */
  lemma CanonicalHash(doc: Fields, digest: Json -> string)
    requires Canonicalize(doc, digest).Ok?
    ensures Canonicalize(doc, digest).value.hash == digest(Canonicalize(doc, digest).value.serial)
  {
    assert Prepare(doc).Ok? && Classify(Prepare(doc).value).Ok? && ProvenanceOf(doc).Ok?;
    var c := Finish(doc, Record(Prepare(doc).value, Classify(Prepare(doc).value).value), ProvenanceOf(doc).value, digest);
    assert Canonicalize(doc, digest) == Ok(c);
  }

  /** The outcome of `canonicalize_and_hash` from its three steps. */
  lemma CanonicalizeSteps(doc: Fields, digest: Json -> string)
    ensures Prepare(doc).Err? ==> Canonicalize(doc, digest) == Err(Prepare(doc).error)
    ensures Prepare(doc).Ok? && Classify(Prepare(doc).value).Err? ==>
      Canonicalize(doc, digest) == Err(Classify(Prepare(doc).value).error)
    ensures Prepare(doc).Ok? && Classify(Prepare(doc).value).Ok? && ProvenanceOf(doc).Err? ==>
      Canonicalize(doc, digest) == Err(ProvenanceOf(doc).error)
    ensures Prepare(doc).Ok? && Classify(Prepare(doc).value).Ok? && ProvenanceOf(doc).Ok? ==>
      && Canonicalize(doc, digest).Ok?
      && Canonicalize(doc, digest).value.serial ==
           SerialOf(Record(Prepare(doc).value, Classify(Prepare(doc).value).value), ProvenanceOf(doc).value)
      && Canonicalize(doc, digest).value.hash == digest(Canonicalize(doc, digest).value.serial)
  {
  }

  /**
   * Two documents that agree on the projected keys, carry the same
   * reducibility witness and provenance entries that agree on method,
   * citations and notes canonicalize alike: the same error, or the same
   * serial and hence the same hash.
   */
  lemma CanonicalizeCongruence(doc1: Fields, doc2: Fields, digest: Json -> string)
    requires forall k :: k in PROJECTED ==> Lookup(doc1, k) == Lookup(doc2, k)
    requires WitnessOf(doc1) == WitnessOf(doc2)
    requires ProvenanceOf(doc1).Err? == ProvenanceOf(doc2).Err?
    requires ProvenanceOf(doc1).Ok? && ProvenanceOf(doc2).Ok? ==>
      ProvenanceView(ProvenanceOf(doc1).value) == ProvenanceView(ProvenanceOf(doc2).value)
    ensures Canonicalize(doc1, digest).Err? ==> Canonicalize(doc2, digest) == Canonicalize(doc1, digest)
    ensures Canonicalize(doc1, digest).Ok? ==>
      && Canonicalize(doc2, digest).Ok?
      && Canonicalize(doc2, digest).value.serial == Canonicalize(doc1, digest).value.serial
      && Canonicalize(doc2, digest).value.hash == Canonicalize(doc1, digest).value.hash
  {
    PrepareCongruence(doc1, doc2);
    if Prepare(doc1).Err? {
      CanonicalizeSteps(doc1, digest);
      CanonicalizeSteps(doc2, digest);
    } else {
      ClassifyAfterPrepare(doc1, doc2);
      if Classify(Prepare(doc1).value).Err? {
        ClassifyFails(doc1, doc2, digest);
      } else if ProvenanceOf(doc1).Err? {
        ProvenanceFails(doc1, doc2, digest);
      } else {
        StepsSucceed(doc1, doc2, digest);
      }
    }
  }

  lemma ClassifyFails(doc1: Fields, doc2: Fields, digest: Json -> string)
    requires Prepare(doc1).Ok? && Prepare(doc2).Ok?
    requires Classify(Prepare(doc1).value) == Classify(Prepare(doc2).value)
    requires Classify(Prepare(doc1).value).Err?
    ensures Canonicalize(doc1, digest).Err? && Canonicalize(doc2, digest) == Canonicalize(doc1, digest)
  {
    CanonicalizeSteps(doc1, digest);
    CanonicalizeSteps(doc2, digest);
  }

  lemma ProvenanceFails(doc1: Fields, doc2: Fields, digest: Json -> string)
    requires Prepare(doc1).Ok? && Prepare(doc2).Ok?
    requires Classify(Prepare(doc1).value).Ok? && Classify(Prepare(doc2).value).Ok?
    requires ProvenanceOf(doc1).Err? && ProvenanceOf(doc2).Err?
    ensures Canonicalize(doc1, digest).Err? && Canonicalize(doc2, digest) == Canonicalize(doc1, digest)
  {
    ProvenanceError(doc1);
    ProvenanceError(doc2);
    CanonicalizeSteps(doc1, digest);
    CanonicalizeSteps(doc2, digest);
  }

  lemma ProvenanceError(doc: Fields)
    requires ProvenanceOf(doc).Err?
    ensures ProvenanceOf(doc).error == TypeError("provenance.get")
  {
  }

  lemma StepsSucceed(doc1: Fields, doc2: Fields, digest: Json -> string)
    requires Prepare(doc1).Ok? && Prepare(doc2).Ok?
    requires forall k :: k in PROJECTED ==> Lookup(Prepare(doc1).value, k) == Lookup(Prepare(doc2).value, k)
    requires Classify(Prepare(doc1).value) == Classify(Prepare(doc2).value)
    requires Classify(Prepare(doc1).value).Ok?
    requires ProvenanceOf(doc1).Ok? && ProvenanceOf(doc2).Ok?
    requires ProvenanceView(ProvenanceOf(doc1).value) == ProvenanceView(ProvenanceOf(doc2).value)
    ensures Canonicalize(doc1, digest).Ok? && Canonicalize(doc2, digest).Ok?
    ensures Canonicalize(doc2, digest).value.serial == Canonicalize(doc1, digest).value.serial
    ensures Canonicalize(doc2, digest).value.hash == Canonicalize(doc1, digest).value.hash
  {
    CanonicalizeSteps(doc1, digest);
    CanonicalizeSteps(doc2, digest);
    RecordCongruence(Prepare(doc1).value, Prepare(doc2).value, Classify(Prepare(doc1).value).value,
      ProvenanceOf(doc1).value, ProvenanceOf(doc2).value);
  }

  lemma ClassifyAfterPrepare(doc1: Fields, doc2: Fields)
    requires Prepare(doc1).Ok? && Prepare(doc2).Ok?
    requires forall k :: k in PROJECTED ==> Lookup(Prepare(doc1).value, k) == Lookup(Prepare(doc2).value, k)
    requires WitnessOf(doc1) == WitnessOf(doc2)
    ensures Classify(Prepare(doc1).value) == Classify(Prepare(doc2).value)
  {
    var g1 := Prepare(doc1).value;
    var g2 := Prepare(doc2).value;
    PrepareKeepsWitness(doc1);
    PrepareKeepsWitness(doc2);
    assert Lookup(g1, "reference") == Lookup(g2, "reference");
    assert Lookup(g1, "weight") == Lookup(g2, "weight");
    assert Lookup(g1, "penalties") == Lookup(g2, "penalties");
    ClassifyCongruence(g1, g2);
  }

  lemma RecordCongruence(g1: Fields, g2: Fields, red: Classification, pf1: Fields, pf2: Fields)
    requires forall k :: k in PROJECTED ==> Lookup(g1, k) == Lookup(g2, k)
    requires ProvenanceView(pf1) == ProvenanceView(pf2)
    ensures SerialOf(Record(g1, red), pf1) == SerialOf(Record(g2, red), pf2)
  {
    RecordsAgree(g1, g2, red);
    SerialCongruence(Record(g1, red), Record(g2, red), pf1, pf2);
  }

  lemma RecordsAgree(g1: Fields, g2: Fields, red: Classification)
    requires forall k :: k in PROJECTED ==> Lookup(g1, k) == Lookup(g2, k)
    ensures forall k :: k in SERIAL_KEYS && k != "provenance" ==> Lookup(Record(g1, red), k) == Lookup(Record(g2, red), k)
  {
    forall k | k in SERIAL_KEYS && k != "provenance"
      ensures Lookup(Record(g1, red), k) == Lookup(Record(g2, red), k)
    {
      assert k == "reducibility" || k in PROJECTED;
      RecordAgreeAt(g1, g2, red, k);
    }
  }

  lemma RecordAgreeAt(g1: Fields, g2: Fields, red: Classification, k: string)
    requires k == "reducibility" || Lookup(g1, k) == Lookup(g2, k)
    ensures Lookup(Record(g1, red), k) == Lookup(Record(g2, red), k)
  {
    SetAt(g1, "reducibility", ClassificationJson(red), k);
    SetAt(g2, "reducibility", ClassificationJson(red), k);
  }

  /**
   * The hash depends on the entries of the caller's mapping, not on the order
   * in which it lists them.
   */
  lemma OrderIgnored(doc1: Fields, doc2: Fields, digest: Json -> string)
    requires forall k :: Lookup(doc1, k) == Lookup(doc2, k)
    ensures Canonicalize(doc1, digest).Err? ==> Canonicalize(doc2, digest) == Canonicalize(doc1, digest)
    ensures Canonicalize(doc1, digest).Ok? ==>
      && Canonicalize(doc2, digest).Ok?
      && Canonicalize(doc2, digest).value.hash == Canonicalize(doc1, digest).value.hash
  {
    WitnessAgree(doc1, doc2);
    assert ProvenanceOf(doc1) == ProvenanceOf(doc2) by {
      assert Lookup(doc1, "provenance") == Lookup(doc2, "provenance");
    }
    CanonicalizeCongruence(doc1, doc2, digest);
  }

  /** The premises of `CanonicalizeCongruence`. */
  predicate Congruent(doc1: Fields, doc2: Fields) {
    && (forall k :: k in PROJECTED ==> Lookup(doc1, k) == Lookup(doc2, k))
    && WitnessOf(doc1) == WitnessOf(doc2)
    && ProvenanceOf(doc1).Err? == ProvenanceOf(doc2).Err?
    && (ProvenanceOf(doc1).Ok? && ProvenanceOf(doc2).Ok? ==>
          ProvenanceView(ProvenanceOf(doc1).value) == ProvenanceView(ProvenanceOf(doc2).value))
  }

  lemma SameHash(doc1: Fields, doc2: Fields, digest: Json -> string)
    requires Congruent(doc1, doc2)
    ensures Canonicalize(doc1, digest).Err? ==> Canonicalize(doc2, digest) == Canonicalize(doc1, digest)
    ensures Canonicalize(doc1, digest).Ok? ==>
      && Canonicalize(doc2, digest).Ok?
      && Canonicalize(doc2, digest).value.hash == Canonicalize(doc1, digest).value.hash
  {
    CanonicalizeCongruence(doc1, doc2, digest);
  }

  /** Setting a key outside the projected ones leaves them as they were. */
  lemma SetOutside(doc: Fields, k: string, v: Json)
    requires k !in PROJECTED
    ensures forall x :: x in PROJECTED ==> Lookup(Set(doc, k, v), x) == Lookup(doc, x)
  {
  }

  lemma OtherKeysCongruent(doc: Fields, k: string, v: Json)
    requires k !in SERIAL_KEYS
    ensures Congruent(doc, Set(doc, k, v))
  {
    var doc2 := Set(doc, k, v);
    assert k !in PROJECTED && k != "reducibility" && k != "provenance";
    SetOutside(doc, k, v);
    SetAt(doc, k, v, "reducibility");
    SetAt(doc, k, v, "provenance");
    WitnessAgree(doc, doc2);
    ProvenanceAgree(doc, doc2);
  }

  lemma ProvenanceAgree(doc1: Fields, doc2: Fields)
    requires Lookup(doc1, "provenance") == Lookup(doc2, "provenance")
    ensures ProvenanceOf(doc1) == ProvenanceOf(doc2)
  {
  }

  /**
   * Keys outside the hashed projection (anything but version, score, weight,
   * reference, link, loss, beta, penalties, dataset_ops, reducibility and
   * provenance, e.g. an earlier `_canonical_serial`) do not affect the hash.
   */
  lemma OtherKeysIgnored(doc: Fields, k: string, v: Json, digest: Json -> string)
    requires k !in SERIAL_KEYS
    ensures Canonicalize(doc, digest).Err? ==> Canonicalize(Set(doc, k, v), digest) == Canonicalize(doc, digest)
    ensures Canonicalize(doc, digest).Ok? ==>
      && Canonicalize(Set(doc, k, v), digest).Ok?
      && Canonicalize(Set(doc, k, v), digest).value.hash == Canonicalize(doc, digest).value.hash
  {
    OtherKeysCongruent(doc, k, v);
    SameHash(doc, Set(doc, k, v), digest);
  }

  lemma WitnessSetOther(doc: Fields, k: string, v: Json)
    requires k != "reducibility"
    ensures WitnessOf(Set(doc, k, v)) == WitnessOf(doc)
  {
    SetAt(doc, k, v, "reducibility");
    WitnessAgree(Set(doc, k, v), doc);
  }

  lemma ProvenanceOfSet(doc: Fields, pf: Fields)
    ensures ProvenanceOf(Set(doc, "provenance", Obj(pf))) == Ok(pf)
  {
  }

  lemma ViewIgnoresHash(pf: Fields, h: Json)
    ensures ProvenanceView(Set(pf, "opal_hash", h)) == ProvenanceView(pf)
  {
    SetAt(pf, "opal_hash", h, "method");
    SetAt(pf, "opal_hash", h, "citations");
    SetAt(pf, "opal_hash", h, "notes");
  }

  lemma StaleHashCongruent(doc: Fields, pf: Fields, h: Json)
    requires Lookup(doc, "provenance") == Some(Obj(pf))
    ensures Congruent(doc, Set(doc, "provenance", Obj(Set(pf, "opal_hash", h))))
  {
    var pf2 := Set(pf, "opal_hash", h);
    SetOutside(doc, "provenance", Obj(pf2));
    WitnessSetOther(doc, "provenance", Obj(pf2));
    ProvenanceOfSet(doc, pf2);
    ViewIgnoresHash(pf, h);
  }

  /** A stale `opal_hash` in the caller's provenance does not affect the hash. */
  lemma StaleHashIgnored(doc: Fields, pf: Fields, h: Json, digest: Json -> string)
    requires Lookup(doc, "provenance") == Some(Obj(pf))
    ensures var doc2 := Set(doc, "provenance", Obj(Set(pf, "opal_hash", h)));
      && (Canonicalize(doc, digest).Err? ==> Canonicalize(doc2, digest) == Canonicalize(doc, digest))
      && (Canonicalize(doc, digest).Ok? ==>
            Canonicalize(doc2, digest).Ok? &&
            Canonicalize(doc2, digest).value.hash == Canonicalize(doc, digest).value.hash)
  {
    StaleHashCongruent(doc, pf, h);
    SameHash(doc, Set(doc, "provenance", Obj(Set(pf, "opal_hash", h))), digest);
  }

  lemma ProvenanceSetOther(doc: Fields, k: string, v: Json)
    requires k != "provenance"
    ensures ProvenanceOf(Set(doc, k, v)) == ProvenanceOf(doc)
  {
    SetAt(doc, k, v, "provenance");
  }

  lemma GetSetOther(fs: Fields, k: string, v: Json, k': string, d: Json)
    requires k != k'
    ensures Get(Set(fs, k, v), k', d) == Get(fs, k', d)
  {
    SetAt(fs, k, v, k');
  }

  lemma WitnessOfSet(doc: Fields, rf: Fields)
    ensures WitnessOf(Set(doc, "reducibility", Obj(rf))) == Ok(Get(rf, "witness", Obj([])))
  {
  }

  lemma ClaimCongruent(doc: Fields, rf: Fields, k: string, v: Json)
    requires Lookup(doc, "reducibility") == Some(Obj(rf)) && k != "witness"
    ensures Congruent(doc, Set(doc, "reducibility", Obj(Set(rf, k, v))))
  {
    var rf2 := Set(rf, k, v);
    SetOutside(doc, "reducibility", Obj(rf2));
    WitnessOfSet(doc, rf2);
    assert WitnessOf(doc) == Ok(Get(rf, "witness", Obj([])));
    GetSetOther(rf, k, v, "witness", Obj([]));
    ProvenanceSetOther(doc, "reducibility", Obj(rf2));
  }

  /**
   * A caller's claimed `inside_R` or `reasons` (any reducibility entry but
   * `witness`) does not affect the hash: the classification is recomputed.
   */
  lemma ClaimedReducibilityIgnored(doc: Fields, rf: Fields, k: string, v: Json, digest: Json -> string)
    requires Lookup(doc, "reducibility") == Some(Obj(rf)) && k != "witness"
    ensures var doc2 := Set(doc, "reducibility", Obj(Set(rf, k, v)));
      && (Canonicalize(doc, digest).Err? ==> Canonicalize(doc2, digest) == Canonicalize(doc, digest))
      && (Canonicalize(doc, digest).Ok? ==>
            Canonicalize(doc2, digest).Ok? &&
            Canonicalize(doc2, digest).value.hash == Canonicalize(doc, digest).value.hash)
  {
    ClaimCongruent(doc, rf, k, v);
    SameHash(doc, Set(doc, "reducibility", Obj(Set(rf, k, v))), digest);
  }
}
