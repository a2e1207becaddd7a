/** adapters/dpo.py: a DPO configuration to a canonical GKPO mapping and back. */
module Dpo {
  import opened Wrappers
  import opened JsonValue
  import opened GkpoBase
  import opened Rounding
  import opened KeySort
  import opened Penalties
  import opened Reducibility
  import opened Canonicalization
  import opened CanonicalLaws
  import opened Idempotence
  import opened Adapters

  /** What `gkpo_to_dpo` returns: `delta_ref`, `beta`, `loss` and `link`. */
  datatype DpoConfig = DpoConfig(deltaRef: real, beta: real, loss: Json, link: Json)

  const DPO_CITATION: string := "rafailov2023direct"

  /** The mapping `dpo_to_gkpo` builds: no penalties, provenance method "DPO". */
  function DpoDoc(deltaRef: real, beta: real, citations: Json): Fields {
    Template(deltaRef, beta, [], "DPO", CitationsOr(citations, DPO_CITATION))
  }

  /** `dpo_to_gkpo`: the canonical form of the DPO mapping. */
  function DpoToGkpo(deltaRef: real, beta: real, citations: Json, digest: Json -> string): Result<Canonical, Error> {
    Canonicalize(DpoDoc(deltaRef, beta, citations), digest)
  }

  /**
   * The reads of `gkpo_to_dpo` from the canonical mapping `g2`: refuse a
   * mapping outside R, then `float(ref.get("value", 0.0))`,
   * `float(g2.get("beta", 1.0))`, and `loss` and `link` with their defaults.
   */
  function DpoRead(g2: Fields): Result<DpoConfig, Error> {
    var rejected := Rejection(g2);
    if rejected.Some? then Err(rejected.value)
    else
      var ref := Get(g2, "reference", Obj([]));
      if !ref.Obj? then Err(TypeError("reference.get"))
      else
        var d := ToFloat(Get(ref.fields, "value", Num(0.0)));
        if d.Err? then Err(d.error)
        else
          var b := ToFloat(Get(g2, "beta", Num(1.0)));
          if b.Err? then Err(b.error)
          else Ok(DpoConfig(d.value, b.value, Get(g2, "loss", Str("logistic")), Get(g2, "link", Str("identity"))))
  }

  /** `gkpo_to_dpo`: canonicalise, then read the DPO configuration back. */
  function GkpoToDpo(g: Fields, digest: Json -> string): Result<DpoConfig, Error> {
    var c := Canonicalize(g, digest);
    if c.Err? then Err(c.error) else DpoRead(c.value.doc)
  }

  /**
   * `dpo_to_gkpo` always succeeds, and whatever the arguments the result is
   * inside R with no reasons; the reference is the fixed scalar `delta_ref`,
   * `beta` is as given, there are no penalties, and the serial's provenance
   * names DPO with the given citations, or the default one when none are
   * given.
   */
  lemma DpoToGkpoSpec(deltaRef: real, beta: real, citations: Json, digest: Json -> string)
    ensures DpoToGkpo(deltaRef, beta, citations, digest).Ok?
    ensures var c := DpoToGkpo(deltaRef, beta, citations, digest).value;
      && Lookup(c.doc, "reducibility") == Some(ClassificationJson(Classification(true, [], Obj([]))))
      && Lookup(c.doc, "reference") == Some(ScalarReference(deltaRef))
      && Lookup(c.doc, "beta") == Some(Num(beta))
      && Lookup(c.doc, "penalties") == Some(Arr([]))
      && c.serial.Obj? && Lookup(c.serial.fields, "provenance").Some?
      && Lookup(c.serial.fields, "provenance").value.Obj?
      && var prov := Lookup(c.serial.fields, "provenance").value.fields;
      && Lookup(prov, "method") == Some(Str("DPO"))
      && Lookup(prov, "citations") ==
           Some(SortedObj(RoundAll(if Truthy(citations) then citations else Arr([Str(DPO_CITATION)]))))
  {
    var cit := CitationsOr(citations, DPO_CITATION);
    TemplateShape(deltaRef, beta, [], "DPO", cit);
    TemplateCanonical(DpoDoc(deltaRef, beta, citations), deltaRef, beta, [], "DPO", cit, digest);
    TemplateSerial(DpoDoc(deltaRef, beta, citations), deltaRef, beta, [], "DPO", cit, digest);
    assert SortPenalties(Arr([])) == Ok([]);
  }

  /** What `DpoRead` returns from a mapping the classifier put inside R. */
  lemma DpoReadInside(g2: Fields, deltaRef: real, beta: real)
    requires Lookup(g2, "reducibility") == Some(ClassificationJson(INSIDE))
    requires Lookup(g2, "reference") == Some(ScalarReference(deltaRef)) && Lookup(g2, "beta") == Some(Num(beta))
    requires Lookup(g2, "loss") == Some(Str("logistic")) && Lookup(g2, "link") == Some(Str("identity"))
    ensures DpoRead(g2) == Ok(DpoConfig(deltaRef, beta, Str("logistic"), Str("identity")))
  {
    assert Rejection(g2).None? by { RejectionOfRecord(g2, INSIDE); }
    ScalarValue(deltaRef);
    assert Get(g2, "reference", Obj([])) == ScalarReference(deltaRef);
    assert Get(g2, "beta", Num(1.0)) == Num(beta);
  }

  /**
   * The round trip of the repository's DPO test: converting a DPO
   * configuration to GKPO, canonicalising that once more, and converting
   * back gives the same `delta_ref` and `beta` exactly (the returned mapping
   * keeps them unrounded; only the serial is rounded), with the logistic
   * loss and the identity link.
   */
  lemma DpoRoundTrip(deltaRef: real, beta: real, citations: Json, digest: Json -> string)
    ensures DpoToGkpo(deltaRef, beta, citations, digest).Ok?
    ensures var g := DpoToGkpo(deltaRef, beta, citations, digest).value.doc;
      && GkpoToDpo(g, digest) == Ok(DpoConfig(deltaRef, beta, Str("logistic"), Str("identity")))
      && Canonicalize(g, digest).Ok?
      && GkpoToDpo(Canonicalize(g, digest).value.doc, digest) ==
           Ok(DpoConfig(deltaRef, beta, Str("logistic"), Str("identity")))
  {
    var doc := DpoDoc(deltaRef, beta, citations);
    var cit := CitationsOr(citations, DPO_CITATION);
    TemplateShape(deltaRef, beta, [], "DPO", cit);
    TemplateCanonical(doc, deltaRef, beta, [], "DPO", cit, digest);
    var c := Canonicalize(doc, digest).value;
    CanonicalizeIdempotent(doc, digest);
    assert Canonicalize(c.doc, digest).value.doc == c.doc;
    DpoReadInside(c.doc, deltaRef, beta);
  }

  /** The reads from a mapping that passes the reducibility test. */
  lemma DpoReadSpec(g2: Fields)
    ensures DpoRead(g2).Ok? ==>
      var cfg := DpoRead(g2).value;
      var ref := Get(g2, "reference", Obj([]));
      && Rejection(g2).None?
      && ref.Obj? && NumVal(Get(ref.fields, "value", Num(0.0))) == Some(cfg.deltaRef)
      && NumVal(Get(g2, "beta", Num(1.0))) == Some(cfg.beta)
      && cfg.loss == Get(g2, "loss", Str("logistic"))
      && cfg.link == Get(g2, "link", Str("identity"))
  {
  }

  /** Past the reducibility test, reading fails only with a built-in error. */
  lemma DpoReadFails(g2: Fields)
    requires Rejection(g2).None? && DpoRead(g2).Err?
    ensures DpoRead(g2).error.TypeError?
  {
    var ref := Get(g2, "reference", Obj([]));
    if ref.Obj? {
      var d := ToFloat(Get(ref.fields, "value", Num(0.0)));
      if d.Ok? {
        var b := ToFloat(Get(g2, "beta", Num(1.0)));
        assert b.Err?;
      }
    }
  }

  /**
   * `gkpo_to_dpo` refuses exactly the mappings whose recomputed record is
   * outside R, with the recomputed reasons; a failing canonicalisation fails
   * it the same way.
   */
  lemma GkpoToDpoRefuses(g: Fields, digest: Json -> string)
    ensures Canonicalize(g, digest).Err? ==> GkpoToDpo(g, digest) == Err(Canonicalize(g, digest).error)
    ensures Canonicalize(g, digest).Ok? ==>
      var red := Classify(Prepare(g).value).value;
      && (red.reasons != [] ==> GkpoToDpo(g, digest) == Err(Irreducible(Arr(Tags(red.reasons)))))
      && (red.reasons == [] ==> !(GkpoToDpo(g, digest).Err? && GkpoToDpo(g, digest).error.Irreducible?))
  {
    if Canonicalize(g, digest).Ok? {
      RejectionOfCanonical(g, digest);
      var c := Canonicalize(g, digest).value;
      assert GkpoToDpo(g, digest) == DpoRead(c.doc);
      if Rejection(c.doc).None? && DpoRead(c.doc).Err? {
        DpoReadFails(c.doc);
      }
    }
  }

  /**
   * A configuration read back comes from a mapping inside R, with
   * `delta_ref` the number under the caller's reference `value` (0.0 when
   * absent) and `beta`, `loss` and `link` the caller's, or their defaults.
   */
  lemma GkpoToDpoReads(g: Fields, digest: Json -> string)
    ensures GkpoToDpo(g, digest).Ok? ==>
      var cfg := GkpoToDpo(g, digest).value;
      var ref := Lookup(g, "reference").GetOr(DEFAULT_REFERENCE);
      && Canonicalize(g, digest).Ok? && Classify(Prepare(g).value).value.insideR
      && ref.Obj? && NumVal(Get(ref.fields, "value", Num(0.0))) == Some(cfg.deltaRef)
      && NumVal(Lookup(g, "beta").GetOr(Num(1.0))) == Some(cfg.beta)
      && cfg.loss == Lookup(g, "loss").GetOr(Str("logistic"))
      && cfg.link == Lookup(g, "link").GetOr(Str("identity"))
  {
    if GkpoToDpo(g, digest).Ok? {
      RejectionOfCanonical(g, digest);
      var c := Canonicalize(g, digest).value;
      DpoReadSpec(c.doc);
      CanonicalizeKeeps(g, digest);
    }
  }

  /** The entries `gkpo_to_dpo` reads are the caller's, or their defaults. */
  lemma CanonicalizeKeeps(g: Fields, digest: Json -> string)
    requires Canonicalize(g, digest).Ok?
    ensures var d := Canonicalize(g, digest).value.doc;
      && Lookup(d, "reference") == Some(Lookup(g, "reference").GetOr(DEFAULT_REFERENCE))
      && Lookup(d, "beta") == Some(Lookup(g, "beta").GetOr(Num(1.0)))
      && Lookup(d, "loss") == Some(Lookup(g, "loss").GetOr(Str("logistic")))
      && Lookup(d, "link") == Some(Lookup(g, "link").GetOr(Str("identity")))
  {
    ReadDefaults();
    KeptAt(g, digest, "reference");
    KeptAt(g, digest, "beta");
    KeptAt(g, digest, "loss");
    KeptAt(g, digest, "link");
  }
}
