/** The reducibility classifier (gkpo.py `_infer_reducibility`). */
module Reducibility {
  import opened Wrappers
  import opened JsonValue
  import opened GkpoBase

  /** Position of a reason in the classifier's fixed order. */
  function Rank(r: Reason): nat {
    match r
    case ReferenceShift => 0
    case ScoreDependentWeight => 1
    case NonAdditiveGate => 2
  }

  /** The `reducibility` record; `evidence` is its `witness` entry. */
  datatype Classification = Classification(insideR: bool, reasons: seq<Reason>, evidence: Json)

  /** `{"inside_R": ..., "reasons": [...], "witness": ...}` */
  function ClassificationJson(c: Classification): Json {
    Obj([("inside_R", Bool(c.insideR)),
         ("reasons", Arr(Tags(c.reasons))),
         ("witness", c.evidence)])
  }

  /** The reasons as the strings the record lists. */
  function Tags(rs: seq<Reason>): (r: seq<Json>)
    ensures |r| == |rs| && forall i :: 0 <= i < |rs| ==> r[i] == Str(Tag(rs[i]))
  {
    seq(|rs|, i requires 0 <= i < |rs| => Str(Tag(rs[i])))
  }

  /**
   * `(g.get("reference") or {}).get("form") or "fixed_zero"`; `.get` on a
   * truthy non-mapping raises.
   */
  function ReferenceForm(g: Fields): Result<Json, Error> {
    var ref := OrDefault(Lookup(g, "reference"), Obj([]));
    if !ref.Obj? then Err(TypeError("reference.get"))
    else Ok(OrDefault(Lookup(ref.fields, "form"), Str("fixed_zero")))
  }

  /**
   * `ref_form not in {"fixed_zero", "fixed_scalar"}`; a (non-empty) list or
   * mapping is unhashable and raises.
   */
  function ReferenceShifted(g: Fields): Result<bool, Error> {
    var f :- ReferenceForm(g);
    if f.Arr? || f.Obj? then Err(TypeError("unhashable reference form"))
    else Ok(f != Str("fixed_zero") && f != Str("fixed_scalar"))
  }

  /** `(g.get("weight") or {}).get("form") or "constant"`. */
  function WeightForm(g: Fields): Result<Json, Error> {
    var w := OrDefault(Lookup(g, "weight"), Obj([]));
    if !w.Obj? then Err(TypeError("weight.get"))
    else Ok(OrDefault(Lookup(w.fields, "form"), Str("constant")))
  }

  /** `g.get("penalties") or []` as the list the scan walks. */
  function ScannedPenalties(g: Fields): Result<seq<Json>, Error> {
    var v := OrDefault(Lookup(g, "penalties"), Arr([]));
    if v.Arr? then Ok(v.items) else Err(TypeError("iterate penalties"))
  }

  /** `(p.get("meta") or {}).get("gate", False)`, as a truth value. */
  function PenaltyGated(p: Json): Result<bool, Error> {
    if !p.Obj? then Err(TypeError("penalty.get"))
    else
      var m := OrDefault(Lookup(p.fields, "meta"), Obj([]));
      if !m.Obj? then Err(TypeError("meta.get"))
      else Ok(Truthy(Get(m.fields, "gate", Bool(false))))
  }

  /** The scan with `break`: the first gated entry stops it. */
  function GateScan(ps: seq<Json>): Result<bool, Error> {
    if |ps| == 0 then Ok(false)
    else
      var here :- PenaltyGated(ps[0]);
      if here then Ok(true) else GateScan(ps[1..])
  }

  /** One step of the scan: the entry at `i` decides, or the scan goes on past it. */
  lemma GateScanAt(ps: seq<Json>, i: nat)
    requires i < |ps|
    ensures GateScan(ps[i..]) ==
      if PenaltyGated(ps[i]).Err? then Err(PenaltyGated(ps[i]).error)
      else if PenaltyGated(ps[i]).value then Ok(true)
      else GateScan(ps[i + 1..])
  {
    assert ps[i..][0] == ps[i] && ps[i..][1..] == ps[i + 1..];
  }

  /** `g.get("reducibility", {}).get("witness", {})`. */
  function WitnessOf(g: Fields): Result<Json, Error> {
    match Lookup(g, "reducibility")
    case None => Ok(Obj([]))
    case Some(Obj(fs)) => Ok(Get(fs, "witness", Obj([])))
    case Some(_) => Err(TypeError("reducibility.get"))
  }

  /** `_infer_reducibility`: the three checks in their fixed order. */
  function Classify(g: Fields): Result<Classification, Error> {
    var shifted :- ReferenceShifted(g);
    var wform :- WeightForm(g);
    var ps :- ScannedPenalties(g);
    var gated :- GateScan(ps);
    var evidence :- WitnessOf(g);
    var reasons := Reasons(shifted, wform == Str("score_dependent"), gated);
    Ok(Classification(|reasons| == 0, reasons, evidence))
  }

  /** The reasons of the three checks that fired, in the classifier's order. */
  function Reasons(shifted: bool, scoreDependent: bool, gated: bool): seq<Reason> {
    (if shifted then [ReferenceShift] else []) +
    (if scoreDependent then [ScoreDependentWeight] else []) +
    (if gated then [NonAdditiveGate] else [])
  }

  /** Each reason appears exactly when its check fired, at most once, in rank order. */
  lemma ReasonsSpec(shifted: bool, scoreDependent: bool, gated: bool)
    ensures var rs := Reasons(shifted, scoreDependent, gated);
      && (rs == [] <==> !shifted && !scoreDependent && !gated)
      && (forall a, b :: 0 <= a < b < |rs| ==> Rank(rs[a]) < Rank(rs[b]))
      && (ReferenceShift in rs <==> shifted)
      && (ScoreDependentWeight in rs <==> scoreDependent)
      && (NonAdditiveGate in rs <==> gated)
  {
  }

  lemma ClassifyFrom(g: Fields, shifted: bool, wform: Json, ps: seq<Json>, gated: bool, evidence: Json)
    requires ReferenceShifted(g) == Ok(shifted) && WeightForm(g) == Ok(wform)
    requires ScannedPenalties(g) == Ok(ps) && GateScan(ps) == Ok(gated) && WitnessOf(g) == Ok(evidence)
    ensures var rs := Reasons(shifted, wform == Str("score_dependent"), gated);
      Classify(g) == Ok(Classification(|rs| == 0, rs, evidence))
  {
  }

  lemma ClassifyIs(g: Fields)
    requires Classify(g).Ok?
    ensures ReferenceShifted(g).Ok? && WeightForm(g).Ok? && ScannedPenalties(g).Ok?
    ensures GateScan(ScannedPenalties(g).value).Ok? && WitnessOf(g).Ok?
    ensures var rs := Reasons(ReferenceShifted(g).value, WeightForm(g).value == Str("score_dependent"),
                              GateScan(ScannedPenalties(g).value).value);
      Classify(g).value == Classification(|rs| == 0, rs, WitnessOf(g).value)
  {
  }

  /** The scan reports no gate exactly when every entry reads as ungated. */
  lemma {:induction false} GateScanNone(ps: seq<Json>)
    ensures GateScan(ps) == Ok(false) <==> forall i :: 0 <= i < |ps| ==> PenaltyGated(ps[i]) == Ok(false)
  {
    if |ps| > 0 {
      GateScanNone(ps[1..]);
      if PenaltyGated(ps[0]) == Ok(false) {
        assert forall i :: 1 <= i < |ps| ==> ps[i] == ps[1..][i - 1];
      }
    }
  }

  /** Entry `i` is gated and every entry before it reads as ungated. */
  predicate FirstGate(ps: seq<Json>, i: int) {
    0 <= i < |ps| && PenaltyGated(ps[i]) == Ok(true) &&
    forall j :: 0 <= j < i ==> PenaltyGated(ps[j]) == Ok(false)
  }

  lemma {:induction false} GateScanFound(ps: seq<Json>) returns (i: int)
    requires GateScan(ps) == Ok(true)
    ensures FirstGate(ps, i)
  {
    if PenaltyGated(ps[0]) == Ok(true) {
      i := 0;
    } else {
      var k := GateScanFound(ps[1..]);
      i := k + 1;
      assert ps[i] == ps[1..][k];
      forall j | 0 <= j < i ensures PenaltyGated(ps[j]) == Ok(false) {
        if j > 0 { assert ps[j] == ps[1..][j - 1]; }
      }
    }
  }

  lemma {:induction false} GateScanStops(ps: seq<Json>, i: int)
    requires FirstGate(ps, i)
    ensures GateScan(ps) == Ok(true)
  {
    if i > 0 {
      assert FirstGate(ps[1..], i - 1) by {
        assert ps[1..][i - 1] == ps[i];
        forall j | 0 <= j < i - 1 ensures PenaltyGated(ps[1..][j]) == Ok(false) {
          assert ps[1..][j] == ps[j + 1];
        }
      }
      GateScanStops(ps[1..], i - 1);
    }
  }

  /**
   * The scan reports a gate exactly when some entry is gated and every entry
   * before it reads as ungated: it stops at the first gate, and raises at the
   * first unreadable entry before any gate.
   */
  lemma GateScanFirst(ps: seq<Json>)
    ensures GateScan(ps) == Ok(true) <==> exists i :: FirstGate(ps, i)
  {
    if GateScan(ps) == Ok(true) {
      var i := GateScanFound(ps);
    }
    if exists i :: FirstGate(ps, i) {
      var i :| FirstGate(ps, i);
      GateScanStops(ps, i);
    }
  }

  /** When the scan completes, it reports whether some entry is gated. */
  lemma GateScanSpec(ps: seq<Json>)
    ensures GateScan(ps).Ok? ==>
      (GateScan(ps).value <==> exists i :: 0 <= i < |ps| && PenaltyGated(ps[i]) == Ok(true))
  {
    GateScanNone(ps);
    GateScanFirst(ps);
  }

  /**
   * The classification: `inside_R` holds exactly when there is no reason;
   * the reasons come in the fixed order reference_shift,
   * score_dependent_weight, non_additive_gate, each at most once; each
   * reason is present exactly when its check fires.
   */
  lemma ClassifySpec(g: Fields)
    requires Classify(g).Ok?
    ensures var c := Classify(g).value;
      && (c.insideR <==> c.reasons == [])
      && (forall a, b :: 0 <= a < b < |c.reasons| ==> Rank(c.reasons[a]) < Rank(c.reasons[b]))
      && (ReferenceShift in c.reasons <==>
            ReferenceForm(g).value != Str("fixed_zero") && ReferenceForm(g).value != Str("fixed_scalar"))
      && (ScoreDependentWeight in c.reasons <==> WeightForm(g).value == Str("score_dependent"))
      && (NonAdditiveGate in c.reasons <==>
            exists i :: 0 <= i < |ScannedPenalties(g).value| &&
              PenaltyGated(ScannedPenalties(g).value[i]) == Ok(true))
  {
    ClassifyIs(g);
    var ps := ScannedPenalties(g).value;
    ReasonsSpec(ReferenceShifted(g).value, WeightForm(g).value == Str("score_dependent"), GateScan(ps).value);
    GateScanSpec(ps);
    ShiftedIs(g);
  }

  lemma ShiftedIs(g: Fields)
    requires ReferenceShifted(g).Ok?
    ensures ReferenceForm(g).Ok?
    ensures ReferenceShifted(g).value <==>
      ReferenceForm(g).value != Str("fixed_zero") && ReferenceForm(g).value != Str("fixed_scalar")
  {
  }

  /** The witness is the caller's `reducibility.witness`, or `{}`. */
  lemma ClassifyEvidence(g: Fields)
    requires Classify(g).Ok?
    ensures WitnessOf(g) == Ok(Classify(g).value.evidence)
    ensures Classify(g).value.evidence ==
      match Lookup(g, "reducibility")
      case Some(Obj(fs)) => Get(fs, "witness", Obj([]))
      case _ => Obj([])
  {
    ClassifyIs(g);
  }

  /**
   * The classification reads only the reference, weight and penalties
   * entries and the caller's witness.
   */
  lemma ClassifyCongruence(g1: Fields, g2: Fields)
    requires Lookup(g1, "reference") == Lookup(g2, "reference")
    requires Lookup(g1, "weight") == Lookup(g2, "weight")
    requires Lookup(g1, "penalties") == Lookup(g2, "penalties")
    requires WitnessOf(g1) == WitnessOf(g2)
    ensures Classify(g1) == Classify(g2)
  {
    assert ReferenceShifted(g1) == ReferenceShifted(g2);
    assert WeightForm(g1) == WeightForm(g2);
    assert ScannedPenalties(g1) == ScannedPenalties(g2);
  }

  /**
   * `_infer_reducibility` as written: append the reasons, scan the penalties
   * and stop at the first gate.
   */
  method InferReducibility(g: Fields) returns (r: Result<Classification, Error>)
    ensures r == Classify(g)
  {
    var reasons: seq<Reason> := [];
    var shifted := ReferenceShifted(g);
    if shifted.Err? { return Err(shifted.error); }
    if shifted.value {
      reasons := reasons + [ReferenceShift];
    }
    assert reasons == if shifted.value then [ReferenceShift] else [];
    var wform := WeightForm(g);
    if wform.Err? { return Err(wform.error); }
    if wform.value == Str("score_dependent") {
      reasons := reasons + [ScoreDependentWeight];
    }
    assert reasons == (if shifted.value then [ReferenceShift] else []) +
      (if wform.value == Str("score_dependent") then [ScoreDependentWeight] else []);
    var scanned := ScannedPenalties(g);
    if scanned.Err? { return Err(scanned.error); }
    var ps := scanned.value;
    ghost var before := reasons;
    ghost var found := false;
    var i := 0;
    while i < |ps|
      invariant 0 <= i <= |ps|
      invariant GateScan(ps) == GateScan(ps[i..])
      invariant reasons == before && !found
    {
      var gi := PenaltyGated(ps[i]);
      GateScanAt(ps, i);
      if gi.Err? {
        return Err(gi.error);
      }
      if gi.value {
        reasons := reasons + [NonAdditiveGate];
        found := true;
        break;
      }
      i := i + 1;
    }
    assert GateScan(ps) == Ok(found);
    assert reasons == Reasons(shifted.value, wform.value == Str("score_dependent"), found);
    var evidence := WitnessOf(g);
    if evidence.Err? { return Err(evidence.error); }
    ClassifyFrom(g, shifted.value, wform.value, ps, found, evidence.value);
    r := Ok(Classification(|reasons| == 0, reasons, evidence.value));
  }
}
