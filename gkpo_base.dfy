/**
 * What the parts of gkpo.py share: the exceptions a call can raise, and the
 * Python built-ins they apply to a JSON value (`float()`, `x or default`,
 * `setdefault`).
 */
module GkpoBase {
  import opened Wrappers
  import opened JsonValue

  const SCHEMA_VERSION: string := "gkpo-1.0"

  /** The three violation tags, in the order the classifier checks them. */
  datatype Reason = ReferenceShift | ScoreDependentWeight | NonAdditiveGate

  /**
   * `TypeError` covers every built-in failure (TypeError, AttributeError,
   * ValueError, KeyError); `Irreducible` is the adapters' ValueError, which
   * carries the `reasons` list of the canonical record.
   */
  datatype Error = TypeError(what: string) | Irreducible(reasons: Json)

  function Tag(r: Reason): string {
    match r
    case ReferenceShift => "reference_shift"
    case ScoreDependentWeight => "score_dependent_weight"
    case NonAdditiveGate => "non_additive_gate"
  }

  /**
   * `float(x)`: ints and bools convert, floats stay; `None`, lists and dicts
   * raise.  Parsing a numeric string is not modelled: a string raises.
   */
  function ToFloat(j: Json): (r: Result<real, Error>)
    ensures r.Ok? <==> NumVal(j).Some?
    ensures r.Ok? ==> r.value == NumVal(j).value
  {
    match j
    case Int(i) => Ok(i as real)
    case Num(x) => Ok(x)
    case Bool(b) => Ok(if b then 1.0 else 0.0)
    case _ => Err(TypeError("float()"))
  }

  /** `d.get(k) or default`. */
  function OrDefault(o: Option<Json>, default: Json): (r: Json)
    ensures r == (if o.Some? && Truthy(o.value) then o.value else default)
  {
    if o.Some? && Truthy(o.value) then o.value else default
  }

  lemma SetSame(fs: Fields, k: string, v: Json)
    requires Lookup(fs, k) == Some(v)
    ensures Set(fs, k, v) == fs
  {
    if |fs| > 0 && fs[0].0 != k {
      SetSame(fs[1..], k, v);
    }
  }
}
