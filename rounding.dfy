/**
 * Numeric rounding (gkpo.py `_round_num`, `_round_all_numbers`).  A float is
 * its exact value; `f"{x:.6f}"` rounds that value to six decimals, ties to
 * even.
 */
module Rounding {
  import opened JsonValue

  const ROUND_PLACES: nat := 6
  /** 10 ^ ROUND_PLACES */
  const SCALE: real := 1000000.0

  /** The nearest integer to `y`, ties going to the even one. */
  function RoundHalfEven(y: real): (n: int)
    ensures -0.5 <= y - n as real <= 0.5
  {
    var fl := y.Floor;
    var frac := y - fl as real;
    if frac < 0.5 then fl
    else if frac > 0.5 then fl + 1
    else if fl % 2 == 0 then fl else fl + 1
  }

  /** `float(f"{x:.6f}")` on the exact value of `x`. */
  function Round(x: real): real {
    RoundHalfEven(x * SCALE) as real / SCALE
  }

  /** A value with at most six decimals. */
  predicate OnGrid(x: real) {
    (x * SCALE).Floor as real == x * SCALE
  }

  lemma RoundOnGrid(x: real)
    ensures OnGrid(Round(x))
    ensures Round(x) * SCALE == RoundHalfEven(x * SCALE) as real
  {
  }

  /** Rounding moves a value by at most half a unit in the sixth decimal. */
  lemma RoundClose(x: real)
    ensures -0.0000005 <= Round(x) - x <= 0.0000005
  {
    var n := RoundHalfEven(x * SCALE);
    assert Round(x) - x == (n as real - x * SCALE) / SCALE;
  }

  /** A value that is already on the grid is left as it is. */
  lemma {:induction false} RoundFixesGrid(x: real)
    requires OnGrid(x)
    ensures Round(x) == x
  {
    var y := x * SCALE;
    assert y.Floor as real == y;
    assert RoundHalfEven(y) == y.Floor;
    assert Round(x) == y.Floor as real / SCALE;
  }

  lemma RoundIdempotent(x: real)
    ensures Round(Round(x)) == Round(x)
  {
    RoundOnGrid(x);
    RoundFixesGrid(Round(x));
  }

  /** `_round_num`: floats are rounded; ints, bools and everything else pass. */
  function RoundNum(j: Json): (r: Json)
    ensures r.Num? <==> j.Num?
    ensures !j.Num? ==> r == j
    ensures j.Num? ==> OnGrid(r.x) && -0.0000005 <= r.x - j.x <= 0.0000005
  {
    match j
    case Num(x) =>
      RoundOnGrid(x);
      RoundClose(x);
      Num(Round(x))
    case _ => j
  }

  /** `_round_all_numbers`: round every float at every depth. */
  function RoundAll(j: Json): Json
    decreases j
  {
    match j
    case Obj(fs) => Obj(seq(|fs|, i requires 0 <= i < |fs| => (fs[i].0, RoundAll(fs[i].1))))
    case Arr(xs) => Arr(seq(|xs|, i requires 0 <= i < |xs| => RoundAll(xs[i])))
    case _ => RoundNum(j)
  }

  /**
   * `b` has the shape of `a`: the same keys in the same order, the same list
   * lengths, every non-float leaf equal and every float within half a unit of
   * the sixth decimal.
   */
  predicate SameShape(a: Json, b: Json)
    decreases a
  {
    match a
    case Obj(fs) =>
      b.Obj? && |b.fields| == |fs| &&
      forall i :: 0 <= i < |fs| ==> b.fields[i].0 == fs[i].0 && SameShape(fs[i].1, b.fields[i].1)
    case Arr(xs) =>
      b.Arr? && |b.items| == |xs| &&
      forall i :: 0 <= i < |xs| ==> SameShape(xs[i], b.items[i])
    case Num(x) => b.Num? && -0.0000005 <= b.x - x <= 0.0000005
    case _ => b == a
  }

  /** Every float at every depth has at most six decimals. */
  predicate Rounded(j: Json)
    decreases j
  {
    match j
    case Obj(fs) => forall i :: 0 <= i < |fs| ==> Rounded(fs[i].1)
    case Arr(xs) => forall i :: 0 <= i < |xs| ==> Rounded(xs[i])
    case Num(x) => OnGrid(x)
    case _ => true
  }

  /** Rounding keeps the shape and leaves only six-decimal floats. */
  lemma {:induction false} RoundAllShape(j: Json)
    ensures SameShape(j, RoundAll(j))
    ensures Rounded(RoundAll(j))
    decreases j
  {
    match j
    case Obj(fs) =>
      forall i | 0 <= i < |fs| ensures SameShape(fs[i].1, RoundAll(fs[i].1)) && Rounded(RoundAll(fs[i].1)) {
        RoundAllShape(fs[i].1);
      }
    case Arr(xs) =>
      forall i | 0 <= i < |xs| ensures SameShape(xs[i], RoundAll(xs[i])) && Rounded(RoundAll(xs[i])) {
        RoundAllShape(xs[i]);
      }
    case _ =>
  }

  /** A document whose floats are already rounded comes back unchanged. */
  lemma {:induction false} RoundAllFixesRounded(j: Json)
    requires Rounded(j)
    ensures RoundAll(j) == j
    decreases j
  {
    match j
    case Obj(fs) =>
      forall i | 0 <= i < |fs| ensures RoundAll(fs[i].1) == fs[i].1 {
        RoundAllFixesRounded(fs[i].1);
      }
      assert RoundAll(j).fields == fs;
    case Arr(xs) =>
      forall i | 0 <= i < |xs| ensures RoundAll(xs[i]) == xs[i] {
        RoundAllFixesRounded(xs[i]);
      }
      assert RoundAll(j).items == xs;
    case Num(x) =>
      RoundFixesGrid(x);
    case _ =>
  }

  lemma RoundAllIdempotent(j: Json)
    ensures RoundAll(RoundAll(j)) == RoundAll(j)
  {
    RoundAllShape(j);
    RoundAllFixesRounded(RoundAll(j));
  }
}
