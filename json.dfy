/**
 * JSON values as Python's `json` module produces them.  A mapping keeps its
 * insertion order (a Python dict does), so it is a sequence of key/value pairs.
 */
module JsonValue {
  import opened Wrappers

  datatype Json =
    | Null
    | Bool(b: bool)
    | Int(i: int)
    | Num(x: real)
    | Str(s: string)
    | Arr(items: seq<Json>)
    | Obj(fields: seq<(string, Json)>)

  type Fields = seq<(string, Json)>

  /** Python truthiness, as used by `x or default` and `if x`. */
  predicate Truthy(j: Json) {
    match j
    case Null => false
    case Bool(b) => b
    case Int(i) => i != 0
    case Num(x) => x != 0.0
    case Str(s) => |s| > 0
    case Arr(xs) => |xs| > 0
    case Obj(fs) => |fs| > 0
  }

  function KeySet(fs: Fields): set<string> {
    set i | 0 <= i < |fs| :: fs[i].0
  }

  /** No key occurs twice, as in every Python dict. */
  predicate DistinctKeys(fs: Fields) {
    forall i, j :: 0 <= i < j < |fs| ==> fs[i].0 != fs[j].0
  }

  /** Every mapping at every depth has distinct keys. */
  predicate WellFormed(j: Json) {
    match j
    case Arr(xs) => forall i :: 0 <= i < |xs| ==> WellFormed(xs[i])
    case Obj(fs) => DistinctKeys(fs) && forall i :: 0 <= i < |fs| ==> WellFormed(fs[i].1)
    case _ => true
  }

  /** `d.get(k)`: the value stored under `k`, its first occurrence. */
  function Lookup(fs: Fields, k: string): (r: Option<Json>)
    ensures r.None? <==> k !in KeySet(fs)
    ensures r.Some? ==> exists i :: 0 <= i < |fs| && fs[i] == (k, r.value)
  {
    if |fs| == 0 then None
    else if fs[0].0 == k then Some(fs[0].1)
    else
      var r := Lookup(fs[1..], k);
      assert KeySet(fs) == {fs[0].0} + KeySet(fs[1..]) by {
        forall x | x in KeySet(fs) ensures x in {fs[0].0} + KeySet(fs[1..]) {
          var i :| 0 <= i < |fs| && fs[i].0 == x;
          if i > 0 { assert fs[1..][i - 1].0 == x; }
        }
      }
      if r.Some? then
        var i :| 0 <= i < |fs[1..]| && fs[1..][i] == (k, r.value);
        assert fs[i + 1] == (k, r.value);
        r
      else r
  }

  /** `d.get(k, default)`. */
  function Get(fs: Fields, k: string, default: Json): Json {
    Lookup(fs, k).GetOr(default)
  }

  lemma LookupAt(fs: Fields, i: nat)
    requires DistinctKeys(fs) && i < |fs|
    ensures Lookup(fs, fs[i].0) == Some(fs[i].1)
  {
    if i > 0 {
      LookupAt(fs[1..], i - 1);
    }
  }

  /**
   * `d[k] = v`: an existing key keeps its position and gets the new value,
   * a new key goes to the end.
   */
  function Set(fs: Fields, k: string, v: Json): (r: Fields)
    ensures Lookup(r, k) == Some(v)
    ensures forall k' :: k' != k ==> Lookup(r, k') == Lookup(fs, k')
    ensures KeySet(r) == KeySet(fs) + {k}
    ensures |r| == if k in KeySet(fs) then |fs| else |fs| + 1
  {
    if |fs| == 0 then [(k, v)]
    else if fs[0].0 == k then
      var r := [(k, v)] + fs[1..];
      assert r[1..] == fs[1..];
      assert KeySet(r) == KeySet(fs) by {
        forall x ensures x in KeySet(r) <==> x in KeySet(fs) {
          if x in KeySet(r) { var i :| 0 <= i < |r| && r[i].0 == x; assert fs[i].0 == x; }
          if x in KeySet(fs) { var i :| 0 <= i < |fs| && fs[i].0 == x; assert r[i].0 == x; }
        }
      }
      r
    else
      var t := Set(fs[1..], k, v);
      var r := [fs[0]] + t;
      assert r[1..] == t;
      assert KeySet(fs) == {fs[0].0} + KeySet(fs[1..]) by {
        forall x | x in KeySet(fs) ensures x in {fs[0].0} + KeySet(fs[1..]) {
          var i :| 0 <= i < |fs| && fs[i].0 == x;
          if i > 0 { assert fs[1..][i - 1].0 == x; }
        }
      }
      assert KeySet(r) == {fs[0].0} + KeySet(t) by {
        forall x | x in KeySet(r) ensures x in {fs[0].0} + KeySet(t) {
          var i :| 0 <= i < |r| && r[i].0 == x;
          if i > 0 { assert t[i - 1].0 == x; }
        }
        forall x | x in KeySet(t) ensures x in KeySet(r) {
          var i :| 0 <= i < |t| && t[i].0 == x;
          assert r[i + 1].0 == x;
        }
        assert r[0].0 == fs[0].0;
      }
      r
  }

  /** `d.setdefault(k, v)`: only an absent key is added, at the end. */
  function SetDefault(fs: Fields, k: string, v: Json): (r: Fields)
    ensures Lookup(r, k) == if k in KeySet(fs) then Lookup(fs, k) else Some(v)
    ensures forall k' :: k' != k ==> Lookup(r, k') == Lookup(fs, k')
    ensures KeySet(r) == KeySet(fs) + {k}
  {
    if k in KeySet(fs) then fs else Set(fs, k, v)
  }

  /** The number a bool, int or float stands for in Python's `==`. */
  function NumVal(j: Json): Option<real> {
    match j
    case Bool(b) => Some(if b then 1.0 else 0.0)
    case Int(i) => Some(i as real)
    case Num(x) => Some(x)
    case _ => None
  }

  /**
   * Python's `==` on JSON values: numbers compare by value across bool, int
   * and float (`1 == 1.0 == True`), lists element-wise, dicts by key set and
   * value regardless of key order.
   */
  predicate PyEq(a: Json, b: Json)
    decreases a
  {
    if NumVal(a).Some? && NumVal(b).Some? then NumVal(a).value == NumVal(b).value
    else
      match a
      case Null => b.Null?
      case Str(s) => b.Str? && b.s == s
      case Arr(xs) =>
        b.Arr? && |xs| == |b.items| &&
        forall i :: 0 <= i < |xs| ==> PyEq(xs[i], b.items[i])
      case Obj(fs) =>
        b.Obj? && KeySet(fs) == KeySet(b.fields) &&
        forall i :: 0 <= i < |fs| ==> PyEqEntry(fs[i], b.fields)
      case _ => false
  }

  /** The entry `e` of one dict equals the entry under the same key in `gs`. */
  predicate PyEqEntry(e: (string, Json), gs: Fields)
    decreases e
  {
    var w := Lookup(gs, e.0);
    w.Some? && PyEq(e.1, w.value)
  }

  lemma {:induction false} PyEqReflexive(a: Json)
    requires WellFormed(a)
    ensures PyEq(a, a)
    decreases a
  {
    match a
    case Arr(xs) =>
      forall i | 0 <= i < |xs| ensures PyEq(xs[i], xs[i]) {
        PyEqReflexive(xs[i]);
      }
    case Obj(fs) =>
      forall i | 0 <= i < |fs| ensures PyEqEntry(fs[i], fs) {
        LookupAt(fs, i);
        assert fs[i] in fs;
        PyEqReflexive(fs[i].1);
      }
    case _ =>
  }

  /** Decimal digits of a natural number. */
  function NatToString(n: nat): (r: string)
    ensures |r| > 0
    decreases n
  {
    var d := "0123456789"[n % 10];
    if n < 10 then [d] else NatToString(n / 10) + [d]
  }

  /**
   * Python's `str(x)` for the values used as sort keys.  A string is itself;
   * None, booleans and ints print as Python prints them.  Floats, lists and
   * dicts get a fixed stand-in (their exact repr is not modelled).
   */
  function PyStr(j: Json): string {
    match j
    case Str(s) => s
    case Null => "None"
    case Bool(b) => if b then "True" else "False"
    case Int(i) => if i < 0 then "-" + NatToString(-i) else NatToString(i)
    case Num(_) => "<float>"
    case Arr(_) => "<list>"
    case Obj(_) => "<dict>"
  }
}
