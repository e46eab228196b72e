/**
 * `ensureInt` from the common helpers (src/nanosquared/common/helpers.py).
 * Python values that reach it are modelled by `PyValue`.
 */
module Helpers {
  import opened Errors

  /** The kinds of Python value callers hand to `ensureInt`. */
  datatype PyValue =
    | PInt(i: int)
    | PBool(b: bool)
    | PFloat(f: real)
    | PInf
    | PNaN
    | PStr(s: string)
    | PNone

  /** `int(f)` on a finite float truncates toward zero. */
  function Trunc(f: real): (n: int)
    ensures 0.0 <= f ==> n as real <= f < n as real + 1.0
    ensures f < 0.0 ==> n as real - 1.0 < f <= n as real
  {
    if f >= 0.0 then f.Floor else -((-f).Floor)
  }

  /** Truncation is exact precisely on integral floats, where it is the floor. */
  lemma TruncExact(f: real)
    ensures (Trunc(f) as real == f) <==> (f == f.Floor as real)
    ensures Trunc(f) as real == f ==> Trunc(f) == f.Floor
  {
    if f < 0.0 {
      assert (-f).Floor as real <= -f < (-f).Floor as real + 1.0;
      if f == f.Floor as real {
        assert -f == (-(f.Floor)) as real;
        assert (-f).Floor == -(f.Floor);
      }
    }
  }

  /** True when `int(v) == v` (the value is an integer or an integral float). */
  predicate IsIntegral(v: PyValue)
  {
    match v
    case PInt(_) => true
    case PBool(_) => true
    case PFloat(f) => f == f.Floor as real
    case _ => false
  }

  /** The integer of an integral value. */
  function IntegralValue(v: PyValue): int
    requires IsIntegral(v)
  {
    match v
    case PInt(i) => i
    case PBool(b) => if b then 1 else 0
    case PFloat(f) => f.Floor
  }

  /**
   * `ensureInt(x)`: `int(x)` when it equals `x`, otherwise `TypeError`; the
   * `ValueError`/`TypeError` of a failing `int(x)` becomes `TypeError` too.
   * `int(inf)` raises `OverflowError`, which the helper does not catch.
   */
  function EnsureInt(v: PyValue): (r: Result<int>)
    ensures r.Ok? <==> IsIntegral(v)
    ensures r.Ok? ==> r.value == IntegralValue(v)
    ensures r.Err? ==> (r.error == OverflowError <==> v == PInf)
    ensures r.Err? && v != PInf ==> r.error == TypeError
  {
    match v
    case PInt(i) => Ok(i)
    case PBool(b) => Ok(if b then 1 else 0)
    case PFloat(f) =>
      var n := Trunc(f);
      TruncExact(f);
      if n as real == f then Ok(n) else Err(TypeError)
    case PInf => Err(OverflowError)
    case PNaN => Err(TypeError)
    case PStr(_) => Err(TypeError)
    case PNone => Err(TypeError)
  }

  /** Feeding the result of `ensureInt` back in returns it unchanged. */
  lemma EnsureIntIdempotent(v: PyValue)
    requires EnsureInt(v).Ok?
    ensures EnsureInt(PInt(EnsureInt(v).value)) == EnsureInt(v)
  {
  }

  /** An integral float is accepted, and becomes the integer it equals. */
  lemma EnsureIntIntegralFloat(k: int)
    ensures EnsureInt(PFloat(k as real)) == Ok(k)
  {
  }

  /** A float with a fractional part is refused with `TypeError`. */
  lemma EnsureIntFraction(f: real)
    requires f != f.Floor as real
    ensures EnsureInt(PFloat(f)) == Err(TypeError)
  {
  }
}
