/** Optional values: C#'s null references and nullable structs (`short?`, `float?`). */
module Wrappers {
  datatype Option<+T> = None | Some(value: T) {
    function GetOr(default: T): T {
      match this
      case Some(v) => v
      case None => default
    }
  }

  /** The present values of `rs`, in order. */
  function Somes<T>(rs: seq<Option<T>>): (vs: seq<T>)
    ensures |vs| <= |rs|
  {
    if rs == [] then []
    else
      var vs := Somes(rs[..|rs| - 1]);
      match rs[|rs| - 1]
      case None => vs
      case Some(v) => vs + [v]
  }

  /** One more entry: its value, if it has one, is appended. */
  lemma SomesNext<T>(rs: seq<Option<T>>, r: Option<T>)
    ensures Somes(rs + [r]) == if r.Some? then Somes(rs) + [r.value] else Somes(rs)
  {
    assert (rs + [r])[..|rs|] == rs;
  }

  /** Each value kept is the value of some entry. */
  lemma {:induction false} SomesAreValues<T>(rs: seq<Option<T>>)
    ensures forall j :: 0 <= j < |Somes(rs)| ==> exists i :: 0 <= i < |rs| && rs[i] == Some(Somes(rs)[j])
  {
    if rs != [] {
      var init, r := rs[..|rs| - 1], rs[|rs| - 1];
      SomesAreValues(init);
      assert rs == init + [r];
      SomesNext(init, r);
      var vs := Somes(rs);
      forall j | 0 <= j < |Somes(rs)|
        ensures exists i :: 0 <= i < |rs| && rs[i] == Some(Somes(rs)[j])
      {
        if j < |Somes(init)| {
          var i :| 0 <= i < |init| && init[i] == Some(Somes(init)[j]);
          assert vs[j] == Somes(init)[j];
          assert rs[i] == Some(vs[j]);
        } else {
          assert r.Some? && vs[j] == r.value;
          assert rs[|rs| - 1] == Some(vs[j]);
        }
      }
    } else {
      assert Somes(rs) == [];
    }
  }

  /** Every entry that has a value contributes it. */
  lemma {:induction false} ValuesAreSomes<T>(rs: seq<Option<T>>)
    ensures forall i :: 0 <= i < |rs| && rs[i].Some? ==> rs[i].value in Somes(rs)
  {
    if rs != [] {
      var init, r := rs[..|rs| - 1], rs[|rs| - 1];
      ValuesAreSomes(init);
      assert rs == init + [r];
      SomesNext(init, r);
      forall i | 0 <= i < |rs| && rs[i].Some?
        ensures rs[i].value in Somes(rs)
      {
        if i < |init| {
          assert rs[i] == init[i];
        }
      }
    }
  }

  /** With every entry present, the values are the entries' values, one for one. */
  lemma {:induction false} SomesAllPresent<T>(rs: seq<Option<T>>)
    requires forall i :: 0 <= i < |rs| ==> rs[i].Some?
    ensures |Somes(rs)| == |rs| && forall i :: 0 <= i < |rs| ==> Somes(rs)[i] == rs[i].value
  {
    if rs != [] {
      var init := rs[..|rs| - 1];
      SomesAllPresent(init);
      assert forall i :: 0 <= i < |init| ==> init[i] == rs[i];
    }
  }
}

/**
 * The C# integer semantics the model needs: the 16-bit `short` used by every
 * raster layer, the wrap-around of unchecked casts and arithmetic, and the
 * truncating `/` and `%` of C# (Dafny's own `/` and `%` are Euclidean).
 */
module Numeric {
  import opened Wrappers

  /** C# `short`. */
  newtype Int16 = x: int | -0x8000 <= x < 0x8000

  const Int32Min: int := -0x8000_0000
  const Int32Max: int := 0x7FFF_FFFF

  predicate IsInt32(n: int) {
    Int32Min <= n <= Int32Max
  }

  function Abs(n: int): nat {
    if n < 0 then -n else n
  }

  function Max(a: int, b: int): int {
    if a < b then b else a
  }

  function Min(a: int, b: int): int {
    if a < b then a else b
  }

  /** The unchecked C# cast `(short)n`: keeps the low 16 bits, read as two's complement. */
  function Wrap16(n: int): (r: Int16)
    ensures (r as int - n) % 0x1_0000 == 0
    ensures -0x8000 <= n < 0x8000 ==> r as int == n
  {
    (((n + 0x8000) % 0x1_0000) - 0x8000) as Int16
  }

  /**
   * Unchecked 32-bit C# `int` arithmetic. Wrapping is a ring homomorphism, so
   * wrapping once after an exact computation gives the value the machine
   * computes step by step.
   */
  function Wrap32(n: int): (r: int)
    ensures IsInt32(r)
    ensures (r - n) % 0x1_0000_0000 == 0
    ensures IsInt32(n) ==> r == n
  {
    ((n + 0x8000_0000) % 0x1_0000_0000) - 0x8000_0000
  }

  /** C# integer division `a / b`: the quotient is rounded toward zero. */
  function TruncDiv(a: int, b: int): (q: int)
    requires b != 0
    ensures Abs(a - q * b) < Abs(b)
    ensures a - q * b == 0 || ((a - q * b < 0) <==> (a < 0))
  {
    var q := Abs(a) / Abs(b);
    TruncDivFacts(a, b, q);
    if (a < 0) != (b < 0) then -q else q
  }

  lemma TruncDivFacts(a: int, b: int, q: int)
    requires b != 0 && q == Abs(a) / Abs(b)
    ensures var s := if (a < 0) != (b < 0) then -q else q;
            Abs(a - s * b) < Abs(b) && (a - s * b == 0 || ((a - s * b < 0) <==> (a < 0)))
  {
    var r := Abs(a) - q * Abs(b);
    assert 0 <= r < Abs(b);
    var s := if (a < 0) != (b < 0) then -q else q;
    if a >= 0 {
      assert s * b == q * Abs(b);
      assert a - s * b == r;
    } else {
      assert s * b == -(q * Abs(b));
      assert a - s * b == -r;
    }
  }

  /** C# `a / b` on `int`s: nothing where it throws, for a zero divisor and for `int.MinValue / -1`. */
  function CsDiv(a: int, b: int): (q: Option<int>)
    ensures q.None? <==> b == 0 || (a == Int32Min && b == -1)
    ensures q.Some? ==> q.value == TruncDiv(a, b)
  {
    if b == 0 || (a == Int32Min && b == -1) then None else Some(TruncDiv(a, b))
  }

  /** C# remainder `a % b`: takes the sign of the dividend. */
  function TruncRem(a: int, b: int): (r: int)
    requires b != 0
    ensures Abs(r) < Abs(b)
    ensures r == 0 || ((r < 0) <==> (a < 0))
    ensures a == TruncDiv(a, b) * b + r
  {
    a - TruncDiv(a, b) * b
  }

  /** The ceiling of `a / b` for a positive divisor (`Mathf.CeilToInt((float)a / b)` computed exactly). */
  function CeilDiv(a: int, b: int): (r: int)
    requires b > 0
    ensures (r - 1) * b < a <= r * b
  {
    -((-a) / b)
  }

  /**
   * `Mathf.CeilToInt((float)a / b)` for integers, computed exactly. A zero
   * divisor gives an infinite or undefined quotient, whose conversion to `int`
   * yields `int.MinValue`.
   */
  function CeilQuotient(a: int, b: int): (r: int)
    ensures b > 0 ==> r == CeilDiv(a, b)
    ensures b < 0 ==> r == CeilDiv(-a, -b)
    ensures b > 0 && a >= 0 ==> r >= 0
    ensures b > 0 && a > 0 ==> r >= 1
  {
    if b == 0 then Int32Min else if b > 0 then CeilDiv(a, b) else CeilDiv(-a, -b)
  }

  /** `Mathf.Clamp(int, int, int)`: the lower bound is tested first. */
  function Clamp(v: int, lo: int, hi: int): (r: int)
    ensures lo <= hi ==> lo <= r <= hi
    ensures lo <= v <= hi ==> r == v
  {
    if v < lo then lo else if v > hi then hi else v
  }

  /** Floor division is the unique `q` with `q * b <= a < (q + 1) * b`. */
  lemma FloorDivUnique(a: int, b: int, q: int)
    requires b > 0 && q * b <= a < (q + 1) * b
    ensures q == a / b && a % b == a - q * b
  {
    var d := a / b;
    assert d * b <= a < (d + 1) * b;
    if q < d {
      assert q + 1 <= d;
      MulMonotone(q + 1, d, b);
      assert false;
    } else if q > d {
      assert d + 1 <= q;
      MulMonotone(d + 1, q, b);
      assert false;
    }
  }

  lemma MulMonotone(x: int, y: int, b: int)
    requires x <= y && b > 0
    ensures x * b <= y * b
  {
    assert y * b - x * b == (y - x) * b;
  }

  /** Cancelling a positive factor from a strict inequality. */
  lemma MulLess(x: int, y: int, b: int)
    requires b > 0 && x * b < y * b
    ensures x < y
  {
    if x >= y {
      MulMonotone(y, x, b);
    }
  }

  /** Row-major decomposition: an index `z * n + x` with `0 <= x < n` gives back `z` and `x`. */
  lemma RowMajor(z: int, x: int, n: int)
    requires n > 0 && 0 <= x < n
    ensures (z * n + x) / n == z && (z * n + x) % n == x
  {
    assert z * n <= z * n + x < (z + 1) * n;
    FloorDivUnique(z * n + x, n, z);
  }
}

/** Unity's single-precision helpers, modelled over exact reals. */
module Mathf {
  /** `float.MaxValue`, the start value of the nearest-entry scans. */
  const FloatMax: real := 340282346638528859811704183484516925440.0

  /** `Mathf.Clamp(float, float, float)`: the lower bound is tested first. */
  function Clamp(v: real, lo: real, hi: real): (r: real)
    ensures lo <= hi ==> lo <= r <= hi
    ensures lo <= v <= hi ==> r == v
    ensures v < lo ==> r == lo
    ensures lo <= hi && hi <= v ==> r == hi
  {
    if v < lo then lo else if v > hi then hi else v
  }

  function Clamp01(v: real): (r: real)
    ensures 0.0 <= r <= 1.0
    ensures 0.0 <= v <= 1.0 ==> r == v
  {
    Clamp(v, 0.0, 1.0)
  }

  /** `Mathf.Lerp`: the parameter is clamped to [0, 1] first. */
  function Lerp(a: real, b: real, t: real): (r: real)
    ensures a <= b ==> a <= r <= b
    ensures t <= 0.0 ==> r == a
    ensures t >= 1.0 ==> r == b
  {
    var s := Clamp01(t);
    var r := a + (b - a) * s;
    LerpBetween(a, b, s, r);
    r
  }

  lemma LerpBetween(a: real, b: real, s: real, r: real)
    requires 0.0 <= s <= 1.0 && r == a + (b - a) * s
    ensures a <= b ==> a <= r <= b
    ensures s == 0.0 ==> r == a
    ensures s == 1.0 ==> r == b
  {
    if a <= b {
      var d := b - a;
      MulNonNegative(d, s);
      MulNonNegative(d, 1.0 - s);
      assert d * s + d * (1.0 - s) == d;
    }
  }

  lemma MulNonNegative(x: real, y: real)
    requires x >= 0.0 && y >= 0.0
    ensures x * y >= 0.0
  {
  }

  /** `Mathf.Abs` on a float. */
  function Abs(v: real): (r: real)
    ensures r >= 0.0 && (r == v || r == -v)
  {
    if v < 0.0 then -v else v
  }

  /** `Mathf.Min` on two floats. */
  function Min(a: real, b: real): (r: real)
    ensures r <= a && r <= b && (r == a || r == b)
  {
    if a < b then a else b
  }

  /** `Mathf.Max` on two floats. */
  function Max(a: real, b: real): (r: real)
    ensures r >= a && r >= b && (r == a || r == b)
  {
    if a > b then a else b
  }

  /** A larger parameter never gives a smaller interpolation when `a <= b`. */
  lemma LerpMonotone(a: real, b: real, t1: real, t2: real)
    requires a <= b && t1 <= t2
    ensures Lerp(a, b, t1) <= Lerp(a, b, t2)
  {
    var s1, s2 := Clamp01(t1), Clamp01(t2);
    assert s1 <= s2;
    MulNonNegative(b - a, s2 - s1);
    assert (b - a) * s2 - (b - a) * s1 == (b - a) * (s2 - s1);
  }

  /** `Mathf.InverseLerp`: the clamped position of `v` between `a` and `b`; 0 when `a == b`. */
  function InverseLerp(a: real, b: real, v: real): (t: real)
    ensures 0.0 <= t <= 1.0
    ensures a < b && v <= a ==> t == 0.0
    ensures a < b && v >= b ==> t == 1.0
    ensures a == b ==> t == 0.0
  {
    QuotientAtLeastOne(v - a, b - a);
    if a != b then Clamp01((v - a) / (b - a)) else 0.0
  }

  lemma QuotientAtLeastOne(n: real, d: real)
    ensures 0.0 < d <= n ==> n / d >= 1.0
  {
  }

  /**
   * `Mathf.RoundToInt`, which is `Math.Round`: to the nearest integer, with
   * halves going to the even neighbour.
   */
  function RoundToInt(v: real): (n: int)
    ensures -0.5 <= v - n as real <= 0.5
    ensures v - n as real == 0.5 || v - n as real == -0.5 ==> n % 2 == 0
  {
    var f := v.Floor;
    var frac := v - f as real;
    if frac < 0.5 then f
    else if frac > 0.5 then f + 1
    else if f % 2 == 0 then f
    else f + 1
  }
}

/** Unity's `Color`: four real channels. */
module Colors {
  datatype Color = Color(r: real, g: real, b: real, a: real)

  /** `Color.green`. */
  const Green: Color := Color(0.0, 1.0, 0.0, 1.0)
  /** The neutral gray-green used wherever no better colour is known. */
  const GrayGreen: Color := Color(0.6, 0.7, 0.6, 1.0)

  /** One 8-bit colour channel. */
  newtype Byte = b: int | 0 <= b < 0x100

  /** Unity's `Color32`: four byte channels. */
  datatype Color32 = Color32(r: Byte, g: Byte, b: Byte, a: Byte)
}
