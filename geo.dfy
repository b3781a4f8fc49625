/**
 * The coordinate helpers every GIS raster layer shares: splitting a pixel
 * coordinate into a tile index and an offset inside that tile, converting
 * pixels to world positions and back, and mapping pixels to geographic
 * metres.
 */
module GeoTransform {
  import opened Numeric

  /** The chunk size used when nothing else is configured. */
  const LegacyTileSize: int := 122
  /** The default distance in metres between two neighbouring pixels. */
  const DefaultMeterStep: int := 30
  /** A world unit is one pixel; elevation metres are divided by this in world space. */
  const MetersPerWorldUnit: real := 30.0

  const Modulus32: int := 0x1_0000_0000

  /** `Vector2Int`: a pixel position, or a tile index. */
  datatype Coord = Coord(x: int, z: int)

  datatype Vector3 = Vector3(x: real, y: real, z: real)

  /** `GeoLocation`: a position in geographic metres. */
  datatype GeoLocation = GeoLocation(longitudeMeter: int, latitudeMeter: int)

  /** `Mathf.FloorToInt`, exact. */
  function FloorToInt(v: real): int {
    v.Floor
  }

  /**
   * The tile holding pixel `v` along one axis: `FloorToInt(v / (float)ts)`.
   * It is the floor quotient, so the tile starts at or before `v` and the next
   * tile starts after it.
   */
  function TileOf(v: int, ts: int): (t: int)
    requires ts > 0
    ensures t * ts <= v < (t + 1) * ts
    ensures t == v / ts
  {
    RealFloorIsDiv(v, ts);
    FloorToInt(v as real / ts as real)
  }

  lemma RealFloorIsDiv(v: int, ts: int)
    requires ts > 0
    ensures (v as real / ts as real).Floor == v / ts
  {
    var q := v / ts;
    var t := ts as real;
    assert q * ts <= v < (q + 1) * ts;
    CastMul(q, ts);
    CastMul(q + 1, ts);
    BelowQuotient(q as real, v as real, t);
    AboveQuotient((q + 1) as real, v as real, t);
  }

  /** A real whose multiple stays at or below `b` is at most `b / t`. */
  lemma BelowQuotient(a: real, b: real, t: real)
    requires t > 0.0 && a * t <= b
    ensures a <= b / t
  {
    if a > b / t {
      assert b / t * t == b;
      RealMulStrict(b / t, a, t);
    }
  }

  /** A real whose multiple exceeds `b` is above `b / t`. */
  lemma AboveQuotient(a: real, b: real, t: real)
    requires t > 0.0 && b < a * t
    ensures b / t < a
  {
    if b / t > a {
      assert b / t * t == b;
      RealMulStrict(a, b / t, t);
    }
  }

  lemma RealMulStrict(x: real, y: real, c: real)
    requires x < y && c > 0.0
    ensures x * c < y * c
  {
    assert y * c - x * c == (y - x) * c;
  }

  lemma CastMul(q: int, t: int)
    ensures (q * t) as real == (q as real) * (t as real)
  {
  }

  /**
   * The offset of pixel `v` inside its tile: the C# remainder, moved up by one
   * tile size when it is negative.
   */
  function LocalOf(v: int, ts: int): (l: int)
    requires ts > 0
    ensures 0 <= l < ts
    ensures TileOf(v, ts) * ts + l == v
  {
    var l := TruncRem(v, ts);
    var r := if l < 0 then l + ts else l;
    LocalIsFloorRem(v, ts, l, r);
    r
  }

  lemma LocalIsFloorRem(v: int, ts: int, l: int, r: int)
    requires ts > 0 && l == TruncRem(v, ts) && r == (if l < 0 then l + ts else l)
    ensures r == v % ts
  {
    var q := TruncDiv(v, ts);
    assert v == q * ts + l;
    if l < 0 {
      assert v == (q - 1) * ts + r;
      FloorDivUnique(v, ts, q - 1);
    } else {
      FloorDivUnique(v, ts, q);
    }
  }

  /** Splitting a pixel into a tile index and local offset loses nothing, and the split is unique. */
  lemma {:induction false} TileSplitUnique(v: int, ts: int, t: int, l: int)
    requires ts > 0 && 0 <= l < ts && t * ts + l == v
    ensures t == TileOf(v, ts) && l == LocalOf(v, ts)
  {
    assert t * ts <= v < (t + 1) * ts;
    FloorDivUnique(v, ts, t);
  }

  /** Two pixels with the same tile and the same offset are the same pixel. */
  lemma SameSplitSamePixel(v: int, w: int, ts: int)
    requires ts > 0 && TileOf(v, ts) == TileOf(w, ts) && LocalOf(v, ts) == LocalOf(w, ts)
    ensures v == w
  {
  }

  /** `PixelToWorld`: x stays, elevation is scaled down, and the z axis is flipped. */
  function PixelToWorld(x: int, z: int, elevation: real := 0.0): (p: Vector3)
    ensures p.x == x as real && p.z == -(z as real)
    ensures p.y * MetersPerWorldUnit == elevation
  {
    Vector3(x as real, elevation / MetersPerWorldUnit, -(z as real))
  }

  /** `WorldToPixel`: the floor of x and of the negated z. */
  function WorldToPixel(p: Vector3): (c: Coord)
    ensures c.x as real <= p.x < c.x as real + 1.0
    ensures c.z as real <= -p.z < c.z as real + 1.0
  {
    Coord(FloorToInt(p.x), FloorToInt(-p.z))
  }

  /** Every pixel comes back from its world position, whatever its elevation. */
  lemma {:induction false} WorldToPixelInvertsPixelToWorld(x: int, z: int, elevation: real)
    ensures WorldToPixel(PixelToWorld(x, z, elevation)) == Coord(x, z)
  {
    var p := PixelToWorld(x, z, elevation);
    assert -p.z == z as real;
  }

  /**
   * The tile index `GetGeoCoord` computes along one axis. For a zero tile size
   * the float quotient is infinite or undefined and converting it to `int`
   * gives `int.MinValue`; the geographic result does not depend on this index.
   */
  function GeoTileIndex(v: int, ts: int): int {
    if ts == 0 then Int32Min else FloorToInt(v as real / ts as real)
  }

  /**
   * One axis of `GetGeoCoord`, with every `int` operation wrapped to 32 bits
   * in the order C# evaluates it.
   */
  function GeoAxis(start: int, step: int, ts: int, tile: int, v: int): int {
    var tileOrigin := Wrap32(tile * ts);
    var local := Wrap32(v - tileOrigin);
    Wrap32(Wrap32(start + Wrap32(tileOrigin * step)) + Wrap32(local * step))
  }

  /**
   * Whatever tile index is used, the tile and the local offset add back to the
   * pixel, so one axis of `GetGeoCoord` is `start + v * step` in 32-bit
   * arithmetic.
   */
  lemma {:induction false} GeoAxisIsAffine(start: int, step: int, ts: int, tile: int, v: int)
    ensures GeoAxis(start, step, ts, tile, v) == Wrap32(start + v * step)
  {
    var M := Modulus32;
    var o := Wrap32(tile * ts);
    var l := Wrap32(v - o);
    var a := Wrap32(o * step);
    var b := Wrap32(start + a);
    var c := Wrap32(l * step);
    var kl := WrapOffset(v - o);
    var ka := WrapOffset(o * step);
    var kb := WrapOffset(start + a);
    var kc := WrapOffset(l * step);
    AffineSum(start, step, v, o, l, a, b, c, kl, ka, kb, kc);
    WrapShift(start + v * step, ka + kb + kc + kl * step);
  }

  /** The arithmetic core of `GeoAxisIsAffine`, with each wrap written as an added multiple of the modulus. */
  lemma AffineSum(start: int, step: int, v: int, o: int, l: int, a: int, b: int, c: int, kl: int, ka: int, kb: int, kc: int)
    requires l == v - o + kl * Modulus32 && a == o * step + ka * Modulus32
    requires b == start + a + kb * Modulus32 && c == l * step + kc * Modulus32
    ensures b + c == start + v * step + (ka + kb + kc + kl * step) * Modulus32
  {
    MulSplit(v - o, kl, Modulus32, step);
    MulSplit(v - o, 1, o, step);
    SumTimes(ka, kb, kc, kl * step, Modulus32);
  }

  /** `(a + k * m) * s` splits into `a * s` and `(k * s) * m`. */
  lemma MulSplit(a: int, k: int, m: int, s: int)
    ensures (a + k * m) * s == a * s + (k * s) * m
  {
  }

  /** Distributing a product over a four-term sum. */
  lemma SumTimes(a: int, b: int, c: int, d: int, m: int)
    ensures (a + b + c + d) * m == a * m + b * m + c * m + d * m
  {
  }

  /** How many times `Wrap32` adds the modulus to `n`. */
  function WrapOffset(n: int): (k: int)
    ensures Wrap32(n) == n + k * Modulus32
  {
    -((n + 0x8000_0000) / Modulus32)
  }

  lemma WrapShift(n: int, k: int)
    ensures Wrap32(n + k * Modulus32) == Wrap32(n)
  {
    var M := Modulus32;
    var q := (n + 0x8000_0000) / M;
    assert q * M <= n + 0x8000_0000 < (q + 1) * M;
    assert (q + k) * M <= n + k * M + 0x8000_0000 < (q + k + 1) * M;
    FloorDivUnique(n + k * M + 0x8000_0000, M, q + k);
  }
}
