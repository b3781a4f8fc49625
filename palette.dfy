/**
 * The fuel palette of the raster importer: the entries `BuildFuelPalette`
 * collects from a fuel-code set, the two colour distances `ColorDistance`
 * offers, the nearest-entry scan of `MatchFuelCode`, and the per-colour
 * cache keyed by the packed `Color32`.
 */
module FuelPalette {
  import opened Numeric
  import opened Colors
  import opened FuelCatalog
  import Mathf

  /** `FuelPaletteEntry`: a fuel code and the colour that stands for it. */
  datatype PaletteEntry = PaletteEntry(code: Int16, color: Color)

  /** `ColorDistanceMode`. */
  datatype ColorDistanceMode = Rgb | Hsv

  /** Hue, saturation and value, each in [0, 1], as `Color.RGBToHSV` gives them. */
  datatype HsvColor = HsvColor(h: real, s: real, v: real)

  /** The chosen mode and the engine's RGB-to-HSV conversion. */
  datatype Metric = Metric(mode: ColorDistanceMode, toHsv: Color -> HsvColor)

  /**
   * `ColorDistance`: the squared RGB distance, or in HSV mode the squared
   * distance with the hue difference taken the short way round the circle.
   * Alpha never counts.
   */
  function ColorDistance(m: Metric, a: Color, b: Color): (d: real)
    ensures d >= 0.0
    ensures a == b || (m.mode == Rgb && (a.r, a.g, a.b) == (b.r, b.g, b.b)) ==> d == 0.0
  {
    if m.mode == Hsv then
      var x, y := m.toHsv(a), m.toHsv(b);
      var dh := Mathf.Min(Mathf.Abs(x.h - y.h), 1.0 - Mathf.Abs(x.h - y.h));
      SqFacts(dh);
      SqFacts(x.s - y.s);
      SqFacts(x.v - y.v);
      Sq(dh) + Sq(x.s - y.s) + Sq(x.v - y.v)
    else
      SqFacts(a.r - b.r);
      SqFacts(a.g - b.g);
      SqFacts(a.b - b.b);
      Sq(a.r - b.r) + Sq(a.g - b.g) + Sq(a.b - b.b)
  }

  function Sq(p: real): real {
    p * p
  }

  /** A square is never negative, and zero at zero. */
  lemma SqFacts(p: real)
    ensures Sq(p) >= 0.0 && (p == 0.0 ==> Sq(p) == 0.0)
  {
    SquareNonNegative(p, Sq(p));
  }

  lemma SquareNonNegative(p: real, s: real)
    requires s == p * p
    ensures s >= 0.0
  {
  }

  /** Both distances are symmetric: swapping the colours gives the same distance. */
  lemma DistanceSymmetric(m: Metric, a: Color, b: Color)
    ensures ColorDistance(m, a, b) == ColorDistance(m, b, a)
  {
    if m.mode == Hsv {
      var x, y := m.toHsv(a), m.toHsv(b);
      assert Mathf.Abs(x.h - y.h) == Mathf.Abs(y.h - x.h);
      SqNegate(x.s - y.s);
      SqNegate(x.v - y.v);
    } else {
      SqNegate(a.r - b.r);
      SqNegate(a.g - b.g);
      SqNegate(a.b - b.b);
    }
  }

  lemma SqNegate(p: real)
    ensures Sq(-p) == Sq(p)
  {
  }

  /** The pixel as a `Color`: each channel over 255, alpha forced to 1. */
  function Normalized(c: Color32): Color {
    Color(c.r as real / 255.0, c.g as real / 255.0, c.b as real / 255.0, 1.0)
  }

  /**
   * The pixel is left to the default code: its alpha byte is compared with
   * the threshold as it is, without scaling to [0, 1].
   */
  predicate Ignored(c: Color32, threshold: real) {
    c.a as real <= threshold
  }

  /**
   * The cache key `(r << 24) | (g << 16) | (b << 8) | a` as a C# `int`. The
   * four bytes occupy disjoint bits, so the OR is the sum; red above 127
   * makes the key negative.
   */
  function PackKey(c: Color32): (key: int)
    ensures IsInt32(key)
  {
    Wrap32(((c.r as int * 0x100 + c.g as int) * 0x100 + c.b as int) * 0x100 + c.a as int)
  }

  /** The four bytes of a key, read back from its two's-complement bits. */
  function UnpackKey(key: int): Color32 {
    var u := key % 0x1_0000_0000;
    var u1 := u / 0x100;
    var u2 := u1 / 0x100;
    Color32(((u2 / 0x100) % 0x100) as Byte, (u2 % 0x100) as Byte, (u1 % 0x100) as Byte, (u % 0x100) as Byte)
  }

  /** Packing loses nothing: distinct colours never share a cache slot. */
  lemma UnpackPackKey(c: Color32)
    ensures UnpackKey(PackKey(c)) == c
  {
    var s2 := c.r as int * 0x100 + c.g as int;
    var s1 := s2 * 0x100 + c.b as int;
    var s := s1 * 0x100 + c.a as int;
    assert 0 <= s2 < 0x1_0000;
    assert 0 <= s1 < 0x100_0000;
    assert 0 <= s < 0x1_0000_0000;
    assert PackKey(c) % 0x1_0000_0000 == s;
    RowMajor(s1, c.a as int, 0x100);
    RowMajor(s2, c.b as int, 0x100);
    RowMajor(c.r as int, c.g as int, 0x100);
  }

  lemma PackKeyInjective(c: Color32, c': Color32)
    requires PackKey(c) == PackKey(c')
    ensures c == c'
  {
    UnpackPackKey(c);
    UnpackPackKey(c');
  }

  /** The distance of every palette colour from `c` under metric `m`. */
  function DistanceTo(m: Metric, c: Color): Color -> real {
    x => ColorDistance(m, c, x)
  }

  /**
   * The `foreach` of `MatchFuelCode` after the entries of `palette`: the best
   * distance so far, starting from `float.MaxValue`, and its code, starting
   * from `fallback`; only a strictly smaller distance replaces them.
   */
  function Scan(palette: seq<PaletteEntry>, dist: Color -> real, fallback: Int16): (real, Int16) {
    if palette == [] then (Mathf.FloatMax, fallback)
    else
      var best := Scan(palette[..|palette| - 1], dist, fallback);
      var d := dist(palette[|palette| - 1].color);
      if d < best.0 then (d, palette[|palette| - 1].code) else best
  }

  /** Entry `k` is as near as any entry, and strictly nearer than every entry before it. */
  ghost predicate FirstNearest(palette: seq<PaletteEntry>, dist: Color -> real, k: int) {
    0 <= k < |palette| &&
    (forall j :: 0 <= j < |palette| ==> dist(palette[k].color) <= dist(palette[j].color)) &&
    (forall j :: 0 <= j < k ==> dist(palette[k].color) < dist(palette[j].color))
  }

  /** The scan's distance is no larger than `float.MaxValue` nor than any entry's distance. */
  lemma {:induction false} ScanBelowAll(palette: seq<PaletteEntry>, dist: Color -> real, fallback: Int16)
    ensures var r := Scan(palette, dist, fallback);
            r.0 <= Mathf.FloatMax && forall j :: 0 <= j < |palette| ==> r.0 <= dist(palette[j].color)
  {
    if palette != [] {
      var n := |palette| - 1;
      ScanBelowAll(palette[..n], dist, fallback);
      assert forall j :: 0 <= j < n ==> palette[..n][j] == palette[j];
    }
  }

  /** When no entry comes closer than `float.MaxValue`, the scan keeps the fallback code. */
  lemma {:induction false} ScanKeepsFallback(palette: seq<PaletteEntry>, dist: Color -> real, fallback: Int16)
    requires forall j :: 0 <= j < |palette| ==> dist(palette[j].color) >= Mathf.FloatMax
    ensures Scan(palette, dist, fallback) == (Mathf.FloatMax, fallback)
  {
    if palette != [] {
      var n := |palette| - 1;
      assert forall j :: 0 <= j < n ==> palette[..n][j] == palette[j];
      ScanKeepsFallback(palette[..n], dist, fallback);
    }
  }

  /**
   * When some entry comes closer than `float.MaxValue`, the scan returns the
   * distance and code of the first nearest entry.
   */
  lemma {:induction false} ScanFindsFirstNearest(palette: seq<PaletteEntry>, dist: Color -> real, fallback: Int16, j0: int)
    requires 0 <= j0 < |palette| && dist(palette[j0].color) < Mathf.FloatMax
    ensures exists k :: FirstNearest(palette, dist, k) &&
                        Scan(palette, dist, fallback) == (dist(palette[k].color), palette[k].code)
  {
    var n := |palette| - 1;
    var front := palette[..n];
    if j1 :| 0 <= j1 < n && dist(palette[j1].color) < Mathf.FloatMax {
      assert front[j1] == palette[j1];
      ScanFindsFirstNearest(front, dist, fallback, j1);
      var k :| FirstNearest(front, dist, k) && Scan(front, dist, fallback) == (dist(front[k].color), front[k].code);
      assert front[k] == palette[k];
      NearestExtends(palette, dist, fallback, k);
    } else {
      LastNearest(palette, dist, fallback);
    }
  }

  /** When only the last entry comes closer than `float.MaxValue`, the scan picks it. */
  lemma {:induction false} LastNearest(palette: seq<PaletteEntry>, dist: Color -> real, fallback: Int16)
    requires palette != [] && dist(palette[|palette| - 1].color) < Mathf.FloatMax
    requires forall j :: 0 <= j < |palette| - 1 ==> dist(palette[j].color) >= Mathf.FloatMax
    ensures FirstNearest(palette, dist, |palette| - 1)
    ensures Scan(palette, dist, fallback) == (dist(palette[|palette| - 1].color), palette[|palette| - 1].code)
  {
    var n := |palette| - 1;
    var front := palette[..n];
    assert forall j :: 0 <= j < n ==> front[j] == palette[j];
    ScanKeepsFallback(front, dist, fallback);
  }

  /** The step of the scan over the last entry keeps a first nearest entry of the front, or takes the last one. */
  lemma {:induction false} NearestExtends(palette: seq<PaletteEntry>, dist: Color -> real, fallback: Int16, k: int)
    requires palette != []
    requires FirstNearest(palette[..|palette| - 1], dist, k)
    requires Scan(palette[..|palette| - 1], dist, fallback) == (dist(palette[k].color), palette[k].code)
    ensures exists k' :: FirstNearest(palette, dist, k') && Scan(palette, dist, fallback) == (dist(palette[k'].color), palette[k'].code)
  {
    var n := |palette| - 1;
    var front := palette[..n];
    var d := dist(palette[n].color);
    assert front[k] == palette[k];
    assert Scan(palette, dist, fallback) ==
           if d < dist(palette[k].color) then (d, palette[n].code) else Scan(front, dist, fallback);
    if d < dist(palette[k].color) {
      forall j | 0 <= j < |palette| ensures d <= dist(palette[j].color) {
        if j < n { assert front[j] == palette[j]; }
      }
      forall j | 0 <= j < n ensures d < dist(palette[j].color) {
        assert front[j] == palette[j];
      }
      assert FirstNearest(palette, dist, n);
    } else {
      forall j | 0 <= j < |palette| ensures dist(palette[k].color) <= dist(palette[j].color) {
        if j < n { assert front[j] == palette[j]; }
      }
      forall j | 0 <= j < k ensures dist(palette[k].color) < dist(palette[j].color) {
        assert front[j] == palette[j];
      }
      assert FirstNearest(palette, dist, k);
    }
  }

  /**
   * The code `MatchFuelCode` returns for pixel `c`: the default for an
   * ignored pixel or an empty palette, otherwise the scan's code.
   */
  function MatchedCode(c: Color32, palette: seq<PaletteEntry>, m: Metric, threshold: real, fallback: Int16): Int16 {
    if Ignored(c, threshold) || palette == [] then fallback
    else Scan(palette, DistanceTo(m, Normalized(c)), fallback).1
  }

  /**
   * What a match means: an ignored pixel or an empty palette gets the
   * default; otherwise the code of the first entry nearest to the pixel's
   * colour, or the default when every entry is at least `float.MaxValue`
   * away.
   */
  lemma MatchedCodeNearest(c: Color32, palette: seq<PaletteEntry>, m: Metric, threshold: real, fallback: Int16)
    ensures Ignored(c, threshold) || palette == [] ==> MatchedCode(c, palette, m, threshold, fallback) == fallback
    ensures var dist := DistanceTo(m, Normalized(c));
            !Ignored(c, threshold) && (forall j :: 0 <= j < |palette| ==> dist(palette[j].color) >= Mathf.FloatMax) ==>
              MatchedCode(c, palette, m, threshold, fallback) == fallback
    ensures var dist := DistanceTo(m, Normalized(c));
            !Ignored(c, threshold) && (exists j :: 0 <= j < |palette| && dist(palette[j].color) < Mathf.FloatMax) ==>
              exists k :: FirstNearest(palette, dist, k) && MatchedCode(c, palette, m, threshold, fallback) == palette[k].code
  {
    var dist := DistanceTo(m, Normalized(c));
    if !Ignored(c, threshold) {
      if j :| 0 <= j < |palette| && dist(palette[j].color) < Mathf.FloatMax {
        ScanFindsFirstNearest(palette, dist, fallback, j);
      } else {
        ScanKeepsFallback(palette, dist, fallback);
      }
    }
  }

  /** `MatchFuelCode` as a conversion of a whole fuel image, pixel by pixel. */
  function FuelOf(palette: seq<PaletteEntry>, m: Metric, threshold: real, fallback: Int16): Color32 -> Int16 {
    c => MatchedCode(c, palette, m, threshold, fallback)
  }

  /** Every cached key holds the code the scan gives for the colour it packs. */
  ghost predicate CacheSound(cache: map<int, Int16>, palette: seq<PaletteEntry>, m: Metric, fallback: Int16) {
    forall c: Color32 :: PackKey(c) in cache ==> cache[PackKey(c)] == Scan(palette, DistanceTo(m, Normalized(c)), fallback).1
  }

  /** Storing the scan's code under a pixel's key keeps the cache sound. */
  lemma CacheStore(cache: map<int, Int16>, palette: seq<PaletteEntry>, m: Metric, fallback: Int16, c: Color32)
    requires CacheSound(cache, palette, m, fallback)
    ensures CacheSound(cache[PackKey(c) := Scan(palette, DistanceTo(m, Normalized(c)), fallback).1], palette, m, fallback)
  {
    forall c': Color32 | PackKey(c') == PackKey(c) {
      PackKeyInjective(c', c);
    }
  }

  /** The entry `BuildFuelPalette` adds for one fuel code. */
  function EntryOf(fc: FuelCodeData, adjust: (Color, real, real) -> Color): PaletteEntry
    reads fc`fuelCodeID, fc`baseColor, fc`familyBrightness, fc`familySaturation
  {
    PaletteEntry(fc.fuelCodeID, adjust(fc.baseColor, fc.familyBrightness, fc.familySaturation))
  }

  /**
   * The palette of a list of fuel codes: one entry per present code, in list
   * order. `adjust` is the family adjustment of a code's base colour by its
   * family brightness and saturation.
   */
  function PaletteOf(codes: seq<FuelCodeData?>, adjust: (Color, real, real) -> Color): seq<PaletteEntry>
    reads codes
  {
    if codes == [] then []
    else
      var last := codes[|codes| - 1];
      PaletteOf(codes[..|codes| - 1], adjust) + if last == null then [] else [EntryOf(last, adjust)]
  }

  /**
   * Every entry comes from a present code, every present code gives an
   * entry, and the palette is empty exactly when no code is present.
   */
  lemma {:induction false} PaletteEntries(codes: seq<FuelCodeData?>, adjust: (Color, real, real) -> Color)
    ensures var p := PaletteOf(codes, adjust);
            |p| <= |codes| &&
            (forall k :: 0 <= k < |p| ==> exists i :: 0 <= i < |codes| && codes[i] != null && p[k] == EntryOf(codes[i], adjust))
    ensures forall i :: 0 <= i < |codes| && codes[i] != null ==> EntryOf(codes[i], adjust) in PaletteOf(codes, adjust)
    ensures PaletteOf(codes, adjust) == [] <==> forall i :: 0 <= i < |codes| ==> codes[i] == null
  {
    if codes != [] {
      var n := |codes| - 1;
      var front := codes[..n];
      PaletteEntries(front, adjust);
      assert forall i :: 0 <= i < n ==> front[i] == codes[i];
      var p := PaletteOf(codes, adjust);
      var q := PaletteOf(front, adjust);
      assert p[..|q|] == q;
      forall k | 0 <= k < |p|
        ensures exists i :: 0 <= i < |codes| && codes[i] != null && p[k] == EntryOf(codes[i], adjust)
      {
        if k < |q| {
          assert p[k] == q[k];
          var i :| 0 <= i < |front| && front[i] != null && q[k] == EntryOf(front[i], adjust);
          assert codes[i] == front[i];
        } else {
          assert codes[n] != null && p[k] == EntryOf(codes[n], adjust);
        }
      }
      forall i | 0 <= i < |codes| && codes[i] != null
        ensures EntryOf(codes[i], adjust) in p
      {
        if i < n {
          assert front[i] == codes[i];
          var k :| 0 <= k < |q| && q[k] == EntryOf(codes[i], adjust);
          assert p[k] == q[k];
        } else {
          assert p[|p| - 1] == EntryOf(codes[n], adjust);
        }
      }
    }
  }
}
