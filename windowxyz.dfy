/**
 * The XYZ readers of the GIS import window: the points of the lines that
 * `TryParseXYZLine` accepts, the running bounds over them, the extents the
 * window derives from those bounds, and the pixel writes of its
 * `ParseXYZIntoLayer`. Unlike the parser's reader, the window skips a line
 * that does not parse and wraps an out-of-range value to 16 bits instead of
 * throwing.
 */
module WindowXyz {
  import opened Wrappers
  import opened Numeric
  import opened GeoTransform
  import opened Text
  import opened XyzText
  import opened Raster
  import GisParser
  import Mathf

  /** What `TryParseXYZLine` reads from each line. */
  function Readings(lines: seq<string>, parseFloat: string -> Option<real>): (rs: seq<Option<XYZPoint>>)
    ensures |rs| == |lines| && forall i :: 0 <= i < |lines| ==> rs[i] == ReadXYZLine(lines[i], parseFloat)
  {
    seq(|lines|, i requires 0 <= i < |lines| => ReadXYZLine(lines[i], parseFloat))
  }

  /** The points of the lines `TryParseXYZLine` accepts, in line order. */
  function Points(lines: seq<string>, parseFloat: string -> Option<real>): seq<XYZPoint> {
    Somes(Readings(lines, parseFloat))
  }

  /** One more line: its point, if it has one, is appended. */
  lemma PointsNext(lines: seq<string>, i: nat, parseFloat: string -> Option<real>)
    requires i < |lines|
    ensures var r := ReadXYZLine(lines[i], parseFloat);
            Points(lines[..i + 1], parseFloat) ==
              if r.Some? then Points(lines[..i], parseFloat) + [r.value] else Points(lines[..i], parseFloat)
  {
    var rs := Readings(lines[..i], parseFloat);
    assert Readings(lines[..i + 1], parseFloat) == rs + [ReadXYZLine(lines[i], parseFloat)];
    SomesNext(rs, ReadXYZLine(lines[i], parseFloat));
  }

  /**
   * The points are exactly the readings of the accepted lines: each point is
   * what some line reads as, with 32-bit coordinates, and every accepted
   * line contributes its point.
   */
  lemma PointsOfLines(lines: seq<string>, parseFloat: string -> Option<real>)
    ensures var ps := Points(lines, parseFloat);
            forall j :: 0 <= j < |ps| ==>
              IsInt32(ps[j].xMeter) && IsInt32(ps[j].zMeter) &&
              exists i :: 0 <= i < |lines| && ReadXYZLine(lines[i], parseFloat) == Some(ps[j])
    ensures forall i :: 0 <= i < |lines| && ReadXYZLine(lines[i], parseFloat).Some? ==>
              ReadXYZLine(lines[i], parseFloat).value in Points(lines, parseFloat)
  {
    var rs := Readings(lines, parseFloat);
    SomesAreValues(rs);
    ValuesAreSomes(rs);
  }

  /** The x coordinates of the points. */
  function XsOf(ps: seq<XYZPoint>): (xs: seq<int>)
    ensures |xs| == |ps| && forall i :: 0 <= i < |ps| ==> xs[i] == ps[i].xMeter
  {
    seq(|ps|, i requires 0 <= i < |ps| => ps[i].xMeter)
  }

  /** The z coordinates of the points. */
  function ZsOf(ps: seq<XYZPoint>): (zs: seq<int>)
    ensures |zs| == |ps| && forall i :: 0 <= i < |ps| ==> zs[i] == ps[i].zMeter
  {
    seq(|ps|, i requires 0 <= i < |ps| => ps[i].zMeter)
  }

  /** The running minimum of `ParseXYZMinMax`: `init`, lowered by each value in turn. */
  function MinOf(xs: seq<int>, init: int): int {
    if xs == [] then init else Min(MinOf(xs[..|xs| - 1], init), xs[|xs| - 1])
  }

  /** The running maximum: `init`, raised by each value in turn. */
  function MaxOf(xs: seq<int>, init: int): int {
    if xs == [] then init else Max(MaxOf(xs[..|xs| - 1], init), xs[|xs| - 1])
  }

  /** The running minimum is the least of `init` and the values. */
  lemma {:induction false} MinOfIsLeast(xs: seq<int>, init: int)
    ensures var m := MinOf(xs, init);
            m <= init && (forall i :: 0 <= i < |xs| ==> m <= xs[i]) &&
            (m == init || exists i :: 0 <= i < |xs| && xs[i] == m)
  {
    if xs != [] {
      var init' := xs[..|xs| - 1];
      MinOfIsLeast(init', init);
      var m := MinOf(xs, init);
      if m != init && m != xs[|xs| - 1] {
        var i :| 0 <= i < |init'| && init'[i] == m;
        assert xs[i] == m;
      }
    }
  }

  /** The running maximum is the greatest of `init` and the values. */
  lemma {:induction false} MaxOfIsGreatest(xs: seq<int>, init: int)
    ensures var m := MaxOf(xs, init);
            m >= init && (forall i :: 0 <= i < |xs| ==> m >= xs[i]) &&
            (m == init || exists i :: 0 <= i < |xs| && xs[i] == m)
  {
    if xs != [] {
      var init' := xs[..|xs| - 1];
      MaxOfIsGreatest(init', init);
      var m := MaxOf(xs, init);
      if m != init && m != xs[|xs| - 1] {
        var i :| 0 <= i < |init'| && init'[i] == m;
        assert xs[i] == m;
      }
    }
  }

  /** Scanning two texts one after the other is scanning their concatenation. */
  lemma {:induction false} MinOfConcat(a: seq<int>, b: seq<int>, init: int)
    ensures MinOf(a + b, init) == MinOf(b, MinOf(a, init))
  {
    if b == [] {
      assert a + b == a;
    } else {
      assert (a + b)[..|a + b| - 1] == a + b[..|b| - 1];
      MinOfConcat(a, b[..|b| - 1], init);
    }
  }

  lemma {:induction false} MaxOfConcat(a: seq<int>, b: seq<int>, init: int)
    ensures MaxOf(a + b, init) == MaxOf(b, MaxOf(a, init))
  {
    if b == [] {
      assert a + b == a;
    } else {
      assert (a + b)[..|a + b| - 1] == a + b[..|b| - 1];
      MaxOfConcat(a, b[..|b| - 1], init);
    }
  }

  /** Two scans, the second starting from the bounds the first reached, scan the points of both. */
  lemma BoundsConcat(a: seq<XYZPoint>, b: seq<XYZPoint>, minX0: int, maxX0: int, minZ0: int, maxZ0: int)
    ensures MinOf(XsOf(a + b), minX0) == MinOf(XsOf(b), MinOf(XsOf(a), minX0))
    ensures MaxOf(XsOf(a + b), maxX0) == MaxOf(XsOf(b), MaxOf(XsOf(a), maxX0))
    ensures MinOf(ZsOf(a + b), minZ0) == MinOf(ZsOf(b), MinOf(ZsOf(a), minZ0))
    ensures MaxOf(ZsOf(a + b), maxZ0) == MaxOf(ZsOf(b), MaxOf(ZsOf(a), maxZ0))
  {
    assert XsOf(a + b) == XsOf(a) + XsOf(b);
    assert ZsOf(a + b) == ZsOf(a) + ZsOf(b);
    MinOfConcat(XsOf(a), XsOf(b), minX0);
    MaxOfConcat(XsOf(a), XsOf(b), maxX0);
    MinOfConcat(ZsOf(a), ZsOf(b), minZ0);
    MaxOfConcat(ZsOf(a), ZsOf(b), maxZ0);
  }

  /**
   * Auto-detection reports "no valid points" when a minimum is still the
   * `int.MaxValue` it started from: exactly when there are no points, or
   * when every point sits on `int.MaxValue` along one axis.
   */
  predicate NoPointsDetected(ps: seq<XYZPoint>) {
    MinOf(XsOf(ps), Int32Max) == Int32Max || MinOf(ZsOf(ps), Int32Max) == Int32Max
  }

  lemma NoPointsDetectedMeans(ps: seq<XYZPoint>)
    requires forall j :: 0 <= j < |ps| ==> IsInt32(ps[j].xMeter) && IsInt32(ps[j].zMeter)
    ensures NoPointsDetected(ps) <==>
              (forall j :: 0 <= j < |ps| ==> ps[j].xMeter == Int32Max) ||
              (forall j :: 0 <= j < |ps| ==> ps[j].zMeter == Int32Max)
  {
    var xs, zs := XsOf(ps), ZsOf(ps);
    MinOfIsLeast(xs, Int32Max);
    MinOfIsLeast(zs, Int32Max);
    if MinOf(xs, Int32Max) != Int32Max {
      var i :| 0 <= i < |xs| && xs[i] == MinOf(xs, Int32Max);
      assert ps[i].xMeter != Int32Max;
    }
    if MinOf(zs, Int32Max) != Int32Max {
      var i :| 0 <= i < |zs| && zs[i] == MinOf(zs, Int32Max);
      assert ps[i].zMeter != Int32Max;
    }
  }

  /** One more point lowers and raises the coordinate bounds by its own coordinates. */
  lemma BoundsNext(ps: seq<XYZPoint>, p: XYZPoint, minX0: int, maxX0: int, minZ0: int, maxZ0: int)
    ensures MinOf(XsOf(ps + [p]), minX0) == Min(MinOf(XsOf(ps), minX0), p.xMeter)
    ensures MaxOf(XsOf(ps + [p]), maxX0) == Max(MaxOf(XsOf(ps), maxX0), p.xMeter)
    ensures MinOf(ZsOf(ps + [p]), minZ0) == Min(MinOf(ZsOf(ps), minZ0), p.zMeter)
    ensures MaxOf(ZsOf(ps + [p]), maxZ0) == Max(MaxOf(ZsOf(ps), maxZ0), p.zMeter)
  {
    assert XsOf(ps + [p]) == XsOf(ps) + [p.xMeter];
    assert ZsOf(ps + [p]) == ZsOf(ps) + [p.zMeter];
    assert (XsOf(ps) + [p.xMeter])[..|ps|] == XsOf(ps);
    assert (ZsOf(ps) + [p.zMeter])[..|ps|] == ZsOf(ps);
  }

  /**
   * On a grid with a positive step the pixel always exists: the offsets from
   * the origin in 32-bit arithmetic, divided with rounding toward zero.
   */
  lemma PixelOfPositiveStep(g: Grid, xMeter: int, zMeter: int)
    requires g.meterStep > 0
    ensures var dz := if g.negativeLatitudeStep then g.startLatitudeMeter - zMeter else zMeter - g.startLatitudeMeter;
            PixelOf(g, xMeter, zMeter) ==
              Some(Coord(TruncDiv(Wrap32(xMeter - g.startLongitudeMeter), g.meterStep), TruncDiv(Wrap32(dz), g.meterStep)))
  {
  }

  /** The pixel columns of the points on a grid with a positive step. */
  function PixelXs(ps: seq<XYZPoint>, g: Grid): (xs: seq<int>)
    requires g.meterStep > 0
    ensures |xs| == |ps| && forall i :: 0 <= i < |ps| ==> xs[i] == PixelOf(g, ps[i].xMeter, ps[i].zMeter).value.x
  {
    seq(|ps|, i requires 0 <= i < |ps| => PixelOf(g, ps[i].xMeter, ps[i].zMeter).value.x)
  }

  /** The pixel rows of the points on a grid with a positive step. */
  function PixelZs(ps: seq<XYZPoint>, g: Grid): (zs: seq<int>)
    requires g.meterStep > 0
    ensures |zs| == |ps| && forall i :: 0 <= i < |ps| ==> zs[i] == PixelOf(g, ps[i].xMeter, ps[i].zMeter).value.z
  {
    seq(|ps|, i requires 0 <= i < |ps| => PixelOf(g, ps[i].xMeter, ps[i].zMeter).value.z)
  }

  /** One more point raises the pixel bounds by its own pixel column and row. */
  lemma PixelBoundsNext(ps: seq<XYZPoint>, p: XYZPoint, g: Grid, c: Coord, maxX0: int, maxZ0: int)
    requires g.meterStep > 0 && PixelOf(g, p.xMeter, p.zMeter) == Some(c)
    ensures MaxOf(PixelXs(ps + [p], g), maxX0) == Max(MaxOf(PixelXs(ps, g), maxX0), c.x)
    ensures MaxOf(PixelZs(ps + [p], g), maxZ0) == Max(MaxOf(PixelZs(ps, g), maxZ0), c.z)
  {
    assert PixelXs(ps + [p], g) == PixelXs(ps, g) + [c.x];
    assert PixelZs(ps + [p], g) == PixelZs(ps, g) + [c.z];
    assert (PixelXs(ps, g) + [c.x])[..|ps|] == PixelXs(ps, g);
    assert (PixelZs(ps, g) + [c.z])[..|ps|] == PixelZs(ps, g);
  }

  /** Two pixel scans, the second starting from where the first stopped, scan the points of both. */
  lemma PixelBoundsConcat(a: seq<XYZPoint>, b: seq<XYZPoint>, g: Grid, maxX0: int, maxZ0: int)
    requires g.meterStep > 0
    ensures MaxOf(PixelXs(a + b, g), maxX0) == MaxOf(PixelXs(b, g), MaxOf(PixelXs(a, g), maxX0))
    ensures MaxOf(PixelZs(a + b, g), maxZ0) == MaxOf(PixelZs(b, g), MaxOf(PixelZs(a, g), maxZ0))
  {
    assert PixelXs(a + b, g) == PixelXs(a, g) + PixelXs(b, g);
    assert PixelZs(a + b, g) == PixelZs(a, g) + PixelZs(b, g);
    MaxOfConcat(PixelXs(a, g), PixelXs(b, g), maxX0);
    MaxOfConcat(PixelZs(a, g), PixelZs(b, g), maxZ0);
  }

  /**
   * The auto-detected extent along one axis from the bounds `lo` and `hi`:
   * `Mathf.Max(1, Mathf.CeilToInt((hi - lo) / (float)step) + 1)`, the
   * difference and the sum in 32-bit arithmetic and the float division taken
   * as exact. It is at least one pixel.
   */
  function DetectedExtent(lo: int, hi: int, step: int): (n: int)
    requires step > 0
    ensures n >= 1
  {
    Max(1, Wrap32(CeilDiv(Wrap32(hi - lo), step) + 1))
  }

  /**
   * Between bounds less than `int.MaxValue` apart, every offset from `lo`
   * up to `hi - lo` lands in one of the auto-detected pixels.
   */
  lemma ExtentCovers(d: int, lo: int, hi: int, step: int)
    requires step > 0 && 0 <= d <= hi - lo < Int32Max
    ensures 0 <= TruncDiv(Wrap32(d), step) < DetectedExtent(lo, hi, step)
  {
    var n := hi - lo;
    assert Wrap32(d) == d && Wrap32(n) == n;
    var c := CeilDiv(n, step);
    var q := TruncDiv(d, step);
    assert 0 <= d - q * step < step;
    assert (c - 1) * step < n <= c * step;
    assert (-1) * step < q * step;
    MulLess(-1, q, step);
    assert q * step < (c + 1) * step;
    MulLess(q, c + 1, step);
    if n > 0 {
      MulMonotone(1, step, n);
    }
    assert (c - 1) * step < n * step;
    MulLess(c - 1, n, step);
    assert Wrap32(c + 1) == c + 1;
  }

  /**
   * The grid `InitializeMapFromXYZ` detects from the points: its origin at
   * the least x and, when rows run down, at the greatest z (else the least
   * z), its extents those the bounds give; the scans start from
   * `int.MaxValue` for the minima and `int.MinValue` for the maxima.
   */
  function DetectedGrid(ps: seq<XYZPoint>, step: int, negativeLatitudeStep: bool): (g: Grid)
    requires step > 0
    ensures g.meterStep == step && g.negativeLatitudeStep == negativeLatitudeStep
  {
    var minX, maxX := MinOf(XsOf(ps), Int32Max), MaxOf(XsOf(ps), Int32Min);
    var minZ, maxZ := MinOf(ZsOf(ps), Int32Max), MaxOf(ZsOf(ps), Int32Min);
    Grid(minX, if negativeLatitudeStep then maxZ else minZ, step, negativeLatitudeStep,
         DetectedExtent(minX, maxX, step), DetectedExtent(minZ, maxZ, step))
  }

  /**
   * The detected grid holds every point: each lands inside it, provided the
   * points' bounds are less than `int.MaxValue` apart on each axis.
   */
  lemma DetectedGridHoldsPoints(ps: seq<XYZPoint>, step: int, negativeLatitudeStep: bool)
    requires step > 0
    requires forall j :: 0 <= j < |ps| ==> IsInt32(ps[j].xMeter) && IsInt32(ps[j].zMeter)
    requires MaxOf(XsOf(ps), Int32Min) - MinOf(XsOf(ps), Int32Max) < Int32Max
    requires MaxOf(ZsOf(ps), Int32Min) - MinOf(ZsOf(ps), Int32Max) < Int32Max
    ensures var g := DetectedGrid(ps, step, negativeLatitudeStep);
            forall j :: 0 <= j < |ps| ==> InGrid(g, PixelOf(g, ps[j].xMeter, ps[j].zMeter).value)
  {
    var xs, zs := XsOf(ps), ZsOf(ps);
    var minX, maxX := MinOf(xs, Int32Max), MaxOf(xs, Int32Min);
    var minZ, maxZ := MinOf(zs, Int32Max), MaxOf(zs, Int32Min);
    MinOfIsLeast(xs, Int32Max);
    MaxOfIsGreatest(xs, Int32Min);
    MinOfIsLeast(zs, Int32Max);
    MaxOfIsGreatest(zs, Int32Min);
    var g := Grid(minX, if negativeLatitudeStep then maxZ else minZ, step, negativeLatitudeStep,
                  DetectedExtent(minX, maxX, step), DetectedExtent(minZ, maxZ, step));
    assert g == DetectedGrid(ps, step, negativeLatitudeStep);
    forall j | 0 <= j < |ps|
      ensures InGrid(g, PixelOf(g, ps[j].xMeter, ps[j].zMeter).value)
    {
      var x, z := ps[j].xMeter, ps[j].zMeter;
      assert xs[j] == x && zs[j] == z;
      PixelOfPositiveStep(g, x, z);
      ExtentCovers(x - minX, minX, maxX, step);
      var dz := if negativeLatitudeStep then maxZ - z else z - minZ;
      ExtentCovers(dz, minZ, maxZ, step);
      assert PixelOf(g, x, z).value == Coord(TruncDiv(Wrap32(x - minX), step), TruncDiv(Wrap32(dz), step));
    }
  }

  /**
   * The grid `InitializeMapFromXYZ` infers without auto-detection: the
   * window's origin and step, and extents one past the greatest pixel index
   * the points reach (the scans start from 0), in 32-bit arithmetic.
   */
  function InferredGrid(ps: seq<XYZPoint>, g: Grid): (r: Grid)
    requires g.meterStep > 0
    ensures r.startLongitudeMeter == g.startLongitudeMeter && r.startLatitudeMeter == g.startLatitudeMeter
    ensures r.meterStep == g.meterStep && r.negativeLatitudeStep == g.negativeLatitudeStep
  {
    g.(xWidth := Wrap32(MaxOf(PixelXs(ps, g), 0) + 1), zWidth := Wrap32(MaxOf(PixelZs(ps, g), 0) + 1))
  }

  /**
   * The grid `InitializeMapFromXYZ` sizes the map with: detected from the
   * coordinate bounds with the step and row direction of `o`, or inferred
   * from the pixel indices measured from origin `o`.
   */
  function SizedGrid(autoDetect: bool, ps: seq<XYZPoint>, o: Grid): (g: Grid)
    requires o.meterStep > 0
    ensures g.meterStep == o.meterStep && g.negativeLatitudeStep == o.negativeLatitudeStep
    ensures !autoDetect ==> g.startLongitudeMeter == o.startLongitudeMeter && g.startLatitudeMeter == o.startLatitudeMeter
  {
    if autoDetect then DetectedGrid(ps, o.meterStep, o.negativeLatitudeStep) else InferredGrid(ps, o)
  }

  lemma InferredGridOf(ps: seq<XYZPoint>, g: Grid, maxX: int, maxZ: int)
    requires g.meterStep > 0 && maxX == MaxOf(PixelXs(ps, g), 0) && maxZ == MaxOf(PixelZs(ps, g), 0)
    ensures InferredGrid(ps, g) == g.(xWidth := Wrap32(maxX + 1), zWidth := Wrap32(maxZ + 1))
  {
  }

  /**
   * The inferred grid holds every point whose pixel indices are not
   * negative, provided the greatest index is below `int.MaxValue`; points
   * before the origin stay outside.
   */
  lemma InferredGridHoldsPoints(ps: seq<XYZPoint>, g: Grid)
    requires g.meterStep > 0
    requires MaxOf(PixelXs(ps, g), 0) < Int32Max && MaxOf(PixelZs(ps, g), 0) < Int32Max
    ensures var g' := InferredGrid(ps, g);
            forall j :: 0 <= j < |ps| ==>
              var c := PixelOf(g', ps[j].xMeter, ps[j].zMeter).value;
              c == PixelOf(g, ps[j].xMeter, ps[j].zMeter).value && (InGrid(g', c) <==> c.x >= 0 && c.z >= 0)
  {
    var xs, zs := PixelXs(ps, g), PixelZs(ps, g);
    var maxX, maxZ := MaxOf(xs, 0), MaxOf(zs, 0);
    MaxOfIsGreatest(xs, 0);
    MaxOfIsGreatest(zs, 0);
    var g' := InferredGrid(ps, g);
    InferredGridOf(ps, g, maxX, maxZ);
    assert g'.xWidth == maxX + 1 && g'.zWidth == maxZ + 1;
    forall j | 0 <= j < |ps|
      ensures var c := PixelOf(g', ps[j].xMeter, ps[j].zMeter).value;
              c == PixelOf(g, ps[j].xMeter, ps[j].zMeter).value && (InGrid(g', c) <==> c.x >= 0 && c.z >= 0)
    {
      PixelOfIgnoresExtent(g, g', ps[j].xMeter, ps[j].zMeter);
      var c := PixelOf(g, ps[j].xMeter, ps[j].zMeter).value;
      assert c.x == xs[j] <= maxX && c.z == zs[j] <= maxZ;
    }
  }

  /** The pixel of a position depends on the grid's origin, step and row direction, not on its extent. */
  lemma PixelOfIgnoresExtent(g: Grid, g': Grid, xMeter: int, zMeter: int)
    requires g'.startLongitudeMeter == g.startLongitudeMeter && g'.startLatitudeMeter == g.startLatitudeMeter
    requires g'.meterStep == g.meterStep && g'.negativeLatitudeStep == g.negativeLatitudeStep
    ensures PixelOf(g', xMeter, zMeter) == PixelOf(g, xMeter, zMeter)
  {
  }

  /** The pixel write of a point on a grid with a positive step, if it lands inside the grid. */
  function CellOf(p: XYZPoint, g: Grid, isElevation: bool): Option<Cell>
    requires g.meterStep > 0
  {
    var c := PixelOf(g, p.xMeter, p.zMeter).value;
    if InGrid(g, c) then Some(Cell(c.x, c.z, StoredValue(RoundToShort(p.value), isElevation))) else None
  }

  /** The pixel writes the points make, one entry per point. */
  function CellsOf(ps: seq<XYZPoint>, g: Grid, isElevation: bool): (cs: seq<Option<Cell>>)
    requires g.meterStep > 0
    ensures |cs| == |ps| && forall j :: 0 <= j < |ps| ==> cs[j] == CellOf(ps[j], g, isElevation)
  {
    seq(|ps|, j requires 0 <= j < |ps| => CellOf(ps[j], g, isElevation))
  }

  /** The writes of the window's `ParseXYZIntoLayer`: those of the in-grid points, in order. */
  function Writes(ps: seq<XYZPoint>, g: Grid, isElevation: bool): seq<Cell>
    requires g.meterStep > 0
  {
    Somes(CellsOf(ps, g, isElevation))
  }

  /** One more point: its write, if it lands in the grid, is appended. */
  lemma WritesNext(ps: seq<XYZPoint>, p: XYZPoint, g: Grid, isElevation: bool)
    requires g.meterStep > 0
    ensures var c := CellOf(p, g, isElevation);
            Writes(ps + [p], g, isElevation) ==
              if c.Some? then Writes(ps, g, isElevation) + [c.value] else Writes(ps, g, isElevation)
  {
    assert CellsOf(ps + [p], g, isElevation) == CellsOf(ps, g, isElevation) + [CellOf(p, g, isElevation)];
    SomesNext(CellsOf(ps, g, isElevation), CellOf(p, g, isElevation));
  }

  /** The write one line makes: none for a line `TryParseXYZLine` rejects or whose pixel is off the grid. */
  function LineWrite(line: string, g: Grid, isElevation: bool, parseFloat: string -> Option<real>): Option<Cell>
    requires g.meterStep > 0
  {
    match ReadXYZLine(line, parseFloat)
    case None => None
    case Some(p) => CellOf(p, g, isElevation)
  }

  /** One more line: its write, if it makes one, is appended to the writes of the lines before it. */
  lemma LineWritesNext(lines: seq<string>, i: nat, g: Grid, isElevation: bool, parseFloat: string -> Option<real>)
    requires i < |lines| && g.meterStep > 0
    ensures var c := LineWrite(lines[i], g, isElevation, parseFloat);
            var before := Writes(Points(lines[..i], parseFloat), g, isElevation);
            Writes(Points(lines[..i + 1], parseFloat), g, isElevation) ==
              if c.Some? then before + [c.value] else before
  {
    PointsNext(lines, i, parseFloat);
    var r := ReadXYZLine(lines[i], parseFloat);
    if r.Some? {
      WritesNext(Points(lines[..i], parseFloat), r.value, g, isElevation);
    }
  }

  /**
   * The writes are exactly those of the in-grid points: every write lands in
   * the grid and is the write of some point, elevation writes are never
   * negative, and every point that lands in the grid is written.
   */
  lemma WritesOfPoints(ps: seq<XYZPoint>, g: Grid, isElevation: bool)
    requires g.meterStep > 0
    ensures var ws := Writes(ps, g, isElevation);
            |ws| <= |ps| &&
            forall k :: 0 <= k < |ws| ==>
              InGrid(g, Coord(ws[k].x, ws[k].z)) && (isElevation ==> ws[k].value >= 0) &&
              exists j :: 0 <= j < |ps| && CellOf(ps[j], g, isElevation) == Some(ws[k])
    ensures forall j :: 0 <= j < |ps| && InGrid(g, PixelOf(g, ps[j].xMeter, ps[j].zMeter).value) ==>
              CellOf(ps[j], g, isElevation).Some? && CellOf(ps[j], g, isElevation).value in Writes(ps, g, isElevation)
  {
    var cs := CellsOf(ps, g, isElevation);
    SomesAreValues(cs);
    ValuesAreSomes(cs);
    var ws := Writes(ps, g, isElevation);
    forall k | 0 <= k < |ws|
      ensures InGrid(g, Coord(ws[k].x, ws[k].z)) && (isElevation ==> ws[k].value >= 0)
    {
      var j :| 0 <= j < |cs| && cs[j] == Some(ws[k]);
    }
  }

  /**
   * Where the window's reader and the parser's meet: on a line that parses,
   * whose value rounds into 16 bits, and on a grid with a positive step, the
   * parser takes the window's step (the same write, or a skip).
   */
  lemma ParserAgreesWithWindow(line: string, g: Grid, isElevation: bool, parseFloat: string -> Option<real>)
    requires g.meterStep > 0
    requires ReadXYZLine(line, parseFloat).Some? && ConvertToInt16(ReadXYZLine(line, parseFloat).value.value).Some?
    ensures GisParser.ParserStep(line, g, isElevation, parseFloat) ==
              match CellOf(ReadXYZLine(line, parseFloat).value, g, isElevation)
              case None => GisParser.Skip
              case Some(c) => GisParser.Write(c)
  {
    var p := ReadXYZLine(line, parseFloat).value;
    assert RoundToShort(p.value) == ConvertToInt16(p.value).value;
  }

  /**
   * Where they part on a malformed line: a non-blank line with three fields
   * that does not parse throws in the parser (ending its run), while the
   * window skips it.
   */
  lemma MalformedLineDiverges(line: string, g: Grid, isElevation: bool, parseFloat: string -> Option<real>)
    requires !IsBlank(line) && |Split(line)| >= 3 && ReadXYZLine(line, parseFloat).None?
    ensures GisParser.ParserStep(line, g, isElevation, parseFloat) == GisParser.Fail
  {
  }

  /**
   * And on a value beyond 16 bits: the parser throws, while the window
   * stores a wrapped value that differs from the rounded one.
   */
  lemma WideValueDiverges(line: string, g: Grid, isElevation: bool, parseFloat: string -> Option<real>)
    requires ReadXYZLine(line, parseFloat).Some? && ConvertToInt16(ReadXYZLine(line, parseFloat).value.value).None?
    ensures GisParser.ParserStep(line, g, isElevation, parseFloat) == GisParser.Fail
    ensures RoundToShort(ReadXYZLine(line, parseFloat).value.value) as int != Mathf.RoundToInt(ReadXYZLine(line, parseFloat).value.value)
  {
  }
}
