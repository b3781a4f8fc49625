/**
 * `GISImportWindow`: the editor window that imports a map from two XYZ texts
 * (elevation and fuel code per metre position) or from two textures
 * (elevation and fuel colours). The model keeps the window's settings as
 * fields and its targets as references; the texts, the textures and the
 * fuel palette's colours are parameters.
 */
module ImportWindow {
  import opened Wrappers
  import opened Numeric
  import opened GeoTransform
  import opened Text
  import opened XyzText
  import opened Raster
  import opened MapStore
  import opened WindowXyz
  import opened Colors
  import opened FuelCatalog
  import GisParser
  import Mathf
  import FuelPalette
  import RasterImage

  /** The meter step `InitializeMap` uses: a non-positive step becomes 1. */
  function StepFor(meterStep: int): (step: int)
    ensures step > 0 && (meterStep > 0 ==> step == meterStep)
  {
    if meterStep <= 0 then 1 else meterStep
  }

  /** How `ImportRaster` ends: one of its two dialogs, or a finished import. */
  datatype RasterOutcome = SizeMismatch | InvalidElevationRange | Imported

  class GISImportWindow {
    var mapData: MapData?
    var elevationLayer: RasterLayer?
    var fuelCodeLayer: RasterLayer?

    var elevationScale: real
    var elevationOffset: real
    var elevationMin: real
    var elevationMax: real

    var fuelCodeSet: FuelCodeSet?
    var defaultFuelCode: Int16
    var alphaIgnoreThreshold: real
    var colorDistanceMode: FuelPalette.ColorDistanceMode

    var xyzAutoDetectBounds: bool

    var startLongitudeMeter: int
    var startLatitudeMeter: int
    var meterStep: int
    var tileSize: int
    var flipVertical: bool
    var negativeLatitudeStep: bool

    /** The window's initial settings. */
    constructor ()
      ensures mapData == null && elevationLayer == null && fuelCodeLayer == null && fuelCodeSet == null
      ensures elevationScale == 1.0 && elevationOffset == 0.0 && elevationMin == 0.0 && elevationMax == 3000.0
      ensures defaultFuelCode == 98 && alphaIgnoreThreshold == 0.01 && colorDistanceMode == FuelPalette.Rgb && xyzAutoDetectBounds
      ensures startLongitudeMeter == 0 && startLatitudeMeter == 0 && meterStep == 1 && tileSize == 122
      ensures flipVertical && negativeLatitudeStep
    {
      mapData, elevationLayer, fuelCodeLayer, fuelCodeSet := null, null, null, null;
      elevationScale, elevationOffset, elevationMin, elevationMax := 1.0, 0.0, 0.0, 3000.0;
      defaultFuelCode, alphaIgnoreThreshold, colorDistanceMode := 98, 0.01, FuelPalette.Rgb;
      xyzAutoDetectBounds := true;
      startLongitudeMeter, startLatitudeMeter, meterStep, tileSize := 0, 0, 1, 122;
      flipVertical, negativeLatitudeStep := true, true;
    }

    /** The grid XYZ points land on: the window's origin, step and row direction, and the map's extent. */
    function Grid(): Grid
      requires mapData != null
      reads this`mapData, this`startLongitudeMeter, this`startLatitudeMeter, this`meterStep, this`negativeLatitudeStep
      reads mapData`xWidth, mapData`zWidth
    {
      XyzText.Grid(startLongitudeMeter, startLatitudeMeter, meterStep, negativeLatitudeStep, mapData.xWidth, mapData.zWidth)
    }

    /** The window's origin, step and row direction, on which `ParseXYZBounds` measures pixel indices. */
    function Origin(): Grid
      reads this`startLongitudeMeter, this`startLatitudeMeter, this`meterStep, this`negativeLatitudeStep
    {
      XyzText.Grid(startLongitudeMeter, startLatitudeMeter, meterStep, negativeLatitudeStep, 0, 0)
    }

    /** The layer a parse writes into. */
    function Target(isElevation: bool): RasterLayer?
      reads this
    {
      if isElevation then elevationLayer else fuelCodeLayer
    }

    /** The tile size `InitializeMap` gives the map: the window's when positive, otherwise the map's own. */
    function NewTileSize(): int
      requires mapData != null
      reads this`tileSize, this`mapData, mapData`tileSize
    {
      if tileSize > 0 then tileSize else mapData.tileSize
    }

    /** The latitude step of the map: the meter step, negated when rows run south. */
    function LatitudeStep(): int
      reads this`meterStep, this`negativeLatitudeStep
    {
      if negativeLatitudeStep then Wrap32(-meterStep) else meterStep
    }

    /** The layer carries the map's extent and tile size and the window's origin and steps. */
    ghost predicate OnMapGrid(layer: RasterLayer)
      requires mapData != null
      reads this`mapData, this`startLongitudeMeter, this`startLatitudeMeter, this`meterStep, this`negativeLatitudeStep
      reads mapData`xWidth, mapData`zWidth, mapData`tileSize
      reads layer`width, layer`height, layer`tileSize, layer`startLongitudeMeter, layer`startLatitudeMeter,
            layer`longitudeMeterStep, layer`latitudeMeterStep
    {
      InMapGrid(layer) && layer.tileSize == mapData.tileSize
    }

    /** The layer carries the map's extent and the window's origin and steps. */
    ghost predicate InMapGrid(layer: RasterLayer)
      requires mapData != null
      reads this`mapData, this`startLongitudeMeter, this`startLatitudeMeter, this`meterStep, this`negativeLatitudeStep
      reads mapData`xWidth, mapData`zWidth
      reads layer`width, layer`height, layer`startLongitudeMeter, layer`startLatitudeMeter,
            layer`longitudeMeterStep, layer`latitudeMeterStep
    {
      GisParser.LayerTakesGrid(layer, mapData.xWidth, mapData.zWidth, startLongitudeMeter, startLatitudeMeter, meterStep, LatitudeStep())
    }

    /** The two target layers: present, distinct and well formed. */
    ghost predicate LayersReady()
      reads this`elevationLayer, this`fuelCodeLayer
      reads elevationLayer, fuelCodeLayer
    {
      elevationLayer != null && fuelCodeLayer != null && elevationLayer != fuelCodeLayer &&
      elevationLayer.Valid() && fuelCodeLayer.Valid()
    }

    /**
     * `ParseXYZMinMax`: lowers and raises the four bounds by the coordinates
     * of every line `TryParseXYZLine` accepts; other lines change nothing.
     */
    method ParseXYZMinMax(text: string, parseFloat: string -> Option<real>, minX0: int, maxX0: int, minZ0: int, maxZ0: int)
      returns (minX: int, maxX: int, minZ: int, maxZ: int)
      ensures var ps := Points(Lines(text), parseFloat);
              minX == MinOf(XsOf(ps), minX0) && maxX == MaxOf(XsOf(ps), maxX0) &&
              minZ == MinOf(ZsOf(ps), minZ0) && maxZ == MaxOf(ZsOf(ps), maxZ0)
    {
      var lines := Lines(text);
      minX, maxX, minZ, maxZ := minX0, maxX0, minZ0, maxZ0;
      ghost var points: seq<XYZPoint> := [];
      for i := 0 to |lines|
        invariant points == Points(lines[..i], parseFloat)
        invariant minX == MinOf(XsOf(points), minX0) && maxX == MaxOf(XsOf(points), maxX0)
        invariant minZ == MinOf(ZsOf(points), minZ0) && maxZ == MaxOf(ZsOf(points), maxZ0)
      {
        PointsNext(lines, i, parseFloat);
        var line := lines[i];
        if IsBlank(line) {
          continue;
        }
        var ok, xMeter, zMeter, value := TryParseXYZLine(line, parseFloat);
        if !ok {
          continue;
        }
        ghost var p := XYZPoint(xMeter, zMeter, value);
        BoundsNext(points, p, minX0, maxX0, minZ0, maxZ0);
        if xMeter < minX { minX := xMeter; }
        if xMeter > maxX { maxX := xMeter; }
        if zMeter < minZ { minZ := zMeter; }
        if zMeter > maxZ { maxZ := zMeter; }
        points := points + [p];
      }
      assert lines[..|lines|] == lines;
    }

    /**
     * `ParseXYZBounds`: raises the two bounds by the pixel column and row of
     * every accepted line, measured from the window's origin with its step
     * (which `InitializeMapFromXYZ` has made positive).
     */
    method ParseXYZBounds(text: string, parseFloat: string -> Option<real>, maxX0: int, maxZ0: int)
      returns (maxX: int, maxZ: int)
      requires meterStep > 0
      ensures var ps := Points(Lines(text), parseFloat);
              maxX == MaxOf(PixelXs(ps, Origin()), maxX0) && maxZ == MaxOf(PixelZs(ps, Origin()), maxZ0)
    {
      var lines := Lines(text);
      maxX, maxZ := maxX0, maxZ0;
      var g := Origin();
      ghost var points: seq<XYZPoint> := [];
      for i := 0 to |lines|
        invariant points == Points(lines[..i], parseFloat)
        invariant maxX == MaxOf(PixelXs(points, g), maxX0) && maxZ == MaxOf(PixelZs(points, g), maxZ0)
      {
        PointsNext(lines, i, parseFloat);
        var line := lines[i];
        if IsBlank(line) {
          continue;
        }
        var ok, xMeter, zMeter, value := TryParseXYZLine(line, parseFloat);
        if !ok {
          continue;
        }
        var c := PixelOf(g, xMeter, zMeter).value;
        ghost var p := XYZPoint(xMeter, zMeter, value);
        PixelBoundsNext(points, p, g, c, maxX0, maxZ0);
        if c.x > maxX { maxX := c.x; }
        if c.z > maxZ { maxZ := c.z; }
        points := points + [p];
      }
      assert lines[..|lines|] == lines;
    }

    /**
     * `InitializeMap`: makes the meter step positive, gives the map the new
     * tile size, initializes its extent and origin, and points both layers
     * at the same grid. The layers keep their tiles; each stays well formed
     * exactly when it can take the new tile size, and then reads as before.
     */
    method InitializeMap(width: int, height: int)
      requires mapData != null && LayersReady()
      modifies this`meterStep
      modifies mapData`tileSize, mapData`xWidth, mapData`zWidth, mapData`xCount, mapData`zCount,
               mapData`startLongitudeMeter, mapData`startLatitudeMeter, mapData`longitudeMeterStep, mapData`latitudeMeterStep
      modifies elevationLayer`width, elevationLayer`height, elevationLayer`tileSize, elevationLayer`startLongitudeMeter, elevationLayer`startLatitudeMeter,
               elevationLayer`longitudeMeterStep, elevationLayer`latitudeMeterStep
      modifies fuelCodeLayer`width, fuelCodeLayer`height, fuelCodeLayer`tileSize, fuelCodeLayer`startLongitudeMeter, fuelCodeLayer`startLatitudeMeter,
               fuelCodeLayer`longitudeMeterStep, fuelCodeLayer`latitudeMeterStep
      ensures meterStep == StepFor(old(meterStep)) && mapData.tileSize == old(NewTileSize())
      ensures mapData.xWidth == width && mapData.zWidth == height
      ensures mapData.startLongitudeMeter == startLongitudeMeter && mapData.startLatitudeMeter == startLatitudeMeter
      ensures mapData.longitudeMeterStep == meterStep && mapData.latitudeMeterStep == LatitudeStep()
      ensures mapData.xCount == CeilQuotient(width, mapData.tileSize) && mapData.zCount == CeilQuotient(height, mapData.tileSize)
      ensures OnMapGrid(elevationLayer) && OnMapGrid(fuelCodeLayer)
      ensures elevationLayer.tiles == old(elevationLayer.tiles) && fuelCodeLayer.tiles == old(fuelCodeLayer.tiles)
      ensures elevationLayer.Valid() <==> old(FitsTileSize(elevationLayer, NewTileSize()))
      ensures fuelCodeLayer.Valid() <==> old(FitsTileSize(fuelCodeLayer, NewTileSize()))
      ensures elevationLayer.Valid() ==> forall x, z :: elevationLayer.ValueAt(x, z) == old(elevationLayer.ValueAt(x, z))
      ensures fuelCodeLayer.Valid() ==> forall x, z :: fuelCodeLayer.ValueAt(x, z) == old(fuelCodeLayer.ValueAt(x, z))
    {
      PrepareSizing();
      var latitudeStep := if negativeLatitudeStep then Wrap32(-meterStep) else meterStep;
      mapData.Initialize(width, height, startLongitudeMeter, startLatitudeMeter, meterStep, latitudeStep);
      PointLayers(elevationLayer, fuelCodeLayer, width, height, mapData.tileSize,
                  startLongitudeMeter, startLatitudeMeter, meterStep, latitudeStep);
    }

    /**
     * The auto-detecting half of `InitializeMapFromXYZ` before it
     * initializes the map: the bounds of both texts, the "no valid points"
     * test, and the grid the bounds give.
     */
    method DetectGrid(elevText: string, fuelText: string, parseFloat: string -> Option<real>)
      returns (found: bool, g: Grid)
      requires meterStep > 0
      ensures var ps := Points(Lines(elevText), parseFloat) + Points(Lines(fuelText), parseFloat);
              found == !NoPointsDetected(ps) && (found ==> g == DetectedGrid(ps, meterStep, negativeLatitudeStep))
    {
      var minX, maxX, minZ, maxZ := ParseXYZMinMax(elevText, parseFloat, Int32Max, Int32Min, Int32Max, Int32Min);
      minX, maxX, minZ, maxZ := ParseXYZMinMax(fuelText, parseFloat, minX, maxX, minZ, maxZ);
      BoundsConcat(Points(Lines(elevText), parseFloat), Points(Lines(fuelText), parseFloat), Int32Max, Int32Min, Int32Max, Int32Min);
      g := Origin();
      if minX == Int32Max || minZ == Int32Max {
        return false, g;
      }
      var startLatitude := if negativeLatitudeStep then maxZ else minZ;
      var width := DetectedExtent(minX, maxX, meterStep);
      var height := DetectedExtent(minZ, maxZ, meterStep);
      found, g := true, XyzText.Grid(minX, startLatitude, meterStep, negativeLatitudeStep, width, height);
    }

    /**
     * The other half: the greatest pixel indices of both texts, measured
     * from the window's origin, give the width and height.
     */
    method InferGrid(elevText: string, fuelText: string, parseFloat: string -> Option<real>) returns (g: Grid)
      requires meterStep > 0
      ensures g == InferredGrid(Points(Lines(elevText), parseFloat) + Points(Lines(fuelText), parseFloat), Origin())
    {
      var maxX, maxZ := ParseXYZBounds(elevText, parseFloat, 0, 0);
      maxX, maxZ := ParseXYZBounds(fuelText, parseFloat, maxX, maxZ);
      ghost var ps1, ps2 := Points(Lines(elevText), parseFloat), Points(Lines(fuelText), parseFloat);
      PixelBoundsConcat(ps1, ps2, Origin(), 0, 0);
      g := Origin().(xWidth := Wrap32(maxX + 1), zWidth := Wrap32(maxZ + 1));
      InferredGridOf(ps1 + ps2, Origin(), maxX, maxZ);
    }

    /**
     * `InitializeMapFromXYZ`: sizes the map from the two texts (by their
     * coordinate bounds, or by their pixel indices from the window's
     * origin), initializes it, and parses both texts into their layers. With
     * auto-detection and no valid point, it stops before initializing and
     * reports no points, having only made the step positive and set the
     * map's tile size.
     */
    method InitializeMapFromXYZ(elevText: string, fuelText: string, parseFloat: string -> Option<real>)
      returns (elevationCount: int, fuelCount: int)
      requires mapData != null && LayersReady()
      requires FitsTileSize(elevationLayer, NewTileSize()) && FitsTileSize(fuelCodeLayer, NewTileSize())
      modifies this`meterStep, this`startLongitudeMeter, this`startLatitudeMeter
      modifies mapData`tileSize, mapData`xWidth, mapData`zWidth, mapData`xCount, mapData`zCount,
               mapData`startLongitudeMeter, mapData`startLatitudeMeter, mapData`longitudeMeterStep, mapData`latitudeMeterStep
      modifies elevationLayer`width, elevationLayer`height, elevationLayer`tileSize, elevationLayer`startLongitudeMeter, elevationLayer`startLatitudeMeter,
               elevationLayer`longitudeMeterStep, elevationLayer`latitudeMeterStep, elevationLayer`tiles
      modifies fuelCodeLayer`width, fuelCodeLayer`height, fuelCodeLayer`tileSize, fuelCodeLayer`startLongitudeMeter, fuelCodeLayer`startLatitudeMeter,
               fuelCodeLayer`longitudeMeterStep, fuelCodeLayer`latitudeMeterStep, fuelCodeLayer`tiles
      ensures meterStep == StepFor(old(meterStep)) && mapData.tileSize == old(NewTileSize()) && LayersReady()
      ensures var elevationPoints, fuelPoints := Points(Lines(elevText), parseFloat), Points(Lines(fuelText), parseFloat);
              if xyzAutoDetectBounds && NoPointsDetected(elevationPoints + fuelPoints) then
                (elevationCount, fuelCount, startLongitudeMeter, startLatitudeMeter, mapData.xWidth, mapData.zWidth) ==
                (0, 0, old(startLongitudeMeter), old(startLatitudeMeter), old(mapData.xWidth), old(mapData.zWidth)) &&
                (mapData.xCount, mapData.zCount) == old((mapData.xCount, mapData.zCount)) &&
                (mapData.startLongitudeMeter, mapData.startLatitudeMeter) == old((mapData.startLongitudeMeter, mapData.startLatitudeMeter)) &&
                (mapData.longitudeMeterStep, mapData.latitudeMeterStep) == old((mapData.longitudeMeterStep, mapData.latitudeMeterStep)) &&
                unchanged(elevationLayer, fuelCodeLayer)
              else
                LoadedOnto(SizedGrid(xyzAutoDetectBounds, elevationPoints + fuelPoints, Origin()), elevationPoints, fuelPoints, elevationCount, fuelCount,
                           old(elevationLayer.tiles), old(fuelCodeLayer.tiles))
    {
      PrepareSizing();
      var found, g := SizeGrid(elevText, fuelText, parseFloat);
      if !found {
        return 0, 0;
      }
      MoveOrigin(g, xyzAutoDetectBounds);
      elevationCount, fuelCount := LoadOntoGrid(g, elevText, fuelText, parseFloat);
    }

    /**
     * The grid `InitializeMapFromXYZ` sizes the map with: detected from the
     * coordinate bounds, when there is a valid point, or inferred from the
     * pixel indices measured from the window's origin.
     */
    method SizeGrid(elevText: string, fuelText: string, parseFloat: string -> Option<real>) returns (found: bool, g: Grid)
      requires meterStep > 0
      ensures var ps := Points(Lines(elevText), parseFloat) + Points(Lines(fuelText), parseFloat);
              found == !(xyzAutoDetectBounds && NoPointsDetected(ps)) &&
              (found ==> g == SizedGrid(xyzAutoDetectBounds, ps, Origin()))
    {
      if xyzAutoDetectBounds {
        found, g := DetectGrid(elevText, fuelText, parseFloat);
      } else {
        found := true;
        g := InferGrid(elevText, fuelText, parseFloat);
      }
    }

    /**
     * The first two steps of `InitializeMap` and of `InitializeMapFromXYZ`:
     * a non-positive meter step becomes 1, and the map takes the window's
     * tile size when that is positive.
     */
    method PrepareSizing()
      requires mapData != null
      modifies this`meterStep, mapData`tileSize
      ensures meterStep == StepFor(old(meterStep)) && mapData.tileSize == old(NewTileSize())
    {
      if meterStep <= 0 {
        meterStep := 1;
      }
      mapData.tileSize := if tileSize > 0 then tileSize else mapData.tileSize;
    }

    /**
     * What `InitializeMapFromXYZ` leaves behind once it sized the map with
     * grid `g`: the map and both layers on that grid (the layers' tile size
     * in effect the map's), each layer reading its text's writes over the
     * pixels it had before, and each count the number of writes.
     */
    ghost predicate LoadedOnto(g: Grid, elevationPoints: seq<XYZPoint>, fuelPoints: seq<XYZPoint>,
                               elevationCount: int, fuelCount: int,
                               elevationBefore: map<Coord, Tile>, fuelBefore: map<Coord, Tile>)
      requires g.meterStep > 0 && mapData != null && LayersReady()
      requires TilesFit(elevationBefore, SizeFor(mapData.tileSize)) && TilesFit(fuelBefore, SizeFor(mapData.tileSize))
      reads this, mapData, elevationLayer, fuelCodeLayer
    {
      var n := SizeFor(mapData.tileSize);
      Grid() == g && InMapGrid(elevationLayer) && InMapGrid(fuelCodeLayer) &&
      elevationLayer.Size() == n && fuelCodeLayer.Size() == n &&
      elevationCount == |Writes(elevationPoints, g, true)| && fuelCount == |Writes(fuelPoints, g, false)| &&
      elevationLayer.tiles == WriteAll(elevationBefore, n, elevationLayer.defaultValue, Writes(elevationPoints, g, true)) &&
      fuelCodeLayer.tiles == WriteAll(fuelBefore, n, fuelCodeLayer.defaultValue, Writes(fuelPoints, g, false))
    }

    /**
     * The step of `InitializeMapFromXYZ` between sizing and loading: with
     * detected bounds, the window's origin becomes the grid's.
     */
    method MoveOrigin(g: Grid, detected: bool)
      requires (g.meterStep, g.negativeLatitudeStep) == (meterStep, negativeLatitudeStep)
      requires !detected ==> (g.startLongitudeMeter, g.startLatitudeMeter) == (startLongitudeMeter, startLatitudeMeter)
      modifies this`startLongitudeMeter, this`startLatitudeMeter
      ensures g == Origin().(xWidth := g.xWidth, zWidth := g.zWidth)
    {
      if detected {
        startLongitudeMeter, startLatitudeMeter := g.startLongitudeMeter, g.startLatitudeMeter;
      }
    }

    /** The end of `InitializeMapFromXYZ`: the map initialized to the grid's extent, then both texts parsed. */
    method LoadOntoGrid(g: Grid, elevText: string, fuelText: string, parseFloat: string -> Option<real>)
      returns (elevationCount: int, fuelCount: int)
      requires mapData != null && LayersReady() && meterStep > 0
      requires g == Origin().(xWidth := g.xWidth, zWidth := g.zWidth)
      requires FitsTileSize(elevationLayer, NewTileSize()) && FitsTileSize(fuelCodeLayer, NewTileSize())
      modifies this`meterStep
      modifies mapData`tileSize, mapData`xWidth, mapData`zWidth, mapData`xCount, mapData`zCount,
               mapData`startLongitudeMeter, mapData`startLatitudeMeter, mapData`longitudeMeterStep, mapData`latitudeMeterStep
      modifies elevationLayer`width, elevationLayer`height, elevationLayer`tileSize, elevationLayer`startLongitudeMeter, elevationLayer`startLatitudeMeter,
               elevationLayer`longitudeMeterStep, elevationLayer`latitudeMeterStep, elevationLayer`tiles
      modifies fuelCodeLayer`width, fuelCodeLayer`height, fuelCodeLayer`tileSize, fuelCodeLayer`startLongitudeMeter, fuelCodeLayer`startLatitudeMeter,
               fuelCodeLayer`longitudeMeterStep, fuelCodeLayer`latitudeMeterStep, fuelCodeLayer`tiles
      ensures meterStep == old(meterStep) && mapData.tileSize == old(NewTileSize()) && LayersReady()
      ensures LoadedOnto(g, Points(Lines(elevText), parseFloat), Points(Lines(fuelText), parseFloat), elevationCount, fuelCount,
                         old(elevationLayer.tiles), old(fuelCodeLayer.tiles))
    {
      InitializeMap(g.xWidth, g.zWidth);
      elevationCount, fuelCount := ParseBoth(elevText, fuelText, parseFloat);
    }

    /** The final step of `InitializeMapFromXYZ`: the elevation text, then the fuel text, into their layers. */
    method ParseBoth(elevText: string, fuelText: string, parseFloat: string -> Option<real>)
      returns (elevationCount: int, fuelCount: int)
      requires mapData != null && LayersReady() && meterStep > 0
      modifies elevationLayer`tileSize, elevationLayer`tiles
      modifies fuelCodeLayer`tileSize, fuelCodeLayer`tiles
      ensures LayersReady()
      ensures elevationLayer.tileSize == old(elevationLayer.tileSize) || elevationLayer.tileSize == old(elevationLayer.Size())
      ensures fuelCodeLayer.tileSize == old(fuelCodeLayer.tileSize) || fuelCodeLayer.tileSize == old(fuelCodeLayer.Size())
      ensures elevationLayer.Size() == old(elevationLayer.Size()) && fuelCodeLayer.Size() == old(fuelCodeLayer.Size())
      ensures var elevationWrites := Writes(Points(Lines(elevText), parseFloat), Grid(), true);
              elevationCount == |elevationWrites| &&
              elevationLayer.tiles == WriteAll(old(elevationLayer.tiles), elevationLayer.Size(), elevationLayer.defaultValue, elevationWrites)
      ensures var fuelWrites := Writes(Points(Lines(fuelText), parseFloat), Grid(), false);
              fuelCount == |fuelWrites| &&
              fuelCodeLayer.tiles == WriteAll(old(fuelCodeLayer.tiles), fuelCodeLayer.Size(), fuelCodeLayer.defaultValue, fuelWrites)
    {
      elevationCount := ParseXYZIntoLayer(elevText, true, parseFloat);
      fuelCount := ParseXYZIntoLayer(fuelText, false, parseFloat);
    }

    /**
     * `ParseXYZIntoLayer`: writes every accepted line whose pixel lies in
     * the map's grid into the elevation or the fuel layer, and returns how
     * many it wrote. The layer then reads those writes over its old values;
     * the other layer is untouched.
     */
    method ParseXYZIntoLayer(text: string, isElevation: bool, parseFloat: string -> Option<real>) returns (count: int)
      requires mapData != null && LayersReady() && meterStep > 0
      modifies Target(isElevation)`tileSize, Target(isElevation)`tiles
      ensures LayersReady()
      ensures var layer := Target(isElevation);
              layer.Extends() && layer.Size() == old(layer.Size()) &&
              (layer.tileSize == old(layer.tileSize) || layer.tileSize == old(layer.Size()))
      ensures var layer, writes := Target(isElevation), Writes(Points(Lines(text), parseFloat), Grid(), isElevation);
              count == |writes| && layer.tiles == WriteAll(old(layer.tiles), layer.Size(), layer.defaultValue, writes)
    {
      count := WriteLines(Target(isElevation), Lines(text), Grid(), isElevation, parseFloat);
    }

    /** The distance `ColorDistance` measures under the window's mode; `toHsv` is the engine's `Color.RGBToHSV`. */
    function DistanceMetric(toHsv: Color -> FuelPalette.HsvColor): FuelPalette.Metric
      reads this`colorDistanceMode
    {
      FuelPalette.Metric(colorDistanceMode, toHsv)
    }

    /** `MatchFuelCode` under the window's settings, as a conversion of fuel pixels. */
    function Matcher(palette: seq<FuelPalette.PaletteEntry>, toHsv: Color -> FuelPalette.HsvColor): Color32 -> Int16
      reads this`colorDistanceMode, this`alphaIgnoreThreshold, this`defaultFuelCode
    {
      FuelPalette.FuelOf(palette, DistanceMetric(toHsv), alphaIgnoreThreshold, defaultFuelCode)
    }

    /**
     * `MatchFuelCode`: an ignored pixel or an empty palette gets the default
     * code; a cached colour gets its cached code; otherwise the palette is
     * scanned for the first nearest entry and its code is cached under the
     * pixel's packed key. The cache only ever holds what the scan gives.
     */
    method MatchFuelCode(color: Color32, palette: seq<FuelPalette.PaletteEntry>, cache: map<int, Int16>,
                         toHsv: Color -> FuelPalette.HsvColor)
      returns (code: Int16, cache': map<int, Int16>)
      requires FuelPalette.CacheSound(cache, palette, DistanceMetric(toHsv), defaultFuelCode)
      ensures code == FuelPalette.MatchedCode(color, palette, DistanceMetric(toHsv), alphaIgnoreThreshold, defaultFuelCode)
      ensures FuelPalette.CacheSound(cache', palette, DistanceMetric(toHsv), defaultFuelCode)
      ensures cache' == cache || cache' == cache[FuelPalette.PackKey(color) := code]
    {
      if color.a as real <= alphaIgnoreThreshold || |palette| == 0 {
        return defaultFuelCode, cache;
      }
      var key := FuelPalette.PackKey(color);
      if key in cache {
        return cache[key], cache;
      }
      var m := DistanceMetric(toHsv);
      var c := FuelPalette.Normalized(color);
      var best := Mathf.FloatMax;
      var bestCode := defaultFuelCode;
      for i := 0 to |palette|
        invariant (best, bestCode) == FuelPalette.Scan(palette[..i], FuelPalette.DistanceTo(m, c), defaultFuelCode)
      {
        var d := FuelPalette.ColorDistance(m, c, palette[i].color);
        assert palette[..i + 1][..i] == palette[..i];
        if d < best {
          best := d;
          bestCode := palette[i].code;
        }
      }
      assert palette[..|palette|] == palette;
      FuelPalette.CacheStore(cache, palette, m, defaultFuelCode, color);
      code, cache' := bestCode, cache[key := bestCode];
    }

    /**
     * `BuildFuelPalette`: one entry per present fuel code of the set, in list
     * order, with the code's family-adjusted colour; no set gives an empty
     * palette. `adjust` stands for `GetFamilyAdjustedColor`.
     */
    method BuildFuelPalette(fuels: FuelCodeSet?, adjust: (Color, real, real) -> Color)
      returns (palette: seq<FuelPalette.PaletteEntry>)
      ensures palette == if fuels == null then [] else FuelPalette.PaletteOf(fuels.fuelCodes, adjust)
    {
      palette := [];
      if fuels == null {
        return;
      }
      var codes := fuels.fuelCodes;
      for i := 0 to |codes|
        invariant palette == FuelPalette.PaletteOf(codes[..i], adjust)
      {
        assert codes[..i + 1][..i] == codes[..i];
        var fuel := codes[i];
        if fuel == null {
          continue;
        }
        palette := palette + [FuelPalette.PaletteEntry(fuel.fuelCodeID, adjust(fuel.baseColor, fuel.familyBrightness, fuel.familySaturation))];
      }
      assert codes[..|codes|] == codes;
    }

    /**
     * The fuel loop of `ImportRaster`: every pixel, row by row, is matched
     * to a fuel code and written to its map pixel, sharing one cache.
     */
    method WriteFuelImage(layer: RasterLayer, pixels: seq<Color32>, width: nat, height: nat, flip: bool,
                          palette: seq<FuelPalette.PaletteEntry>, cache: map<int, Int16>, toHsv: Color -> FuelPalette.HsvColor)
      returns (cache': map<int, Int16>)
      requires layer.Valid() && RasterImage.IsImage(pixels, width, height)
      requires FuelPalette.CacheSound(cache, palette, DistanceMetric(toHsv), defaultFuelCode)
      modifies layer`tileSize, layer`tiles
      ensures layer.Valid() && layer.Size() == old(layer.Size())
      ensures layer.tileSize == old(layer.tileSize) || layer.tileSize == old(layer.Size())
      ensures FuelPalette.CacheSound(cache', palette, DistanceMetric(toHsv), defaultFuelCode)
      ensures layer.tiles == WriteAll(old(layer.tiles), layer.Size(), layer.defaultValue,
                                      RasterImage.ImageCells(pixels, width, height, flip, Matcher(palette, toHsv), height))
    {
      ghost var f := Matcher(palette, toHsv);
      cache' := cache;
      for y := 0 to height
        invariant layer.Valid() && layer.Size() == old(layer.Size())
        invariant layer.tileSize == old(layer.tileSize) || layer.tileSize == old(layer.Size())
        invariant FuelPalette.CacheSound(cache', palette, DistanceMetric(toHsv), defaultFuelCode)
        invariant layer.tiles == WriteAll(old(layer.tiles), layer.Size(), layer.defaultValue,
                                          RasterImage.ImageCells(pixels, width, height, flip, f, y))
      {
        RasterImage.ImageCellsNext(pixels, width, height, flip, f, y);
        var z := if flip then height - 1 - y else y;
        var first := y * width;
        ghost var done := RasterImage.ImageCells(pixels, width, height, flip, f, y);
        cache' := WriteFuelRow(layer, pixels, first, width, z, palette, cache', toHsv);
        WriteAllConcat(old(layer.tiles), layer.Size(), layer.defaultValue, done,
                       RasterImage.RowCells(RasterImage.RowValues(pixels, first, width, f), z));
      }
    }

    /** The palette `BuildFuelPalette` makes of the window's fuel-code set. */
    function Palette(adjust: (Color, real, real) -> Color): seq<FuelPalette.PaletteEntry>
      reads this`fuelCodeSet, fuelCodeSet, if fuelCodeSet == null then [] else fuelCodeSet.fuelCodes
    {
      if fuelCodeSet == null then [] else FuelPalette.PaletteOf(fuelCodeSet.fuelCodes, adjust)
    }

    /**
     * `ImportRaster`. Textures of different sizes change nothing. Otherwise
     * the map is initialized to the textures' size; an empty elevation range
     * stops there. Otherwise the elevation texture is written into the
     * elevation layer and the fuel texture, matched against the palette,
     * into the fuel layer, each row going to its map row.
     */
    method ImportRaster(elevationTexture: RasterImage.ElevationTexture, fuelTexture: RasterImage.Texture<Color32>,
                        adjust: (Color, real, real) -> Color, toHsv: Color -> FuelPalette.HsvColor)
      returns (outcome: RasterOutcome)
      requires mapData != null && LayersReady()
      requires FitsTileSize(elevationLayer, NewTileSize()) && FitsTileSize(fuelCodeLayer, NewTileSize())
      requires elevationTexture.WellFormed() && fuelTexture.WellFormed()
      modifies this`meterStep
      modifies mapData`tileSize, mapData`xWidth, mapData`zWidth, mapData`xCount, mapData`zCount,
               mapData`startLongitudeMeter, mapData`startLatitudeMeter, mapData`longitudeMeterStep, mapData`latitudeMeterStep
      modifies elevationLayer`width, elevationLayer`height, elevationLayer`tileSize, elevationLayer`startLongitudeMeter, elevationLayer`startLatitudeMeter,
               elevationLayer`longitudeMeterStep, elevationLayer`latitudeMeterStep, elevationLayer`tiles
      modifies fuelCodeLayer`width, fuelCodeLayer`height, fuelCodeLayer`tileSize, fuelCodeLayer`startLongitudeMeter, fuelCodeLayer`startLatitudeMeter,
               fuelCodeLayer`longitudeMeterStep, fuelCodeLayer`latitudeMeterStep, fuelCodeLayer`tiles
      ensures LayersReady()
      ensures TilesFit(old(elevationLayer.tiles), elevationLayer.Size()) && TilesFit(old(fuelCodeLayer.tiles), fuelCodeLayer.Size())
      ensures (fuelTexture.width, fuelTexture.height) != (elevationTexture.Width(), elevationTexture.Height()) ==>
                outcome == SizeMismatch && unchanged(this, mapData, elevationLayer, fuelCodeLayer)
      ensures (fuelTexture.width, fuelTexture.height) == (elevationTexture.Width(), elevationTexture.Height()) ==>
                ImportedAs(fuelTexture.width, fuelTexture.height, old(NewTileSize()), outcome) &&
                Outcome(elevationTexture, fuelTexture, adjust, toHsv, old(elevationLayer.tiles), old(fuelCodeLayer.tiles), outcome)
    {
      var width, height := elevationTexture.Width(), elevationTexture.Height();
      if fuelTexture.width != width || fuelTexture.height != height {
        return SizeMismatch;
      }
      outcome := ImportSized(elevationTexture, fuelTexture, adjust, toHsv);
    }

    /** The map took the textures' extent and the new tile size, and the outcome follows the elevation range. */
    ghost predicate ImportedAs(width: int, height: int, newTileSize: int, outcome: RasterOutcome)
      requires mapData != null
      reads this, mapData
    {
      mapData.xWidth == width && mapData.zWidth == height && mapData.tileSize == newTileSize &&
      (outcome == InvalidElevationRange <==> elevationMax <= elevationMin) &&
      (outcome == InvalidElevationRange || outcome == Imported)
    }

    /**
     * What the layers hold after the import from `elevationTiles` and
     * `fuelTiles`: unchanged after the range dialog; otherwise the writes of
     * the two image loops.
     */
    ghost predicate Outcome(elevationTexture: RasterImage.ElevationTexture, fuelTexture: RasterImage.Texture<Color32>,
                            adjust: (Color, real, real) -> Color, toHsv: Color -> FuelPalette.HsvColor,
                            elevationTiles: map<Coord, Tile>, fuelTiles: map<Coord, Tile>, outcome: RasterOutcome)
      requires LayersReady() && elevationTexture.WellFormed() && fuelTexture.WellFormed()
      requires TilesFit(elevationTiles, elevationLayer.Size()) && TilesFit(fuelTiles, fuelCodeLayer.Size())
      reads this, elevationLayer, fuelCodeLayer, fuelCodeSet, if fuelCodeSet == null then [] else fuelCodeSet.fuelCodes
    {
      (outcome == InvalidElevationRange ==> elevationLayer.tiles == elevationTiles && fuelCodeLayer.tiles == fuelTiles) &&
      (outcome == Imported ==>
         elevationLayer.tiles == WriteAll(elevationTiles, elevationLayer.Size(), elevationLayer.defaultValue,
                                          RasterImage.ElevationCells(elevationTexture, flipVertical, elevationScale, elevationOffset,
                                                                     elevationMin, elevationMax)) &&
         fuelCodeLayer.tiles == WriteAll(fuelTiles, fuelCodeLayer.Size(), fuelCodeLayer.defaultValue,
                                         RasterImage.ImageCells(fuelTexture.pixels, fuelTexture.width, fuelTexture.height, flipVertical,
                                                                Matcher(Palette(adjust), toHsv), fuelTexture.height)))
    }

    /** `ImportRaster` once the textures' sizes agree: the map initialized, then the range check, then the images. */
    method ImportSized(elevationTexture: RasterImage.ElevationTexture, fuelTexture: RasterImage.Texture<Color32>,
                       adjust: (Color, real, real) -> Color, toHsv: Color -> FuelPalette.HsvColor)
      returns (outcome: RasterOutcome)
      requires mapData != null && LayersReady()
      requires FitsTileSize(elevationLayer, NewTileSize()) && FitsTileSize(fuelCodeLayer, NewTileSize())
      requires elevationTexture.WellFormed() && fuelTexture.WellFormed()
      requires (fuelTexture.width, fuelTexture.height) == (elevationTexture.Width(), elevationTexture.Height())
      modifies this`meterStep
      modifies mapData`tileSize, mapData`xWidth, mapData`zWidth, mapData`xCount, mapData`zCount,
               mapData`startLongitudeMeter, mapData`startLatitudeMeter, mapData`longitudeMeterStep, mapData`latitudeMeterStep
      modifies elevationLayer`width, elevationLayer`height, elevationLayer`tileSize, elevationLayer`startLongitudeMeter, elevationLayer`startLatitudeMeter,
               elevationLayer`longitudeMeterStep, elevationLayer`latitudeMeterStep, elevationLayer`tiles
      modifies fuelCodeLayer`width, fuelCodeLayer`height, fuelCodeLayer`tileSize, fuelCodeLayer`startLongitudeMeter, fuelCodeLayer`startLatitudeMeter,
               fuelCodeLayer`longitudeMeterStep, fuelCodeLayer`latitudeMeterStep, fuelCodeLayer`tiles
      ensures LayersReady()
      ensures TilesFit(old(elevationLayer.tiles), elevationLayer.Size()) && TilesFit(old(fuelCodeLayer.tiles), fuelCodeLayer.Size())
      ensures ImportedAs(fuelTexture.width, fuelTexture.height, old(NewTileSize()), outcome)
      ensures Outcome(elevationTexture, fuelTexture, adjust, toHsv, old(elevationLayer.tiles), old(fuelCodeLayer.tiles), outcome)
    {
      InitializeMap(fuelTexture.width, fuelTexture.height);
      outcome := ImportInRange(elevationTexture, fuelTexture, adjust, toHsv);
    }

    /** The rest of `ImportRaster` on the initialized map: the range check, then the images. */
    method ImportInRange(elevationTexture: RasterImage.ElevationTexture, fuelTexture: RasterImage.Texture<Color32>,
                         adjust: (Color, real, real) -> Color, toHsv: Color -> FuelPalette.HsvColor)
      returns (outcome: RasterOutcome)
      requires LayersReady() && elevationTexture.WellFormed() && fuelTexture.WellFormed()
      requires (fuelTexture.width, fuelTexture.height) == (elevationTexture.Width(), elevationTexture.Height())
      modifies elevationLayer`tileSize, elevationLayer`tiles, fuelCodeLayer`tileSize, fuelCodeLayer`tiles
      ensures LayersReady()
      ensures elevationLayer.Size() == old(elevationLayer.Size()) && fuelCodeLayer.Size() == old(fuelCodeLayer.Size())
      ensures (outcome == InvalidElevationRange <==> elevationMax <= elevationMin) && (outcome == InvalidElevationRange || outcome == Imported)
      ensures Outcome(elevationTexture, fuelTexture, adjust, toHsv, old(elevationLayer.tiles), old(fuelCodeLayer.tiles), outcome)
    {
      if elevationMax <= elevationMin {
        return InvalidElevationRange;
      }
      ImportImages(elevationTexture, fuelTexture, adjust, toHsv);
      outcome := Imported;
    }

    /** The two image loops of `ImportRaster`, after the map is initialized. */
    method ImportImages(elevationTexture: RasterImage.ElevationTexture, fuelTexture: RasterImage.Texture<Color32>,
                        adjust: (Color, real, real) -> Color, toHsv: Color -> FuelPalette.HsvColor)
      requires LayersReady() && elevationTexture.WellFormed() && fuelTexture.WellFormed()
      requires (fuelTexture.width, fuelTexture.height) == (elevationTexture.Width(), elevationTexture.Height())
      modifies elevationLayer`tileSize, elevationLayer`tiles, fuelCodeLayer`tileSize, fuelCodeLayer`tiles
      ensures LayersReady()
      ensures elevationLayer.Size() == old(elevationLayer.Size()) && fuelCodeLayer.Size() == old(fuelCodeLayer.Size())
      ensures elevationLayer.tileSize == old(elevationLayer.tileSize) || elevationLayer.tileSize == old(elevationLayer.Size())
      ensures fuelCodeLayer.tileSize == old(fuelCodeLayer.tileSize) || fuelCodeLayer.tileSize == old(fuelCodeLayer.Size())
      ensures elevationLayer.tiles == WriteAll(old(elevationLayer.tiles), elevationLayer.Size(), elevationLayer.defaultValue,
                                               RasterImage.ElevationCells(elevationTexture, flipVertical, elevationScale, elevationOffset,
                                                                          elevationMin, elevationMax))
      ensures fuelCodeLayer.tiles == WriteAll(old(fuelCodeLayer.tiles), fuelCodeLayer.Size(), fuelCodeLayer.defaultValue,
                                              RasterImage.ImageCells(fuelTexture.pixels, fuelTexture.width, fuelTexture.height, flipVertical,
                                                                     Matcher(Palette(adjust), toHsv), fuelTexture.height))
    {
      RasterImage.WriteElevationImage(elevationLayer, elevationTexture, flipVertical, elevationScale, elevationOffset, elevationMin, elevationMax);
      var palette := BuildFuelPalette(fuelCodeSet, adjust);
      var cache := WriteFuelImage(fuelCodeLayer, fuelTexture.pixels, fuelTexture.width, fuelTexture.height, flipVertical,
                                  palette, map[], toHsv);
    }

    /** One row of the fuel loop: the `width` pixels from `first` on, matched, into map row `z`, left to right. */
    method WriteFuelRow(layer: RasterLayer, pixels: seq<Color32>, first: nat, width: nat, z: int,
                        palette: seq<FuelPalette.PaletteEntry>, cache: map<int, Int16>, toHsv: Color -> FuelPalette.HsvColor)
      returns (cache': map<int, Int16>)
      requires layer.Valid() && first + width <= |pixels|
      requires FuelPalette.CacheSound(cache, palette, DistanceMetric(toHsv), defaultFuelCode)
      modifies layer`tileSize, layer`tiles
      ensures layer.Valid() && layer.Size() == old(layer.Size())
      ensures layer.tileSize == old(layer.tileSize) || layer.tileSize == old(layer.Size())
      ensures FuelPalette.CacheSound(cache', palette, DistanceMetric(toHsv), defaultFuelCode)
      ensures layer.tiles == WriteAll(old(layer.tiles), layer.Size(), layer.defaultValue,
                                      RasterImage.RowCells(RasterImage.RowValues(pixels, first, width, Matcher(palette, toHsv)), z))
    {
      ghost var f := Matcher(palette, toHsv);
      cache' := cache;
      for x := 0 to width
        invariant layer.Valid() && layer.Size() == old(layer.Size())
        invariant layer.tileSize == old(layer.tileSize) || layer.tileSize == old(layer.Size())
        invariant FuelPalette.CacheSound(cache', palette, DistanceMetric(toHsv), defaultFuelCode)
        invariant layer.tiles == WriteAll(old(layer.tiles), layer.Size(), layer.defaultValue,
                                          RasterImage.RowCells(RasterImage.RowValues(pixels, first, x, f), z))
      {
        var code;
        code, cache' := MatchFuelCode(pixels[first + x], palette, cache', toHsv);
        RasterImage.RowCellsNext(pixels, first, x, f, z);
        WriteAllAppend(old(layer.tiles), layer.Size(), layer.defaultValue,
                       RasterImage.RowCells(RasterImage.RowValues(pixels, first, x, f), z), Cell(x, z, code));
        layer.SetData(x, z, code);
      }
    }
  }

  /**
   * `InitializeMap`'s field copies into both layers. Each stays well formed
   * exactly when it can take the tile size, and then keeps its tiles and
   * reads as before.
   */
  method PointLayers(elevation: RasterLayer, fuel: RasterLayer, width: int, height: int, tileSize: int,
                     startLongitudeMeter: int, startLatitudeMeter: int, longitudeMeterStep: int, latitudeMeterStep: int)
    requires elevation != fuel && elevation.Valid() && fuel.Valid()
    modifies elevation`width, elevation`height, elevation`tileSize, elevation`startLongitudeMeter,
             elevation`startLatitudeMeter, elevation`longitudeMeterStep, elevation`latitudeMeterStep
    modifies fuel`width, fuel`height, fuel`tileSize, fuel`startLongitudeMeter,
             fuel`startLatitudeMeter, fuel`longitudeMeterStep, fuel`latitudeMeterStep
    ensures GisParser.LayerTakesGrid(elevation, width, height, startLongitudeMeter, startLatitudeMeter, longitudeMeterStep, latitudeMeterStep)
    ensures GisParser.LayerTakesGrid(fuel, width, height, startLongitudeMeter, startLatitudeMeter, longitudeMeterStep, latitudeMeterStep)
    ensures elevation.tileSize == tileSize && fuel.tileSize == tileSize
    ensures elevation.tiles == old(elevation.tiles) && fuel.tiles == old(fuel.tiles)
    ensures elevation.Valid() <==> old(FitsTileSize(elevation, tileSize))
    ensures fuel.Valid() <==> old(FitsTileSize(fuel, tileSize))
    ensures elevation.Valid() ==> forall x', z' :: elevation.ValueAt(x', z') == old(elevation.ValueAt(x', z'))
    ensures fuel.Valid() ==> forall x', z' :: fuel.ValueAt(x', z') == old(fuel.ValueAt(x', z'))
  {
    PointLayer(elevation, width, height, tileSize, startLongitudeMeter, startLatitudeMeter, longitudeMeterStep, latitudeMeterStep);
    label pointed:
    PointLayer(fuel, width, height, tileSize, startLongitudeMeter, startLatitudeMeter, longitudeMeterStep, latitudeMeterStep);
    assert elevation.Valid() ==> forall x', z' :: elevation.ValueAt(x', z') == old@pointed(elevation.ValueAt(x', z'));
  }

  /**
   * The field copies `InitializeMap` makes into one layer: its extent,
   * tile size, origin and steps. The tiles stay; the layer stays well formed
   * exactly when it can take the tile size, and then every pixel stays too.
   */
  method PointLayer(layer: RasterLayer, width: int, height: int, tileSize: int,
                    startLongitudeMeter: int, startLatitudeMeter: int, longitudeMeterStep: int, latitudeMeterStep: int)
    requires layer.Valid()
    modifies layer`width, layer`height, layer`tileSize, layer`startLongitudeMeter, layer`startLatitudeMeter,
             layer`longitudeMeterStep, layer`latitudeMeterStep
    ensures GisParser.LayerTakesGrid(layer, width, height, startLongitudeMeter, startLatitudeMeter, longitudeMeterStep, latitudeMeterStep)
    ensures layer.tileSize == tileSize && layer.tiles == old(layer.tiles)
    ensures layer.Valid() <==> old(FitsTileSize(layer, tileSize))
    ensures layer.Valid() ==> forall x', z' :: layer.ValueAt(x', z') == old(layer.ValueAt(x', z'))
  {
    layer.TakeGrid(width, height, startLongitudeMeter, startLatitudeMeter, longitudeMeterStep, latitudeMeterStep);
    layer.SetTileSize(tileSize);
  }

  /**
   * The loop of the window's `ParseXYZIntoLayer` over one layer: blank and
   * unparsable lines are skipped, the value is rounded and wrapped to 16 bits,
   * the pixel is found with C#'s truncating division, pixels outside the grid
   * are skipped, and each write goes through `SetData` and is counted.
   */
  method WriteLines(layer: RasterLayer, lines: seq<string>, g: Grid, isElevation: bool, parseFloat: string -> Option<real>)
    returns (count: int)
    requires layer.Valid() && g.meterStep > 0
    modifies layer`tileSize, layer`tiles
    ensures layer.Valid() && layer.Extends() && layer.Size() == old(layer.Size())
    ensures layer.tileSize == old(layer.tileSize) || layer.tileSize == old(layer.Size())
    ensures var ws := Writes(Points(lines, parseFloat), g, isElevation);
            count == |ws| && layer.tiles == WriteAll(old(layer.tiles), layer.Size(), layer.defaultValue, ws)
  {
    count := 0;
    ghost var writes: seq<Cell> := [];
    for i := 0 to |lines|
      invariant layer.Size() == old(layer.Size())
      invariant layer.tileSize == old(layer.tileSize) || layer.tileSize == old(layer.Size())
      invariant writes == Writes(Points(lines[..i], parseFloat), g, isElevation) && count == |writes|
      invariant layer.tiles == WriteAll(old(layer.tiles), layer.Size(), layer.defaultValue, writes)
    {
      LineWritesNext(lines, i, g, isElevation, parseFloat);
      var written := WriteLine(layer, lines[i], g, isElevation, parseFloat);
      if written {
        ghost var c := LineWrite(lines[i], g, isElevation, parseFloat).value;
        WriteAllAppend(old(layer.tiles), layer.Size(), layer.defaultValue, writes, c);
        writes := writes + [c];
        count := count + 1;
      }
    }
    assert lines[..|lines|] == lines;
  }

  /**
   * One line of the window's `ParseXYZIntoLayer`: a blank or unparsable line
   * is skipped; otherwise the value is rounded and wrapped to 16 bits, the
   * pixel is found with C#'s truncating division, and, when the pixel lies
   * in the grid, it is written through `SetData`. Nothing else changes.
   */
  method WriteLine(layer: RasterLayer, line: string, g: Grid, isElevation: bool, parseFloat: string -> Option<real>)
    returns (written: bool)
    requires layer.Valid() && g.meterStep > 0
    modifies layer`tileSize, layer`tiles
    ensures layer.Valid() && layer.Extends() && layer.Size() == old(layer.Size())
    ensures layer.tileSize == old(layer.tileSize) || layer.tileSize == old(layer.Size())
    ensures var c := LineWrite(line, g, isElevation, parseFloat);
            written == c.Some? &&
            layer.tiles == if c.Some? then Write(old(layer.tiles), layer.Size(), layer.defaultValue, c.value.x, c.value.z, c.value.value)
                           else old(layer.tiles)
  {
    if IsBlank(line) {
      return false;
    }
    var ok, xMeter, zMeter, value := TryParseXYZLine(line, parseFloat);
    if !ok {
      return false;
    }
    var shortValue := RoundToShort(value);
    var pixel := PixelOf(g, xMeter, zMeter).value;
    var x, z := pixel.x, pixel.z;
    if x < 0 || z < 0 || x >= g.xWidth || z >= g.zWidth {
      return false;
    }
    assert LineWrite(line, g, isElevation, parseFloat) == Some(Cell(x, z, StoredValue(shortValue, isElevation)));
    layer.SetData(x, z, StoredValue(shortValue, isElevation));
    written := true;
  }
}
