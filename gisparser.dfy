/**
 * `GISDataParser`: reads an elevation XYZ text and a fuel XYZ text into the
 * two layers of a map whose grid is given by columns, rows, a top-left corner
 * in metres and a cell size. Lines are split with `String.Split`; a field
 * that does not parse throws, which ends the whole parse (earlier writes
 * stay).
 */
module GisParser {
  import opened Wrappers
  import opened Numeric
  import opened GeoTransform
  import opened Text
  import opened XyzText
  import opened Raster
  import opened MapStore

  /** What one line does: nothing, one pixel write, or an exception. */
  datatype Step = Skip | Write(cell: Cell) | Fail

  /**
   * One line of `ParseXYZIntoLayer`: blank lines and lines with fewer than
   * three fields are skipped; a first or second field that is no 32-bit
   * integer, a third field that is no float or does not round into 16 bits,
   * or a division that throws is an exception; a pixel outside the grid is
   * skipped.
   */
  function ParserStep(line: string, g: Grid, isElevation: bool, parseFloat: string -> Option<real>): Step {
    if IsBlank(line) then Skip
    else
      var parts := Split(line);
      if |parts| < 3 then Skip
      else
        match (TryParseInt32(parts[0]), TryParseInt32(parts[1]), parseFloat(parts[2]))
        case (Some(xMeter), Some(zMeter), Some(v)) =>
          (match (ConvertToInt16(v), PixelOf(g, xMeter, zMeter))
           case (Some(value), Some(c)) =>
             if InGrid(g, c) then Write(Cell(c.x, c.z, StoredValue(value, isElevation))) else Skip
           case _ => Fail)
        case _ => Fail
  }

  /** The writes of the lines, in order, and whether a line threw (after which no line runs). */
  datatype Run = Run(writes: seq<Cell>, failed: bool)

  ghost function RunLines(lines: seq<string>, g: Grid, isElevation: bool, parseFloat: string -> Option<real>): Run {
    if lines == [] then Run([], false)
    else
      var r := RunLines(lines[..|lines| - 1], g, isElevation, parseFloat);
      if r.failed then r
      else
        match ParserStep(lines[|lines| - 1], g, isElevation, parseFloat)
        case Skip => r
        case Write(c) => Run(r.writes + [c], false)
        case Fail => Run(r.writes, true)
  }

  /** One more line of a run that has not thrown: skipped, appended, or the end of the run. */
  lemma RunNext(lines: seq<string>, i: nat, g: Grid, isElevation: bool, parseFloat: string -> Option<real>)
    requires i < |lines| && !RunLines(lines[..i], g, isElevation, parseFloat).failed
    ensures var r := RunLines(lines[..i], g, isElevation, parseFloat);
            var step := ParserStep(lines[i], g, isElevation, parseFloat);
            RunLines(lines[..i + 1], g, isElevation, parseFloat) ==
              match step
              case Skip => r
              case Write(c) => Run(r.writes + [c], false)
              case Fail => Run(r.writes, true)
  {
    assert lines[..i + 1][..i] == lines[..i];
  }

  /** Once a line has thrown, the lines after it change nothing. */
  lemma {:induction false} FailureEndsRun(lines: seq<string>, k: nat, g: Grid, isElevation: bool, parseFloat: string -> Option<real>)
    requires k <= |lines| && RunLines(lines[..k], g, isElevation, parseFloat).failed
    ensures RunLines(lines, g, isElevation, parseFloat) == RunLines(lines[..k], g, isElevation, parseFloat)
    decreases |lines| - k
  {
    if k < |lines| {
      assert lines[..k + 1][..k] == lines[..k];
      FailureEndsRun(lines, k + 1, g, isElevation, parseFloat);
    } else {
      assert lines[..k] == lines;
    }
  }

  /**
   * A line that throws (a malformed coordinate, say) aborts the whole parse:
   * the run fails, and its writes are exactly those of the lines before it.
   */
  lemma MalformedLineAborts(lines: seq<string>, i: nat, g: Grid, isElevation: bool, parseFloat: string -> Option<real>)
    requires i < |lines| && !RunLines(lines[..i], g, isElevation, parseFloat).failed
    requires ParserStep(lines[i], g, isElevation, parseFloat) == Fail
    ensures RunLines(lines, g, isElevation, parseFloat) == Run(RunLines(lines[..i], g, isElevation, parseFloat).writes, true)
  {
    RunNext(lines, i, g, isElevation, parseFloat);
    FailureEndsRun(lines, i + 1, g, isElevation, parseFloat);
  }

  /** Fields past the third are ignored: two lines that agree on their first three fields take the same step. */
  lemma ExtraPartsIgnored(a: string, b: string, g: Grid, isElevation: bool, parseFloat: string -> Option<real>)
    requires !IsBlank(a) && !IsBlank(b) && |Split(a)| >= 3 && |Split(b)| >= 3
    requires Split(a)[..3] == Split(b)[..3]
    ensures ParserStep(a, g, isElevation, parseFloat) == ParserStep(b, g, isElevation, parseFloat)
  {
    assert forall k :: 0 <= k < 3 ==> Split(a)[k] == Split(a)[..3][k] == Split(b)[k];
  }

  /** Every write lands inside the grid, and elevation writes are never negative. */
  lemma {:induction false} RunWritesInGrid(lines: seq<string>, g: Grid, isElevation: bool, parseFloat: string -> Option<real>)
    ensures var ws := RunLines(lines, g, isElevation, parseFloat).writes;
            |ws| <= |lines| &&
            forall i :: 0 <= i < |ws| ==> InGrid(g, Coord(ws[i].x, ws[i].z)) && (isElevation ==> ws[i].value >= 0)
  {
    if lines != [] {
      RunWritesInGrid(lines[..|lines| - 1], g, isElevation, parseFloat);
    }
  }

  /** How `ParseXYZ` ended. */
  datatype Outcome = NotStarted | Completed | Aborted

  class GISDataParser {
    var elevationXYZ: Option<string>
    var fuelXYZ: Option<string>
    var mapData: MapData?
    var elevationLayer: RasterLayer?
    var fuelCodeLayer: RasterLayer?
    var numColumns: int
    var numRows: int
    var latitudeTopMeters: int
    var longitudeLeftMeters: int
    var meterStep: int

    constructor ()
      ensures elevationXYZ == None && fuelXYZ == None
      ensures mapData == null && elevationLayer == null && fuelCodeLayer == null
      ensures numColumns == 0 && numRows == 0 && latitudeTopMeters == 0 && longitudeLeftMeters == 0
      ensures meterStep == DefaultMeterStep
    {
      elevationXYZ, fuelXYZ := None, None;
      mapData, elevationLayer, fuelCodeLayer := null, null, null;
      numColumns, numRows, latitudeTopMeters, longitudeLeftMeters := 0, 0, 0, 0;
      meterStep := DefaultMeterStep;
    }

    /** The grid of the parser's parameters: rows run down from the top edge. */
    function Grid(): Grid
      reads this
    {
      XyzText.Grid(longitudeLeftMeters, latitudeTopMeters, meterStep, true, numColumns, numRows)
    }

    /** The layer a parse writes into. */
    function Target(isElevation: bool): RasterLayer?
      reads this
    {
      if isElevation then elevationLayer else fuelCodeLayer
    }

    /** The two target layers: present, distinct and well formed. */
    ghost predicate LayersReady()
      reads this, elevationLayer, fuelCodeLayer
    {
      elevationLayer != null && fuelCodeLayer != null && elevationLayer != fuelCodeLayer &&
      elevationLayer.Valid() && fuelCodeLayer.Valid()
    }

    /** Both layers can be told apart and written: each is well formed. */
    ghost predicate LayersWritable()
      reads this, elevationLayer, fuelCodeLayer
    {
      elevationLayer != null && fuelCodeLayer != null ==> LayersReady()
    }

    /**
     * `ParseXYZ`: without the map, either layer or either text nothing
     * happens; otherwise `ParseAsync` runs.
     */
    method ParseXYZ(parseFloat: string -> Option<real>) returns (outcome: Outcome)
      requires LayersWritable()
      modifies mapData
      modifies if elevationLayer == null then {} else {elevationLayer}
      modifies if fuelCodeLayer == null then {} else {fuelCodeLayer}
      ensures outcome == NotStarted <==>
                mapData == null || elevationLayer == null || fuelCodeLayer == null ||
                elevationXYZ.None? || fuelXYZ.None?
      ensures outcome == NotStarted ==>
                (mapData != null ==> unchanged(mapData)) &&
                (elevationLayer != null ==> unchanged(elevationLayer)) &&
                (fuelCodeLayer != null ==> unchanged(fuelCodeLayer))
      ensures outcome != NotStarted ==>
                mapData != null && LayersReady() && elevationXYZ.Some? && fuelXYZ.Some? &&
                ParsedInto(elevationXYZ.value, fuelXYZ.value, parseFloat, outcome)
    {
      if mapData == null || elevationLayer == null || fuelCodeLayer == null {
        return NotStarted;
      }
      if elevationXYZ.None? || fuelXYZ.None? {
        return NotStarted;
      }
      outcome := ParseAsync(elevationXYZ.value, fuelXYZ.value, parseFloat);
    }

    /**
     * The map and both layers carry the parser's grid: rows run down, so the
     * latitude step is the negated cell size (in 32-bit arithmetic), and the
     * map's tile counts cover its extent.
     */
    predicate GridTaken()
      requires mapData != null && elevationLayer != null && fuelCodeLayer != null
      reads this, mapData
      reads elevationLayer`width, elevationLayer`height, elevationLayer`startLongitudeMeter,
            elevationLayer`startLatitudeMeter, elevationLayer`longitudeMeterStep, elevationLayer`latitudeMeterStep
      reads fuelCodeLayer`width, fuelCodeLayer`height, fuelCodeLayer`startLongitudeMeter,
            fuelCodeLayer`startLatitudeMeter, fuelCodeLayer`longitudeMeterStep, fuelCodeLayer`latitudeMeterStep
    {
      var latitudeStep := Wrap32(-meterStep);
      mapData.xWidth == numColumns && mapData.zWidth == numRows &&
      mapData.startLongitudeMeter == longitudeLeftMeters &&
      mapData.startLatitudeMeter == latitudeTopMeters &&
      mapData.longitudeMeterStep == meterStep && mapData.latitudeMeterStep == latitudeStep &&
      mapData.xCount == CeilQuotient(numColumns, mapData.tileSize) &&
      mapData.zCount == CeilQuotient(numRows, mapData.tileSize) &&
      LayerTakesGrid(elevationLayer, numColumns, numRows, longitudeLeftMeters, latitudeTopMeters, meterStep, latitudeStep) &&
      LayerTakesGrid(fuelCodeLayer, numColumns, numRows, longitudeLeftMeters, latitudeTopMeters, meterStep, latitudeStep)
    }

    /**
     * What a started parse leaves behind: the grid taken (the map's tile size
     * kept), the elevation layer reading the elevation run over its old
     * pixels, and the fuel layer the fuel run unless the elevation run threw,
     * in which case it is untouched; the parse completes exactly when neither
     * run threw.
     */
    twostate predicate ParsedInto(elevationText: string, fuelText: string, parseFloat: string -> Option<real>, outcome: Outcome)
      requires old(mapData != null && LayersReady())
      requires mapData == old(mapData) && elevationLayer == old(elevationLayer) && fuelCodeLayer == old(fuelCodeLayer)
      requires LayersReady()
      reads this, mapData, elevationLayer, fuelCodeLayer
    {
      GridTaken() && mapData.tileSize == old(mapData.tileSize) &&
      PixelsParsed(elevationText, fuelText, parseFloat, outcome)
    }

    /** The pixel half of `ParsedInto`. */
    twostate predicate PixelsParsed(elevationText: string, fuelText: string, parseFloat: string -> Option<real>, outcome: Outcome)
      requires old(LayersReady())
      requires elevationLayer == old(elevationLayer) && fuelCodeLayer == old(fuelCodeLayer)
      requires LayersReady()
      reads this, elevationLayer, fuelCodeLayer
    {
      var elevation := RunLines(Lines(elevationText), Grid(), true, parseFloat);
      var fuel := RunLines(Lines(fuelText), Grid(), false, parseFloat);
      (forall x', z' :: elevationLayer.ValueAt(x', z') ==
         Overlay(elevation.writes, old(elevationLayer.ValueAt(x', z')), x', z')) &&
      (elevation.failed ==>
         outcome == Aborted &&
         (forall x', z' :: fuelCodeLayer.ValueAt(x', z') == old(fuelCodeLayer.ValueAt(x', z')))) &&
      (!elevation.failed ==>
         outcome == (if fuel.failed then Aborted else Completed) &&
         (forall x', z' :: fuelCodeLayer.ValueAt(x', z') ==
            Overlay(fuel.writes, old(fuelCodeLayer.ValueAt(x', z')), x', z')))
    }

    /** `ParseAsync`: sets the grid up, then parses the elevation text and, unless it threw, the fuel text. */
    method ParseAsync(elevationText: string, fuelText: string, parseFloat: string -> Option<real>) returns (outcome: Outcome)
      requires mapData != null && LayersReady()
      modifies mapData, elevationLayer, fuelCodeLayer
      ensures LayersReady() && ParsedInto(elevationText, fuelText, parseFloat, outcome)
    {
      PrepareTargets();
      var threw := ParseXYZIntoLayer(elevationText, true, parseFloat);
      if threw {
        outcome := Aborted;
      } else {
        threw := ParseXYZIntoLayer(fuelText, false, parseFloat);
        outcome := if threw then Aborted else Completed;
      }
    }

    /**
     * The set-up half of `ParseXYZ`: the map is initialised with the parser's
     * grid and both layers copy its extent, origin and steps (their tiles, and
     * so their pixels, are outside the frame).
     */
    method PrepareTargets()
      requires mapData != null && LayersReady()
      modifies mapData
      modifies elevationLayer`width, elevationLayer`height, elevationLayer`startLongitudeMeter,
               elevationLayer`startLatitudeMeter, elevationLayer`longitudeMeterStep, elevationLayer`latitudeMeterStep
      modifies fuelCodeLayer`width, fuelCodeLayer`height, fuelCodeLayer`startLongitudeMeter,
               fuelCodeLayer`startLatitudeMeter, fuelCodeLayer`longitudeMeterStep, fuelCodeLayer`latitudeMeterStep
      ensures LayersReady()
      ensures GridTaken() && mapData.tileSize == old(mapData.tileSize)
      ensures forall x', z' :: elevationLayer.ValueAt(x', z') == old(elevationLayer.ValueAt(x', z'))
      ensures forall x', z' :: fuelCodeLayer.ValueAt(x', z') == old(fuelCodeLayer.ValueAt(x', z'))
    {
      var xWidth, zWidth := numColumns, numRows;
      var latitudeStep := Wrap32(-meterStep);
      mapData.Initialize(xWidth, zWidth, longitudeLeftMeters, latitudeTopMeters, meterStep, latitudeStep);
      elevationLayer.TakeGrid(xWidth, zWidth, longitudeLeftMeters, latitudeTopMeters, meterStep, latitudeStep);
      fuelCodeLayer.TakeGrid(xWidth, zWidth, longitudeLeftMeters, latitudeTopMeters, meterStep, latitudeStep);
    }

    /**
     * `ParseXYZIntoLayer`: runs the lines of `text` in order, writing each
     * in-grid point into the elevation or the fuel layer, until a line
     * throws. The layer then reads the writes of the run over its old values;
     * the other layer is untouched.
     */
    method ParseXYZIntoLayer(text: string, isElevation: bool, parseFloat: string -> Option<real>) returns (threw: bool)
      requires LayersReady()
      modifies Target(isElevation)`tileSize, Target(isElevation)`tiles
      ensures LayersReady()
      ensures var layer := Target(isElevation);
              layer.Extends() && layer.Size() == old(layer.Size()) &&
              (layer.tileSize == old(layer.tileSize) || layer.tileSize == old(layer.Size()))
      ensures threw == RunLines(Lines(text), Grid(), isElevation, parseFloat).failed
      ensures mapData != null && old(GridTaken()) ==> GridTaken()
      ensures isElevation ==>
                (forall x', z' :: elevationLayer.ValueAt(x', z') ==
                   Overlay(RunLines(Lines(text), Grid(), true, parseFloat).writes, old(elevationLayer.ValueAt(x', z')), x', z')) &&
                (forall x', z' :: fuelCodeLayer.ValueAt(x', z') == old(fuelCodeLayer.ValueAt(x', z')))
      ensures !isElevation ==>
                (forall x', z' :: fuelCodeLayer.ValueAt(x', z') ==
                   Overlay(RunLines(Lines(text), Grid(), false, parseFloat).writes, old(fuelCodeLayer.ValueAt(x', z')), x', z')) &&
                (forall x', z' :: elevationLayer.ValueAt(x', z') == old(elevationLayer.ValueAt(x', z')))
    {
      threw := WriteLines(Target(isElevation), Lines(text), Grid(), isElevation, parseFloat);
    }
  }

  /** The layer carries the given extent and geographic grid. */
  predicate LayerTakesGrid(layer: RasterLayer, width: int, height: int, startLongitudeMeter: int,
                           startLatitudeMeter: int, longitudeMeterStep: int, latitudeMeterStep: int)
    reads layer`width, layer`height, layer`startLongitudeMeter, layer`startLatitudeMeter,
          layer`longitudeMeterStep, layer`latitudeMeterStep
  {
    layer.width == width && layer.height == height &&
    layer.startLongitudeMeter == startLongitudeMeter && layer.startLatitudeMeter == startLatitudeMeter &&
    layer.longitudeMeterStep == longitudeMeterStep && layer.latitudeMeterStep == latitudeMeterStep
  }

  /**
   * The loop of `ParseXYZIntoLayer` over one layer: each line's step in
   * turn, a write going through `SetData`, until a line throws.
   */
  method WriteLines(layer: RasterLayer, lines: seq<string>, g: Grid, isElevation: bool, parseFloat: string -> Option<real>)
    returns (threw: bool)
    requires layer.Valid()
    modifies layer`tileSize, layer`tiles
    ensures layer.Valid() && layer.Extends() && layer.Size() == old(layer.Size())
    ensures layer.tileSize == old(layer.tileSize) || layer.tileSize == old(layer.Size())
    ensures var r := RunLines(lines, g, isElevation, parseFloat);
            threw == r.failed &&
            forall x', z' :: layer.ValueAt(x', z') == Overlay(r.writes, old(layer.ValueAt(x', z')), x', z')
  {
    ghost var writes: seq<Cell> := [];
    for i := 0 to |lines|
      invariant layer.Valid() && layer.Extends() && layer.Size() == old(layer.Size())
      invariant layer.tileSize == old(layer.tileSize) || layer.tileSize == old(layer.Size())
      invariant RunLines(lines[..i], g, isElevation, parseFloat) == Run(writes, false)
      invariant forall x', z' :: layer.ValueAt(x', z') == Overlay(writes, old(layer.ValueAt(x', z')), x', z')
    {
      RunNext(lines, i, g, isElevation, parseFloat);
      var step := ParserStep(lines[i], g, isElevation, parseFloat);
      match step
      case Skip =>
      case Fail =>
        FailureEndsRun(lines, i + 1, g, isElevation, parseFloat);
        assert lines[..|lines|] == lines;
        return true;
      case Write(c) =>
        layer.SetData(c.x, c.z, c.value);
        forall x', z' ensures layer.ValueAt(x', z') == Overlay(writes + [c], old(layer.ValueAt(x', z')), x', z') {
          OverlayAppend(writes, c, old(layer.ValueAt(x', z')), x', z');
        }
        writes := writes + [c];
    }
    assert lines[..|lines|] == lines;
    threw := false;
  }
}
