/**
 * `TerrainTile`: one chunk of the terrain surface. Its mesh is a grid of
 * (w+1) x (h+1) vertices over the chunk's w x h pixels, with two triangles
 * per pixel; heights come from the elevation tile and vertex colours from
 * the fuel tile.
 */
module TerrainMesh {
  import opened Wrappers
  import opened Numeric
  import Mathf
  import opened Colors
  import opened GeoTransform
  import opened Raster
  import opened MapStore
  import opened Bezier
  import opened FuelCatalog
  import FuelPalette

  /** World units per elevation metre: 30 m of height make one unit. */
  const HeightScale: real := 1.0 / 30.0

  /** `Vector2`: a texture coordinate. */
  datatype Vector2 = Vector2(x: real, y: real)

  /** What the mesh setters copy out of the vertex, uv, colour and triangle arrays. */
  datatype MeshData = MeshData(vertices: seq<Vector3>, uv: seq<Vector2>, colors: seq<Color>, triangles: seq<int>)

  /** The wind speed and moisture state the colouring reads from the game manager. */
  datatype Weather = Weather(windSpeed: real, moisture: MoistureState)

  /** The engine's colour conversions, `Color.RGBToHSV` and `Color.HSVToRGB`. */
  datatype HsvConversion = HsvConversion(toHsv: Color -> FuelPalette.HsvColor, fromHsv: FuelPalette.HsvColor -> Color)

  /** `Color.black`. */
  const Black: Color := Color(0.0, 0.0, 0.0, 1.0)
  const UrbanPurple: Color := Color(0.5, 0.0, 0.6, 1.0)
  const WaterBlue: Color := Color(0.3, 0.5, 0.9, 1.0)

  /** The weather assumed without a game manager: wind 10, medium moisture. */
  const DefaultWeather: Weather := Weather(10.0, Medium)

  /** The curve maximum assumed for a fuel without data or without the curve. */
  const DefaultCurveMax: real := 10.0

  /**
   * The tile size of a chunk: its elevation layer's stored `tileSize` when
   * positive, otherwise 122. It is the size the layer's own accessors use.
   */
  function ChunkTileSize(layerTileSize: Option<int>): (ts: int)
    ensures ts > 0
    ensures layerTileSize.None? ==> ts == LegacyTileSize
    ensures layerTileSize.Some? ==> ts == SizeFor(layerTileSize.value)
  {
    if layerTileSize.Some? && layerTileSize.value > 0 then layerTileSize.value else LegacyTileSize
  }

  /**
   * The pixels a chunk's mesh spans along x and z: the tile size, cut down to
   * what is left of the map past the chunk's start. A chunk with nothing left
   * on either axis shrinks to one pixel; without map data it is a full tile.
   */
  function MeshExtent(ts: int, extent: Option<Coord>, tileX: int, tileZ: int): (e: Coord)
    requires ts > 0
    ensures 1 <= e.x <= ts && 1 <= e.z <= ts
    ensures extent.None? ==> e == Coord(ts, ts)
    ensures extent.Some? && (extent.value.x - tileX * ts <= 0 || extent.value.z - tileZ * ts <= 0) ==> e == Coord(1, 1)
    ensures extent.Some? && extent.value.x - tileX * ts > 0 && extent.value.z - tileZ * ts > 0 ==>
              tileX * ts + e.x <= extent.value.x && (e.x == ts || tileX * ts + e.x == extent.value.x) &&
              tileZ * ts + e.z <= extent.value.z && (e.z == ts || tileZ * ts + e.z == extent.value.z)
  {
    if extent.None? then Coord(ts, ts)
    else
      var w := Min(ts, extent.value.x - tileX * ts);
      var h := Min(ts, extent.value.z - tileZ * ts);
      if w <= 0 || h <= 0 then Coord(1, 1) else Coord(w, h)
  }

  /** The index of vertex (x, z) in a grid `w + 1` vertices wide, rows along z. */
  function VertexIndex(w: int, x: int, z: int): int {
    z * (w + 1) + x
  }

  /** The x of the vertex at index `u`. */
  function Column(w: nat, u: nat): nat {
    u % (w + 1)
  }

  /** The z of the vertex at index `u`. */
  function Row(w: nat, u: nat): nat {
    u / (w + 1)
  }

  /** Vertex (x, z) of a grid `w + 1` wide sits inside the grid and decodes back to (x, z). */
  lemma VertexIndexDecodes(w: nat, h: nat, x: int, z: int)
    requires 0 <= x <= w && 0 <= z <= h
    ensures 0 <= VertexIndex(w, x, z) < (w + 1) * (h + 1)
    ensures Column(w, VertexIndex(w, x, z)) == x && Row(w, VertexIndex(w, x, z)) == z
  {
    var u := VertexIndex(w, x, z);
    assert z * (w + 1) <= u < (z + 1) * (w + 1);
    assert (z + 1) * (w + 1) <= (h + 1) * (w + 1) by {
      MulMonotone(z + 1, h + 1, w + 1);
    }
    FloorDivUnique(u, w + 1, z);
  }

  /** Every vertex index of the grid is the index of the vertex it decodes to. */
  lemma VertexIndexOnto(w: nat, h: nat, u: int)
    requires 0 <= u < (w + 1) * (h + 1)
    ensures Column(w, u) <= w && Row(w, u) <= h
    ensures VertexIndex(w, Column(w, u), Row(w, u)) == u
  {
    var q := u / (w + 1);
    if q > h {
      MulMonotone(h + 1, q, w + 1);
      assert false;
    }
  }

  /** The six triangle corners of cell (x, z): (i0, i1, i2) and then (i1, i3, i2). */
  function CellCorners(w: int, x: int, z: int): (s: seq<int>)
    ensures |s| == 6
  {
    var i0 := VertexIndex(w, x, z);
    var i1 := i0 + 1;
    var i2 := i0 + w + 1;
    var i3 := i2 + 1;
    [i0, i1, i2, i1, i3, i2]
  }

  /** Triangle slot `t` of a mesh `w` cells wide: corner `t % 6` of cell `t / 6`, cells in rows of `w`. */
  function TriangleAt(w: int, t: int): int
    requires w > 0 && t >= 0
  {
    var c := t / 6;
    CellCorners(w, c % w, c / w)[t % 6]
  }

  /** The six slots of cell (x, z), which start at slot `t`, hold its six corners; the cell's slots fit the mesh. */
  lemma CellSlots(w: int, h: int, x: int, z: int, t: int)
    requires 0 <= x < w && 0 <= z < h && t == 6 * (z * w + x)
    ensures 0 <= t && t + 6 <= w * h * 6
    ensures TriangleAt(w, t) == VertexIndex(w, x, z)
    ensures TriangleAt(w, t + 1) == VertexIndex(w, x, z) + 1
    ensures TriangleAt(w, t + 2) == VertexIndex(w, x, z) + w + 1
    ensures TriangleAt(w, t + 3) == VertexIndex(w, x, z) + 1
    ensures TriangleAt(w, t + 4) == VertexIndex(w, x, z) + w + 2
    ensures TriangleAt(w, t + 5) == VertexIndex(w, x, z) + w + 1
  {
    CellFits(w, h, x, z);
    CellSlot(w, x, z, t, 0);
    CellSlot(w, x, z, t, 1);
    CellSlot(w, x, z, t, 2);
    CellSlot(w, x, z, t, 3);
    CellSlot(w, x, z, t, 4);
    CellSlot(w, x, z, t, 5);
  }

  lemma CellFits(w: int, h: int, x: int, z: int)
    requires 0 <= x < w && 0 <= z < h
    ensures 0 <= 6 * (z * w + x) && 6 * (z * w + x) + 6 <= w * h * 6
  {
    MulMonotone(0, z, w);
    MulMonotone(z + 1, h, w);
    assert (z + 1) * w == z * w + w;
    assert h * w == w * h;
  }

  lemma CellSlot(w: int, x: int, z: int, t: int, k: int)
    requires 0 <= x < w && 0 <= z && t == 6 * (z * w + x) && 0 <= k < 6
    ensures TriangleAt(w, t + k) == CellCorners(w, x, z)[k]
  {
    var c := z * w + x;
    FloorDivUnique(t + k, 6, c);
    FloorDivUnique(c, w, z);
  }

  /** Every corner a `w` x `h` mesh emits is a vertex of its (w+1) x (h+1) grid. */
  lemma {:induction false} TriangleInGrid(w: int, h: int, t: int)
    requires w > 0 && h > 0 && 0 <= t < w * h * 6
    ensures 0 <= TriangleAt(w, t) < (w + 1) * (h + 1)
  {
    var c := t / 6;
    assert c < w * h;
    var x, z := c % w, c / w;
    if z >= h {
      MulMonotone(h, z, w);
      assert false;
    }
    MulMonotone(z, h - 1, w + 1);
    MulMonotone(0, z, w + 1);
    var i0 := VertexIndex(w, x, z);
    assert 0 <= i0 <= VertexIndex(w, w - 1, h - 1);
    assert VertexIndex(w, w - 1, h - 1) + w + 2 == (w + 1) * (h + 1) - 1;
    var corners := CellCorners(w, x, z);
    assert corners == [i0, i0 + 1, i0 + w + 1, i0 + 1, i0 + w + 2, i0 + w + 1];
    assert TriangleAt(w, t) == corners[t % 6];
  }

  /** A fuel tile: absent, or square with at least one row. */
  predicate FuelTileShape(fuels: Option<Tile>) {
    fuels.None? || (|fuels.value| > 0 && IsTile(fuels.value, |fuels.value|))
  }

  /** The fuel code behind a vertex: the fuel tile's cell at the position clamped into the tile. */
  function FuelSample(fuels: Tile, x: int, z: int): Int16
    requires |fuels| > 0 && IsTile(fuels, |fuels|)
  {
    fuels[Clamp(x, 0, |fuels| - 1)][Clamp(z, 0, |fuels[0]| - 1)]
  }

  /**
   * The colour a fuel code gets from its category alone, tested in the order
   * no fuel, road, urban, water; `None` for any other code. Every urban code
   * is also a road code, so the road test hides the urban colour.
   */
  function CategoryColor(fc: Int16): (c: Option<Color>)
    ensures fc == NoFuel ==> c == Some(GrayGreen)
    ensures IsRoad(fc) ==> c == Some(Black)
    ensures IsWater(fc) ==> c == Some(WaterBlue)
    ensures c.None? <==> fc != NoFuel && !IsRoad(fc) && !IsWater(fc)
    ensures c != Some(UrbanPurple)
  {
    UrbanIsRoad(fc);
    if fc == NoFuel then Some(GrayGreen)
    else if IsRoad(fc) then Some(Black)
    else if IsUrban(fc) then Some(UrbanPurple)
    else if IsWater(fc) then Some(WaterBlue)
    else None
  }

  /** A shading parameter: `value / max` clamped to [0, 1], or one half when the maximum is not positive. */
  function Ratio(value: real, max: real): (r: real)
    ensures 0.0 <= r <= 1.0
    ensures max <= 0.0 ==> r == 0.5
    ensures max > 0.0 && value >= max ==> r == 1.0
    ensures max > 0.0 && value <= 0.0 ==> r == 0.0
  {
    if max > 0.0 then
      (if value >= max then assert value / max >= 1.0; Mathf.Clamp01(value / max)
       else Mathf.Clamp01(value / max))
    else Mathf.Clamp01(0.5)
  }

  /** The maximum of a response curve, or 10 when there is none. */
  function CurveMax(c: Option<BezierCurve>): real {
    if c.Some? then c.value.max else DefaultCurveMax
  }

  /**
   * The shade of a burnable fuel: the base colour's hue, a saturation between
   * 0.3 and 1 set by the flame length against its curve's maximum, and a
   * brightness between 0.4 and 1 set by the spread rate against its maximum.
   */
  function Shade(conv: HsvConversion, base: Color, flame: real, flameMax: real, ros: real, rosMax: real): (hsv: FuelPalette.HsvColor)
    ensures hsv.h == conv.toHsv(base).h
    ensures 0.3 <= hsv.s <= 1.0 && 0.4 <= hsv.v <= 1.0
    ensures flameMax <= 0.0 ==> hsv.s == 0.65
    ensures rosMax <= 0.0 ==> hsv.v == 0.7
    ensures flameMax > 0.0 && flame >= flameMax ==> hsv.s == 1.0
    ensures rosMax > 0.0 && ros >= rosMax ==> hsv.v == 1.0
  {
    FuelPalette.HsvColor(conv.toHsv(base).h, Mathf.Lerp(0.3, 1.0, Ratio(flame, flameMax)), Mathf.Lerp(0.4, 1.0, Ratio(ros, rosMax)))
  }

  /** More flame gives at least as much saturation, and a faster spread at least as much brightness. */
  lemma ShadeMonotone(conv: HsvConversion, base: Color, flame1: real, flame2: real, flameMax: real,
                      ros1: real, ros2: real, rosMax: real)
    requires flame1 <= flame2 && ros1 <= ros2
    ensures Shade(conv, base, flame1, flameMax, ros1, rosMax).s <= Shade(conv, base, flame2, flameMax, ros2, rosMax).s
    ensures Shade(conv, base, flame1, flameMax, ros1, rosMax).v <= Shade(conv, base, flame2, flameMax, ros2, rosMax).v
  {
    RatioMonotone(flame1, flame2, flameMax);
    RatioMonotone(ros1, ros2, rosMax);
    Mathf.LerpMonotone(0.3, 1.0, Ratio(flame1, flameMax), Ratio(flame2, flameMax));
    Mathf.LerpMonotone(0.4, 1.0, Ratio(ros1, rosMax), Ratio(ros2, rosMax));
  }

  lemma RatioMonotone(a: real, b: real, max: real)
    requires a <= b
    ensures Ratio(a, max) <= Ratio(b, max)
  {
    if max > 0.0 {
      assert a / max <= b / max;
    }
  }

  /** What the colouring learns from the fuel set about one code: nothing, or the fuel's base colour and curves. */
  datatype FuelFacts = Unknown | Known(baseColor: Color, flame: MoistureCurves, ros: MoistureCurves)

  /**
   * The shade of a burnable fuel under the weather: flame length and spread
   * rate from the fuel's curves against the curves' maxima, with base colour
   * gray-green, values 1 and maxima 10 for a fuel the set does not know.
   */
  function FuelShade(facts: FuelFacts, weather: Weather, conv: HsvConversion): (hsv: FuelPalette.HsvColor)
    ensures facts.Unknown? ==> hsv.h == conv.toHsv(GrayGreen).h && hsv.s == 0.37 && hsv.v == 0.46
    ensures facts.Known? ==> hsv.h == conv.toHsv(facts.baseColor).h
    ensures 0.3 <= hsv.s <= 1.0 && 0.4 <= hsv.v <= 1.0
  {
    match facts
    case Unknown =>
      Shade(conv, GrayGreen, 1.0, DefaultCurveMax, 1.0, DefaultCurveMax)
    case Known(base, flame, ros) =>
      Shade(conv, base,
            FlameLength(flame, weather.windSpeed, weather.moisture), CurveMax(flame.Select(weather.moisture)),
            SpreadRate(ros, weather.windSpeed, weather.moisture), CurveMax(ros.Select(weather.moisture)))
  }

  /** The position of vertex (x, z): planar (x, -z), raised by the clamped height sample. */
  function Vertex(heights: Tile, ts: int, x: int, z: int): Vector3
    requires ts > 0 && IsTile(heights, ts)
  {
    Vector3(x as real, heights[Clamp(x, 0, ts - 1)][Clamp(z, 0, ts - 1)] as real * HeightScale, -(z as real))
  }

  /** The texture coordinate of vertex (x, z) of a `w` x `h` mesh: its position over the mesh size. */
  function Uv(w: int, h: int, x: int, z: int): (uv: Vector2)
    requires w > 0 && h > 0
    ensures 0 <= x <= w ==> 0.0 <= uv.x <= 1.0
    ensures 0 <= z <= h ==> 0.0 <= uv.y <= 1.0
    ensures x == 0 ==> uv.x == 0.0
    ensures x == w ==> uv.x == 1.0
    ensures z == 0 ==> uv.y == 0.0
    ensures z == h ==> uv.y == 1.0
  {
    Vector2(x as real / w as real, z as real / h as real)
  }

  /** Vertex `u` of a `w` x `h` mesh stands at its grid point with its uv. */
  predicate VertexPlaced(p: Vector3, uv: Vector2, heights: Tile, ts: int, w: nat, h: nat, u: nat)
    requires ts > 0 && IsTile(heights, ts) && w > 0 && h > 0
  {
    p == Vertex(heights, ts, Column(w, u), Row(w, u)) && uv == Uv(w, h, Column(w, u), Row(w, u))
  }

  /** Writes the six corners of cell (x, z) into slots `t` .. `t + 5`, after the slots already written. */
  method WriteCell(triangles: array<int>, w: int, h: int, x: int, z: int, t: int)
    requires 0 <= x < w && 0 <= z < h && t == 6 * (z * w + x) && triangles.Length == w * h * 6
    requires 0 <= t && t + 6 <= triangles.Length
    requires forall s :: 0 <= s < t ==> triangles[s] == TriangleAt(w, s)
    modifies triangles
    ensures forall s :: 0 <= s < t + 6 ==> triangles[s] == TriangleAt(w, s)
  {
    CellSlots(w, h, x, z, t);
    var i0 := z * (w + 1) + x;
    var i1 := i0 + 1;
    var i2 := i0 + (w + 1);
    var i3 := i2 + 1;
    triangles[t] := i0;
    triangles[t + 1] := i1;
    triangles[t + 2] := i2;
    triangles[t + 3] := i1;
    triangles[t + 4] := i3;
    triangles[t + 5] := i2;
  }

  /**
   * `BuildMesh`'s triangle loop: cell by cell, rows along z, each cell's six
   * corners in turn.
   */
  method BuildTriangles(w: int, h: int) returns (triangles: array<int>)
    requires w > 0 && h > 0
    ensures fresh(triangles) && triangles.Length == w * h * 6
    ensures forall t :: 0 <= t < triangles.Length ==> triangles[t] == TriangleAt(w, t)
  {
    triangles := new int[w * h * 6];
    var t := 0;
    var z := 0;
    while z < h
      invariant 0 <= z <= h && t == 6 * (z * w) && t <= triangles.Length
      invariant forall s :: 0 <= s < t ==> triangles[s] == TriangleAt(w, s)
    {
      var x := 0;
      while x < w
        invariant 0 <= x <= w && t == 6 * (z * w + x) && t <= triangles.Length
        invariant forall s :: 0 <= s < t ==> triangles[s] == TriangleAt(w, s)
      {
        CellFits(w, h, x, z);
        WriteCell(triangles, w, h, x, z, t);
        t := t + 6;
        x := x + 1;
      }
      assert (z + 1) * w == z * w + w;
      z := z + 1;
    }
  }

  /**
   * The layers and fuel set a chunk builds from fit it: the elevation layer's
   * tiles are `ts` square, both layers are well formed, and looking up any
   * fuel code in the set meets no missing entry.
   */
  ghost predicate Fits(elevationLayer: RasterLayer?, fuelCodeLayer: RasterLayer?, fuelCodeSet: FuelCodeSet?, ts: int)
    reads elevationLayer, fuelCodeLayer, fuelCodeSet
    reads if fuelCodeSet == null then {} else set i | 0 <= i < |fuelCodeSet.fuelCodes| :: fuelCodeSet.fuelCodes[i]
  {
    ts > 0 &&
    (elevationLayer != null ==> elevationLayer.Valid() && elevationLayer.Size() == ts) &&
    (fuelCodeLayer != null ==> fuelCodeLayer.Valid()) &&
    (fuelCodeSet != null ==> forall id: Int16 :: ScanSafe(fuelCodeSet.fuelCodes, id, 0))
  }

  /** The tile of `layer` at `key`, or the default-filled tile `GetTileData` makes up. */
  ghost function StoredTile(layer: RasterLayer, key: Coord): Tile
    reads layer
  {
    if key in layer.tiles then layer.tiles[key] else Blank(layer.Size(), layer.defaultValue)
  }

  class TerrainTile {
    /** Public fields of the source that only the constructor writes. */
    const tileX: int
    const tileZ: int
    const elevationLayer: RasterLayer?
    const fuelCodeLayer: RasterLayer?
    const mapData: MapData?
    /** The game manager's wind and moisture, `None` without a game manager. */
    const weather: Option<Weather>
    const fuelCodeSet: FuelCodeSet?
    const tileSize: int
    const conv: HsvConversion
    /** `meshFilter.sharedMesh`. */
    var sharedMesh: MeshData

    /** The layers whose `tileSize` the accessors may normalise. */
    ghost function Layers(): set<RasterLayer> {
      (if elevationLayer == null then {} else {elevationLayer}) + (if fuelCodeLayer == null then {} else {fuelCodeLayer})
    }

    /** The fuel set and its entries, which the colouring reads. */
    ghost function FuelObjects(): set<object>
      reads if fuelCodeSet == null then {} else {fuelCodeSet}
    {
      if fuelCodeSet == null then {}
      else {fuelCodeSet} + set i | 0 <= i < |fuelCodeSet.fuelCodes| && fuelCodeSet.fuelCodes[i] != null :: fuelCodeSet.fuelCodes[i]
    }

    ghost predicate Ready()
      reads Layers(), FuelObjects()
    {
      Fits(elevationLayer, fuelCodeLayer, fuelCodeSet, tileSize)
    }

    /** Looking up any fuel code in the set meets no missing entry. */
    ghost predicate FuelsSafe()
      reads FuelObjects()
    {
      fuelCodeSet != null ==> forall id: Int16 :: ScanSafe(fuelCodeSet.fuelCodes, id, 0)
    }

    /** The map's extent, when there is map data. */
    function MapExtent(): Option<Coord>
      reads mapData
    {
      if mapData == null then None else Some(Coord(mapData.xWidth, mapData.zWidth))
    }

    /** The pixels this chunk's mesh spans. */
    function Extent(): (e: Coord)
      requires tileSize > 0
      reads mapData
      ensures 1 <= e.x <= tileSize && 1 <= e.z <= tileSize
    {
      MeshExtent(tileSize, MapExtent(), tileX, tileZ)
    }

    /** The weather the colouring uses: the game manager's, or the defaults without one. */
    function CurrentWeather(): Weather
    {
      if weather.Some? then weather.value else DefaultWeather
    }

    /** What `fuelCodeSet.GetFuelCode` finds for a code; nothing without a set. */
    function Facts(fc: Int16): (f: FuelFacts)
      requires FuelsSafe()
      reads FuelObjects()
      ensures f.Known? <==> fuelCodeSet != null && fuelCodeSet.GetFuelCode(fc) != null
      ensures f.Known? ==> f.baseColor == fuelCodeSet.GetFuelCode(fc).baseColor
    {
      var data := if fuelCodeSet != null then fuelCodeSet.GetFuelCode(fc) else null;
      if data == null then Unknown else Known(data.baseColor, data.flame, data.ros)
    }

    /**
     * `GetFuelColor`: gray-green without fuels; the category colour of the
     * sampled code when it has one; otherwise the shade of the fuel the set
     * finds for it.
     */
    function GetFuelColor(fuels: Option<Tile>, x: int, z: int): (c: Color)
      requires FuelTileShape(fuels) && FuelsSafe()
      reads FuelObjects()
      ensures fuels.None? ==> c == GrayGreen
      ensures fuels.Some? && CategoryColor(FuelSample(fuels.value, x, z)).Some? ==>
                c == CategoryColor(FuelSample(fuels.value, x, z)).value
      ensures fuels.Some? && CategoryColor(FuelSample(fuels.value, x, z)).None? ==>
                c == conv.fromHsv(FuelShade(Facts(FuelSample(fuels.value, x, z)), CurrentWeather(), conv))
    {
      if fuels.None? then GrayGreen
      else
        var fc := FuelSample(fuels.value, x, z);
        match CategoryColor(fc)
        case Some(category) => category
        case None => conv.fromHsv(FuelShade(Facts(fc), CurrentWeather(), conv))
    }

    /** The colour of vertex `u` of a mesh `w` cells wide: the fuel colour at its clamped position. */
    ghost function ColorOf(fuels: Option<Tile>, w: nat, u: nat): Color
      requires FuelsSafe() && FuelTileShape(fuels)
      reads FuelObjects()
    {
      GetFuelColor(fuels, Clamp(Column(w, u), 0, tileSize - 1), Clamp(Row(w, u), 0, tileSize - 1))
    }

    /**
     * What a built mesh holds for these heights and fuels: one vertex per grid
     * point, with its position, uv and colour, and two triangles per cell.
     */
    ghost predicate IsMesh(m: MeshData, heights: Tile, fuels: Option<Tile>)
      requires tileSize > 0 && FuelsSafe() && IsTile(heights, tileSize) && FuelTileShape(fuels)
      reads mapData, FuelObjects()
    {
      var e := Extent();
      var n := (e.x + 1) * (e.z + 1);
      |m.vertices| == n && |m.uv| == n && |m.colors| == n && |m.triangles| == e.x * e.z * 6 &&
      (forall u :: 0 <= u < n ==>
         VertexPlaced(m.vertices[u], m.uv[u], heights, tileSize, e.x, e.z, u) && m.colors[u] == ColorOf(fuels, e.x, u)) &&
      (forall t :: 0 <= t < e.x * e.z * 6 ==> m.triangles[t] == TriangleAt(e.x, t))
    }

    /** The heights `BuildMesh` reads: the elevation tile, or all zeros without an elevation layer. */
    ghost function Heights(): Tile
      requires tileSize > 0
      reads Layers()
    {
      if elevationLayer == null then Blank(tileSize, DefaultElevation) else StoredTile(elevationLayer, Coord(tileX, tileZ))
    }

    /** The fuels `BuildMesh` reads: the fuel tile, and none without an elevation or a fuel layer. */
    ghost function Fuels(): Option<Tile>
      reads Layers()
    {
      if elevationLayer == null || fuelCodeLayer == null then None else Some(StoredTile(fuelCodeLayer, Coord(tileX, tileZ)))
    }

    /** Every triangle corner of a built mesh is one of its vertices, and the vertex at (x, z) sits at (x, -z). */
    lemma MeshWellFormed(m: MeshData, heights: Tile, fuels: Option<Tile>)
      requires tileSize > 0 && FuelsSafe() && IsTile(heights, tileSize) && FuelTileShape(fuels) && IsMesh(m, heights, fuels)
      ensures forall t :: 0 <= t < |m.triangles| ==> 0 <= m.triangles[t] < |m.vertices|
      ensures forall x, z :: 0 <= x <= Extent().x && 0 <= z <= Extent().z ==>
                VertexIndex(Extent().x, x, z) < |m.vertices| &&
                m.vertices[VertexIndex(Extent().x, x, z)] == Vertex(heights, tileSize, x, z)
    {
      var e := Extent();
      forall t | 0 <= t < |m.triangles|
        ensures 0 <= m.triangles[t] < |m.vertices|
      {
        TriangleInGrid(e.x, e.z, t);
      }
      forall x, z | 0 <= x <= e.x && 0 <= z <= e.z
        ensures VertexIndex(e.x, x, z) < |m.vertices| && m.vertices[VertexIndex(e.x, x, z)] == Vertex(heights, tileSize, x, z)
      {
        VertexIndexDecodes(e.x, e.z, x, z);
      }
    }

    /** `GenerateMeshFromHeights`. */
    method GenerateMeshFromHeights(heights: Tile, fuels: Option<Tile>) returns (m: MeshData)
      requires tileSize > 0 && FuelsSafe() && IsTile(heights, tileSize) && FuelTileShape(fuels)
      ensures IsMesh(m, heights, fuels)
    {
      var e := Extent();
      var triangles := BuildTriangles(e.x, e.z);
      var vertices, uvs, colors := FillVertices(heights, fuels, e.x, e.z);
      m := MeshData(vertices, uvs, colors, triangles[..]);
    }

    /**
     * The vertex loop of `GenerateMeshFromHeights`: rows along z, each row
     * along x, one vertex, uv and colour per grid point in index order.
     */
    method FillVertices(heights: Tile, fuels: Option<Tile>, w: int, h: int)
      returns (vertices: seq<Vector3>, uvs: seq<Vector2>, colors: seq<Color>)
      requires tileSize > 0 && FuelsSafe() && IsTile(heights, tileSize) && FuelTileShape(fuels) && w > 0 && h > 0
      ensures |vertices| == |uvs| == |colors| == (w + 1) * (h + 1)
      ensures forall u :: 0 <= u < |vertices| ==>
                VertexPlaced(vertices[u], uvs[u], heights, tileSize, w, h, u) && colors[u] == ColorOf(fuels, w, u)
    {
      vertices, uvs, colors := [], [], [];
      var v := 0;
      var z := 0;
      while z < h + 1
        invariant 0 <= z <= h + 1 && v == z * (w + 1) && v <= (w + 1) * (h + 1)
        invariant |vertices| == |uvs| == |colors| == v
        invariant forall u :: 0 <= u < v ==>
                    VertexPlaced(vertices[u], uvs[u], heights, tileSize, w, h, u) && colors[u] == ColorOf(fuels, w, u)
      {
        var x := 0;
        while x < w + 1
          invariant 0 <= x <= w + 1 && v == z * (w + 1) + x && v <= (w + 1) * (h + 1)
          invariant |vertices| == |uvs| == |colors| == v
          invariant forall u :: 0 <= u < v ==>
                      VertexPlaced(vertices[u], uvs[u], heights, tileSize, w, h, u) && colors[u] == ColorOf(fuels, w, u)
        {
          VertexIndexDecodes(w, h, x, z);
          var hx := Clamp(x, 0, tileSize - 1);
          var hz := Clamp(z, 0, tileSize - 1);
          var height := heights[hx][hz] as real * HeightScale;
          vertices := vertices + [Vector3(x as real, height, -(z as real))];
          uvs := uvs + [Vector2(x as real / w as real, z as real / h as real)];
          colors := colors + [GetFuelColor(fuels, hx, hz)];
          v := v + 1;
          x := x + 1;
        }
        z := z + 1;
      }
    }

    /**
     * `BuildMesh`: without an elevation layer the mesh is built from an
     * all-zero height tile and no fuels; otherwise from the elevation tile and
     * the fuel tile (none without a fuel layer). Reading the tiles may
     * normalise the layers' stored tile size, nothing else changes.
     */
    method BuildMesh()
      requires Ready()
      modifies this`sharedMesh, Layers()`tileSize
      ensures Ready()
      ensures forall l :: l in Layers() ==> l.tileSize == if elevationLayer == null then old(l.tileSize) else old(l.Size())
      ensures IsMesh(sharedMesh, Heights(), Fuels())
    {
      var heights, fuels := ReadTiles();
      var m := GenerateMeshFromHeights(heights, fuels);
      assert IsMesh(m, Heights(), Fuels());
      // The fuel objects are not this tile: storing the mesh leaves the colouring as it was.
      assert this !in FuelObjects();
      sharedMesh := m;
    }

    /** The heights and fuels `BuildMesh` reads from the layers. */
    method ReadTiles() returns (heights: Tile, fuels: Option<Tile>)
      requires Ready()
      modifies Layers()`tileSize
      ensures Ready()
      ensures forall l :: l in Layers() ==> l.tileSize == if elevationLayer == null then old(l.tileSize) else old(l.Size())
      ensures IsTile(heights, tileSize) && FuelTileShape(fuels)
      ensures heights == Heights() && fuels == Fuels()
    {
      if elevationLayer == null {
        return Blank(tileSize, DefaultElevation), None;
      }
      var key := Coord(tileX, tileZ);
      heights := elevationLayer.GetTileData(tileX, tileZ);
      assert heights == StoredTile(elevationLayer, key);
      fuels := None;
      if fuelCodeLayer != null {
        var t := fuelCodeLayer.GetTileData(tileX, tileZ);
        assert t == StoredTile(fuelCodeLayer, key);
        // The two layers may be one object; its size is the same after the second read.
        assert heights == StoredTile(elevationLayer, key);
        fuels := Some(t);
      }
    }

    /** The constructor: the chunk's size comes from its elevation layer, then the mesh is built. */
    constructor (tileX: int, tileZ: int, elevationLayer: RasterLayer?, fuelCodeLayer: RasterLayer?, mapData: MapData?,
                 weather: Option<Weather>, fuelCodeSet: FuelCodeSet?, conv: HsvConversion)
      requires Fits(elevationLayer, fuelCodeLayer, fuelCodeSet,
                    ChunkTileSize(if elevationLayer == null then None else Some(elevationLayer.tileSize)))
      modifies (if elevationLayer == null then {} else {elevationLayer})`tileSize,
               (if fuelCodeLayer == null then {} else {fuelCodeLayer})`tileSize
      ensures this.tileX == tileX && this.tileZ == tileZ
      ensures this.elevationLayer == elevationLayer && this.fuelCodeLayer == fuelCodeLayer && this.mapData == mapData
      ensures this.weather == weather && this.fuelCodeSet == fuelCodeSet && this.conv == conv
      ensures tileSize == ChunkTileSize(if elevationLayer == null then None else Some(old(elevationLayer.tileSize)))
      ensures forall l :: l in Layers() ==> l.tileSize == if elevationLayer == null then old(l.tileSize) else old(l.Size())
      ensures Ready() && IsMesh(sharedMesh, Heights(), Fuels())
    {
      this.tileX := tileX;
      this.tileZ := tileZ;
      this.elevationLayer := elevationLayer;
      this.fuelCodeLayer := fuelCodeLayer;
      this.mapData := mapData;
      this.weather := weather;
      this.fuelCodeSet := fuelCodeSet;
      this.conv := conv;
      this.tileSize := ChunkTileSize(if elevationLayer == null then None else Some(elevationLayer.tileSize));
      this.sharedMesh := MeshData([], [], [], []);
      new;
      BuildMesh();
    }
  }
}
