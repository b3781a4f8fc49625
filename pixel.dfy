/**
 * `Pixel`: one 30 m cell of the map as the game sees it. It keeps its fire
 * state and memoises its elevation, fuel code and slope: a getter reads the
 * map once and caches the value, a setter writes the cache and the map.
 */
module Cells {
  import opened Wrappers
  import opened Numeric
  import opened GeoTransform
  import opened Raster
  import opened MapStore
  import opened TerrainBuild

  datatype PixelState = Alive | Fire | Dead

  /** Metres between neighbouring pixels: the run of the slope. */
  const CellMeters: real := 30.0

  /** The rise from `near` to `far` over one pixel, in metres per metre. */
  function Gradient(far: Int16, near: Int16): real
  {
    (far as real - near as real) / CellMeters
  }

  /**
   * `ComputeSlope` from the four neighbours' elevations: the gradient along x
   * is right minus left and along z bottom minus top, each over 30 m, and
   * `steepness` turns the squared gradient length into degrees (the source's
   * `Atan(Sqrt(g)) * Rad2Deg`).
   */
  function SlopeFrom(steepness: real -> real, top: Int16, left: Int16, right: Int16, bottom: Int16): real
  {
    steepness(SquaredGradient(top, left, right, bottom))
  }

  /** The squared length of the gradient vector `(right - left, bottom - top) / 30`. */
  function SquaredGradient(top: Int16, left: Int16, right: Int16, bottom: Int16): real
  {
    Gradient(right, left) * Gradient(right, left) + Gradient(bottom, top) * Gradient(bottom, top)
  }

  /** Turning the neighbourhood half way round (swapping each opposite pair) leaves the slope unchanged. */
  lemma SlopeMirror(steepness: real -> real, top: Int16, left: Int16, right: Int16, bottom: Int16)
    ensures SlopeFrom(steepness, top, left, right, bottom) == SlopeFrom(steepness, bottom, right, left, top)
  {
    var gx, gz := Gradient(right, left), Gradient(bottom, top);
    assert Gradient(left, right) == -gx && Gradient(top, bottom) == -gz;
    assert (-gx) * (-gx) == gx * gx && (-gz) * (-gz) == gz * gz;
    assert SquaredGradient(top, left, right, bottom) == SquaredGradient(bottom, right, left, top);
  }

  /** Level opposite neighbours give the slope of a flat gradient, whatever their height. */
  lemma SlopeLevel(steepness: real -> real, top: Int16, left: Int16)
    ensures SlopeFrom(steepness, top, left, left, top) == steepness(0.0)
  {
    assert Gradient(left, left) == 0.0 && Gradient(top, top) == 0.0;
    assert SquaredGradient(top, left, left, top) == 0.0;
  }

  /** A map whose layers kept their tiles and size reads the same everywhere. */
  twostate lemma LayersKept(m: MapData)
    requires old(m.Valid()) && unchanged(m)
    requires forall l :: l in m.Layers() ==> l.tiles == old(l.tiles) && l.Size() == old(l.Size())
    ensures m.Valid()
    ensures forall x, z :: m.ElevationAt(x, z) == old(m.ElevationAt(x, z))
    ensures forall x, z :: m.FuelCodeAt(x, z) == old(m.FuelCodeAt(x, z))
  {
  }

  class Pixel {
    /** Public fields of the source that only the constructor writes. */
    const x: int
    const z: int
    var state: PixelState
    /** kW/m. */
    var fireIntensity: real
    /** Metres. */
    var flameLength: real
    /** Rate of spread. */
    var ros: real
    /** The game manager's map data and terrain generator; null without a game manager. */
    const mapData: MapData?
    const terrainGenerator: TerrainGenerator?
    /** The caches `_elevation`, `_fuelCode` and `_slope`; `None` is an empty cache. */
    var elevationCache: Option<Int16>
    var fuelCodeCache: Option<Int16>
    var slopeCache: Option<real>

    constructor (mapData: MapData?, terrainGenerator: TerrainGenerator?, x: int, z: int)
      ensures this.mapData == mapData && this.terrainGenerator == terrainGenerator && this.x == x && this.z == z
      ensures state == Alive && fireIntensity == 0.0 && flameLength == 0.0 && ros == 0.0
      ensures elevationCache == None && fuelCodeCache == None && slopeCache == None
    {
      this.mapData := mapData;
      this.terrainGenerator := terrainGenerator;
      this.x := x;
      this.z := z;
      state := Alive;
      fireIntensity := 0.0;
      flameLength := 0.0;
      ros := 0.0;
      elevationCache := None;
      fuelCodeCache := None;
      slopeCache := None;
    }

    /** The map's elevation layer, as a set for frames. */
    ghost function ElevationLayers(): set<RasterLayer>
      reads mapData
    {
      if mapData == null then {} else mapData.ElevationLayers()
    }

    /** The map's fuel-code layer, as a set for frames. */
    ghost function FuelCodeLayers(): set<RasterLayer>
      reads mapData
    {
      if mapData == null then {} else mapData.FuelCodeLayers()
    }

    /** The map, when there is one, is well formed. */
    ghost predicate MapReady()
      reads mapData, if mapData == null then {} else mapData.Layers()
    {
      mapData != null ==> mapData.Valid()
    }

    /** The chunks of the terrain generator. */
    ghost function Chunks(): set<TerrainMesh.TerrainTile>
      reads terrainGenerator
    {
      if terrainGenerator == null then {} else set k | k in terrainGenerator.tiles :: terrainGenerator.tiles[k]
    }

    /** The layers the terrain generator's chunks read. */
    ghost function ChunkLayers(): set<RasterLayer>
      reads terrainGenerator, if terrainGenerator == null then {} else {terrainGenerator.mapData}
    {
      if terrainGenerator == null then {} else terrainGenerator.BuildLayers()
    }

    /**
     * The `elevation` getter: the first read fetches the map's value (0
     * without a map) and caches it; later reads return the cache and leave the
     * map alone.
     */
    method Elevation() returns (e: Int16)
      requires MapReady()
      modifies this`elevationCache, ElevationLayers()`tileSize
      ensures MapReady() && elevationCache == Some(e)
      ensures old(elevationCache).Some? ==> e == old(elevationCache).value && unchanged(ElevationLayers())
      ensures old(elevationCache).None? && mapData == null ==> e == DefaultElevation
      ensures old(elevationCache).None? && mapData != null ==> e == mapData.ElevationAt(x, z)
    {
      if elevationCache.None? {
        var v := DefaultElevation;
        if mapData != null {
          v := mapData.GetElevation(x, z);
        }
        elevationCache := Some(v);
      }
      e := elevationCache.value;
    }

    /**
     * The `elevation` setter: caches the value, writes it into the map, has the
     * terrain generator rebuild the chunk holding the pixel, and empties the
     * slope cache.
     */
    method SetElevation(value: Int16)
      requires MapReady()
      requires terrainGenerator != null ==> terrainGenerator.elevationLayer != null && terrainGenerator.Serving()
      modifies this`elevationCache, this`slopeCache, ElevationLayers()`tileSize, ElevationLayers()`tiles
      modifies Chunks()`sharedMesh, ChunkLayers()`tileSize
      ensures elevationCache == Some(value) && slopeCache == None && fuelCodeCache == old(fuelCodeCache)
      ensures MapReady()
      ensures mapData != null && mapData.elevationLayer != null ==> mapData.ElevationAt(x, z) == value
      ensures mapData != null ==> forall x', z' :: (x' != x || z' != z) ==> mapData.ElevationAt(x', z') == old(mapData.ElevationAt(x', z'))
      ensures terrainGenerator != null ==> terrainGenerator.Serving()
    {
      elevationCache := Some(value);
      // The rebuild does not touch the pixel, so emptying the slope cache
      // before it, rather than after as the source does, is the same.
      slopeCache := None;
      WriteElevation(value);
      if terrainGenerator != null {
        RebuildChunk();
      }
    }

    /** The map write of the `elevation` setter, which keeps the terrain generator serving. */
    method WriteElevation(value: Int16)
      requires MapReady()
      requires terrainGenerator != null ==> terrainGenerator.elevationLayer != null && terrainGenerator.Serving()
      modifies ElevationLayers()`tileSize, ElevationLayers()`tiles
      ensures MapReady()
      ensures mapData != null && mapData.elevationLayer != null ==> mapData.ElevationAt(x, z) == value
      ensures mapData != null ==> forall x', z' :: (x' != x || z' != z) ==> mapData.ElevationAt(x', z') == old(mapData.ElevationAt(x', z'))
      ensures terrainGenerator != null ==> terrainGenerator.elevationLayer != null && terrainGenerator.Serving()
    {
      if mapData != null {
        mapData.SetElevation(x, z, value);
      }
    }

    /** The terrain generator's rebuild of the chunk holding the pixel, which reads the map and leaves it as it was. */
    method RebuildChunk()
      requires MapReady()
      requires terrainGenerator != null && terrainGenerator.elevationLayer != null && terrainGenerator.Serving()
      modifies Chunks()`sharedMesh, ChunkLayers()`tileSize
      ensures MapReady() && terrainGenerator.Serving()
      ensures mapData != null ==> forall x', z' :: mapData.ElevationAt(x', z') == old(mapData.ElevationAt(x', z'))
    {
      ghost var touched := terrainGenerator.TouchedLayers(x, z);
      terrainGenerator.PixelElevationChanged(x, z);
      if mapData != null {
        assert forall l :: l in mapData.Layers() && l !in touched ==> l.tileSize == old(l.tileSize);
        LayersKept(mapData);
      }
    }

    /** The `fuelCode` getter: like `elevation`, with 98 (no fuel) without a map. */
    method FuelCode() returns (c: Int16)
      requires MapReady()
      modifies this`fuelCodeCache, FuelCodeLayers()`tileSize
      ensures MapReady() && fuelCodeCache == Some(c)
      ensures old(fuelCodeCache).Some? ==> c == old(fuelCodeCache).value && unchanged(FuelCodeLayers())
      ensures old(fuelCodeCache).None? && mapData == null ==> c == NoFuel
      ensures old(fuelCodeCache).None? && mapData != null ==> c == mapData.FuelCodeAt(x, z)
    {
      if fuelCodeCache.None? {
        var v := NoFuel;
        if mapData != null {
          v := mapData.GetFuelCode(x, z);
        }
        fuelCodeCache := Some(v);
      }
      c := fuelCodeCache.value;
    }

    /**
     * The `fuelCode` setter: caches the value and writes it into the map. The
     * generator's fuel hook is empty, and the slope cache is kept.
     */
    method SetFuelCode(value: Int16)
      requires MapReady()
      modifies this`fuelCodeCache, FuelCodeLayers()`tileSize, FuelCodeLayers()`tiles
      ensures MapReady()
      ensures fuelCodeCache == Some(value) && slopeCache == old(slopeCache) && elevationCache == old(elevationCache)
      ensures mapData != null && mapData.fuelCodeLayer != null ==> mapData.FuelCodeAt(x, z) == value
      ensures mapData != null ==> forall x', z' :: (x' != x || z' != z) ==> mapData.FuelCodeAt(x', z') == old(mapData.FuelCodeAt(x', z'))
      ensures mapData != null ==> forall x', z' :: mapData.ElevationAt(x', z') == old(mapData.ElevationAt(x', z'))
    {
      fuelCodeCache := Some(value);
      if mapData != null {
        mapData.SetFuelCode(x, z, value);
      }
    }

    /** The slope `ComputeSlope` finds in the current map: 0 without one. */
    ghost function NeighbourSlope(steepness: real -> real): real
      requires MapReady()
      reads this, mapData, if mapData == null then {} else mapData.Layers()
    {
      if mapData == null then 0.0
      else SlopeFrom(steepness, mapData.ElevationAt(x, z - 1), mapData.ElevationAt(x - 1, z),
                     mapData.ElevationAt(x + 1, z), mapData.ElevationAt(x, z + 1))
    }

    /**
     * `ComputeSlope`: 0 without a map, otherwise the slope from exactly the
     * four neighbours (x, z-1), (x-1, z), (x+1, z) and (x, z+1).
     */
    method ComputeSlope(steepness: real -> real) returns (s: real)
      requires MapReady()
      modifies ElevationLayers()`tileSize
      ensures MapReady() && s == NeighbourSlope(steepness)
    {
      if mapData == null {
        return 0.0;
      }
      var top := mapData.GetElevation(x, z - 1);
      var left := mapData.GetElevation(x - 1, z);
      var right := mapData.GetElevation(x + 1, z);
      var bottom := mapData.GetElevation(x, z + 1);
      s := SlopeFrom(steepness, top, left, right, bottom);
    }

    /** The `slope` getter: computed on the first read and cached until the elevation is set. */
    method Slope(steepness: real -> real) returns (s: real)
      requires MapReady()
      modifies this`slopeCache, ElevationLayers()`tileSize
      ensures MapReady() && slopeCache == Some(s)
      ensures old(slopeCache).Some? ==> s == old(slopeCache).value && unchanged(ElevationLayers())
      ensures old(slopeCache).None? ==> s == NeighbourSlope(steepness)
    {
      if slopeCache.None? {
        var v := ComputeSlope(steepness);
        slopeCache := Some(v);
      }
      s := slopeCache.value;
    }

    /** `position`: the world position of the pixel at its (cached) elevation. */
    method Position() returns (p: Vector3)
      requires MapReady()
      modifies this`elevationCache, ElevationLayers()`tileSize
      ensures MapReady() && elevationCache.Some?
      ensures p == PixelToWorld(x, z, elevationCache.value as real)
      ensures p.x == x as real && p.z == -(z as real) && p.y * MetersPerWorldUnit == elevationCache.value as real
    {
      var e := Elevation();
      p := PixelToWorld(x, z, e as real);
    }
  }
}
