/**
 * `TerrainGenerator`: cuts the map into chunks of one effective tile size,
 * builds one `TerrainTile` per chunk, and rebuilds a chunk's mesh when one of
 * its pixels changes height.
 */
module TerrainBuild {
  import opened Wrappers
  import opened Numeric
  import opened GeoTransform
  import opened Raster
  import opened MapStore
  import opened FuelCatalog
  import opened TerrainMesh

  /**
   * The size the generator counts chunks in: the map's tile size when it is
   * positive, else the elevation layer's positive size, else 122. Without a
   * positive map size this is the size every chunk picks for itself.
   */
  function EffectiveTileSize(mapTileSize: int, layerTileSize: Option<int>): (ts: int)
    ensures ts > 0
    ensures mapTileSize > 0 ==> ts == mapTileSize
    ensures mapTileSize <= 0 ==> ts == ChunkTileSize(layerTileSize)
  {
    if mapTileSize > 0 then mapTileSize
    else if layerTileSize.Some? && layerTileSize.value > 0 then layerTileSize.value
    else LegacyTileSize
  }

  /**
   * `Mathf.Max(1, Mathf.CeilToInt(width / (float)ts))`: the number of chunks
   * along one axis. At least one, and for a positive width just enough chunks
   * to cover it, the last one holding at least one pixel.
   */
  function TileCount(width: int, ts: int): (n: int)
    requires ts > 0
    ensures n >= 1
    ensures width > 0 ==> (n - 1) * ts < width <= n * ts
    ensures width <= ts ==> n == 1
  {
    var c := CeilQuotient(width, ts);
    assert width <= ts ==> c <= 1 by {
      if width <= ts && c > 1 {
        MulMonotone(1, c - 1, ts);
      }
    }
    Max(1, c)
  }

  /** Every pixel of a positive width lies in one of the counted chunks. */
  lemma ChunksCoverWidth(width: int, ts: int, v: int)
    requires ts > 0 && 0 <= v < width
    ensures 0 <= TileOf(v, ts) < TileCount(width, ts)
  {
    var t := TileOf(v, ts);
    var n := TileCount(width, ts);
    if t < 0 {
      MulMonotone(t + 1, 0, ts);
    }
    if t >= n {
      MulMonotone(n, t, ts);
    }
  }

  /**
   * Every counted chunk starts inside the map, so the mesh extent of a built
   * chunk is never the one-pixel fallback for a chunk past the edge.
   */
  lemma ChunkStartsInside(width: int, ts: int, t: int)
    requires ts > 0 && width > 0 && 0 <= t < TileCount(width, ts)
    ensures width - t * ts > 0
  {
    MulMonotone(t, TileCount(width, ts) - 1, ts);
  }

  /**
   * `Mathf.FloorToInt(v / (float)ts)` for the routing key. A zero size gives an
   * infinite or undefined quotient, which converts to `int.MinValue`.
   */
  function KeyAxis(v: int, ts: int): (k: int)
    ensures ts > 0 ==> k == TileOf(v, ts)
    ensures ts == 0 ==> k == Int32Min
    ensures ts != 0 ==> k as real <= v as real / ts as real < k as real + 1.0
  {
    if ts == 0 then Int32Min
    else if ts > 0 then TileOf(v, ts)
    else FloorToInt(v as real / ts as real)
  }

  /**
   * What the chunks are built from: the layers are well formed, a positive map
   * tile size fits them, and every fuel lookup is safe.
   */
  ghost predicate CanBuild(mapTileSize: int, elevationLayer: RasterLayer?, fuelCodeLayer: RasterLayer?, fuelCodeSet: FuelCodeSet?)
    reads elevationLayer, fuelCodeLayer, fuelCodeSet
    reads if fuelCodeSet == null then {} else set i | 0 <= i < |fuelCodeSet.fuelCodes| :: fuelCodeSet.fuelCodes[i]
  {
    (elevationLayer != null ==>
       elevationLayer.Valid() && (mapTileSize > 0 ==> FitsTileSize(elevationLayer, mapTileSize))) &&
    (fuelCodeLayer != null ==>
       fuelCodeLayer.Valid() && (mapTileSize > 0 ==> FitsTileSize(fuelCodeLayer, mapTileSize))) &&
    (fuelCodeSet != null ==> forall id: Int16 :: ScanSafe(fuelCodeSet.fuelCodes, id, 0))
  }

  class TerrainGenerator {
    var mapData: MapData?
    var elevationLayer: RasterLayer?
    var fuelCodeLayer: RasterLayer?
    var fuelCodeSet: FuelCodeSet?
    /** The game manager's wind and moisture, `None` without a game manager. */
    const weather: Option<Weather>
    /** The game manager's fuel manager's set; null without either of them. */
    const managerFuelCodeSet: FuelCodeSet?
    const conv: HsvConversion
    var tiles: map<Coord, TerrainTile>

    constructor (mapData: MapData?, elevationLayer: RasterLayer?, fuelCodeLayer: RasterLayer?, fuelCodeSet: FuelCodeSet?,
                 weather: Option<Weather>, managerFuelCodeSet: FuelCodeSet?, conv: HsvConversion)
      ensures this.mapData == mapData && this.elevationLayer == elevationLayer && this.fuelCodeLayer == fuelCodeLayer
      ensures this.fuelCodeSet == fuelCodeSet && this.weather == weather
      ensures this.managerFuelCodeSet == managerFuelCodeSet && this.conv == conv
      ensures tiles == map[]
    {
      this.mapData := mapData;
      this.elevationLayer := elevationLayer;
      this.fuelCodeLayer := fuelCodeLayer;
      this.fuelCodeSet := fuelCodeSet;
      this.weather := weather;
      this.managerFuelCodeSet := managerFuelCodeSet;
      this.conv := conv;
      tiles := map[];
    }

    /** The map data, as a set for frames. */
    ghost function MapDatas(): set<MapData>
      reads this
    {
      if mapData == null then {} else {mapData}
    }

    /** The layers a build may resize: the elevation layer and the map's fuel-code layer. */
    ghost function BuildLayers(): set<RasterLayer>
      reads this, mapData
    {
      (if elevationLayer == null then {} else {elevationLayer}) +
      (if mapData == null || mapData.fuelCodeLayer == null then {} else {mapData.fuelCodeLayer})
    }

    /** The elevation layer's stored tile size, when there is a layer. */
    function LayerTileSize(): Option<int>
      reads this, elevationLayer
    {
      if elevationLayer == null then None else Some(elevationLayer.tileSize)
    }

    /** The size chunks are counted in. */
    function ChunkSize(): (ts: int)
      requires mapData != null
      reads this, mapData, elevationLayer
      ensures ts > 0
    {
      EffectiveTileSize(mapData.tileSize, LayerTileSize())
    }

    /**
     * The chunk map after a build: one chunk per key of `[0, xCount) x [0, zCount)`
     * and no other, each made at its own key from this generator's layers, map,
     * fuel set and weather, and sized like the count when there is an
     * elevation layer (122 without one).
     */
    ghost predicate Built()
      requires mapData != null
      reads this, mapData, elevationLayer
    {
      (forall k :: k in tiles <==> 0 <= k.x < mapData.xCount && 0 <= k.z < mapData.zCount) &&
      (forall k :: k in tiles ==> Made(tiles[k], k)) &&
      (forall k :: k in tiles ==> tiles[k].tileSize == if elevationLayer == null then LegacyTileSize else ChunkSize())
    }

    /** Chunk `t` was made at key `k` from this generator's references. */
    ghost predicate Made(t: TerrainTile, k: Coord)
      reads this, mapData
      requires mapData != null
    {
      t.tileX == k.x && t.tileZ == k.z && t.elevationLayer == elevationLayer &&
      t.fuelCodeLayer == mapData.fuelCodeLayer && t.mapData == mapData &&
      t.fuelCodeSet == fuelCodeSet && t.weather == weather && t.conv == conv
    }

    /** The size of the chunks the generator serves: the elevation layer's, or 122 without one. */
    function ServedSize(): (n: int)
      reads this, elevationLayer
      ensures n > 0
    {
      if elevationLayer == null then LegacyTileSize else elevationLayer.Size()
    }

    /**
     * The generator can serve height changes: every chunk was made at its key
     * from this generator's references and has the served size, and the shared
     * layers and fuel set fit that size.
     */
    ghost predicate Serving()
      reads this, mapData, elevationLayer, if mapData == null then {} else {mapData.fuelCodeLayer}, fuelCodeSet
      reads if fuelCodeSet == null then {} else set i | 0 <= i < |fuelCodeSet.fuelCodes| :: fuelCodeSet.fuelCodes[i]
    {
      mapData != null &&
      (forall k :: k in tiles ==> Made(tiles[k], k) && tiles[k].tileSize == ServedSize()) &&
      Fits(elevationLayer, mapData.fuelCodeLayer, fuelCodeSet, ServedSize())
    }

    /**
     * The fallbacks at the start of `BuildAllTilesImmediate`: a missing map is
     * the scene's, missing layers are the map's, and a missing fuel set is the
     * game manager's.
     */
    method ApplyFallbacks(sceneMapData: MapData?)
      modifies this`mapData, this`elevationLayer, this`fuelCodeLayer, this`fuelCodeSet
      ensures mapData == if old(mapData) == null then sceneMapData else old(mapData)
      ensures elevationLayer == if old(elevationLayer) == null && mapData != null then mapData.elevationLayer else old(elevationLayer)
      ensures fuelCodeLayer == if old(fuelCodeLayer) == null && mapData != null then mapData.fuelCodeLayer else old(fuelCodeLayer)
      ensures fuelCodeSet == if old(fuelCodeSet) == null then managerFuelCodeSet else old(fuelCodeSet)
    {
      if mapData == null {
        mapData := sceneMapData;
      }
      if elevationLayer == null && mapData != null {
        elevationLayer := mapData.elevationLayer;
      }
      if fuelCodeLayer == null && mapData != null {
        fuelCodeLayer := mapData.fuelCodeLayer;
      }
      if fuelCodeSet == null {
        fuelCodeSet := managerFuelCodeSet;
      }
    }

    /**
     * `BuildAllTilesImmediate`, after the fallbacks. Without map data nothing
     * happens. A positive map tile size is written into both layers. With an
     * empty width or height nothing more happens; otherwise the counts are
     * recomputed and the chunk map is rebuilt from scratch.
     */
    method BuildTiles()
      requires mapData != null ==> CanBuild(mapData.tileSize, elevationLayer, mapData.fuelCodeLayer, fuelCodeSet)
      modifies this`tiles, MapDatas()`xCount, MapDatas()`zCount, BuildLayers()`tileSize
      ensures mapData == null ==> tiles == old(tiles)
      ensures mapData != null && mapData.tileSize > 0 ==>
                forall l :: l in BuildLayers() ==> l.tileSize == mapData.tileSize
      ensures mapData != null && (mapData.xWidth <= 0 || mapData.zWidth <= 0) ==>
                tiles == old(tiles) && mapData.xCount == old(mapData.xCount) && mapData.zCount == old(mapData.zCount)
      ensures mapData != null && mapData.xWidth > 0 && mapData.zWidth > 0 ==>
                mapData.xCount == TileCount(mapData.xWidth, ChunkSize()) &&
                mapData.zCount == TileCount(mapData.zWidth, ChunkSize()) &&
                Built() && Serving() && (forall k :: k in tiles ==> fresh(tiles[k])) &&
                (forall k, k' :: k in tiles && k' in tiles && k != k' ==> tiles[k] != tiles[k'])
    {
      if mapData == null {
        return;
      }
      var md := mapData;
      var ts := SyncTileSize();
      if md.xWidth <= 0 || md.zWidth <= 0 {
        return;
      }
      md.xCount := TileCount(md.xWidth, ts);
      md.zCount := TileCount(md.zWidth, ts);
      // The counts are at least one, so the source's guard against empty counts never fires.
      BuildChunks(md, elevationLayer, md.fuelCodeLayer, ts, md.xCount, md.zCount);
    }

    /**
     * The effective tile size; a positive map tile size is written into the
     * elevation layer and the map's fuel-code layer.
     */
    method SyncTileSize() returns (ts: int)
      requires mapData != null && CanBuild(mapData.tileSize, elevationLayer, mapData.fuelCodeLayer, fuelCodeSet)
      modifies BuildLayers()`tileSize
      ensures ts == EffectiveTileSize(mapData.tileSize, old(LayerTileSize())) && ts == ChunkSize()
      ensures CanBuild(mapData.tileSize, elevationLayer, mapData.fuelCodeLayer, fuelCodeSet)
      ensures elevationLayer != null ==> elevationLayer.Size() == ts
      ensures mapData.tileSize > 0 ==> forall l :: l in BuildLayers() ==> l.tileSize == mapData.tileSize
      ensures mapData.tileSize <= 0 ==> forall l :: l in BuildLayers() ==> l.tileSize == old(l.tileSize)
    {
      var el := elevationLayer;
      var fl := mapData.fuelCodeLayer;
      ts := EffectiveTileSize(mapData.tileSize, LayerTileSize());
      if mapData.tileSize > 0 {
        ts := mapData.tileSize;
        if el != null {
          el.SetTileSize(ts);
        }
        if fl != null {
          fl.SetTileSize(ts);
        }
      }
    }

    /** The nested loops over `[0, xCount) x [0, zCount)` that create the chunks. */
    method BuildChunks(md: MapData, el: RasterLayer?, fl: RasterLayer?, ts: int, xCount: int, zCount: int)
      requires md == mapData && el == elevationLayer && fl == md.fuelCodeLayer && md.xCount == xCount && md.zCount == zCount
      requires CanBuild(md.tileSize, el, fl, fuelCodeSet) && ts == ChunkSize() && (el != null ==> el.Size() == ts)
      requires md.tileSize > 0 ==> forall l :: l in BuildLayers() ==> l.tileSize == md.tileSize
      requires xCount >= 1 && zCount >= 1
      modifies this`tiles, BuildLayers()`tileSize
      ensures forall l :: l in BuildLayers() ==> l.Size() == old(l.Size()) && (md.tileSize > 0 ==> l.tileSize == md.tileSize)
      ensures CanBuild(md.tileSize, el, fl, fuelCodeSet) && ChunkSize() == ts && (el != null ==> el.Size() == ts)
      ensures forall k :: k in tiles <==> 0 <= k.x < xCount && 0 <= k.z < zCount
      ensures forall k :: k in tiles ==> Made(tiles[k], k) && fresh(tiles[k])
      ensures forall k :: k in tiles ==> tiles[k].tileSize == if el == null then LegacyTileSize else ts
      ensures forall k, k' :: k in tiles && k' in tiles && k != k' ==> tiles[k] != tiles[k']
      ensures Built() && Serving()
    {
      tiles := map[];
      var tx := 0;
      while tx < xCount
        invariant 0 <= tx <= xCount
        invariant CanBuild(md.tileSize, el, fl, fuelCodeSet) && ChunkSize() == ts && (el != null ==> el.Size() == ts)
        invariant forall l :: l in BuildLayers() ==> l.Size() == old(l.Size()) && (md.tileSize > 0 ==> l.tileSize == md.tileSize)
        invariant forall k :: k in tiles <==> 0 <= k.x < tx && 0 <= k.z < zCount
        invariant forall k :: k in tiles ==> Made(tiles[k], k) && fresh(tiles[k])
        invariant forall k :: k in tiles ==> tiles[k].tileSize == if el == null then LegacyTileSize else ts
        invariant forall k, k' :: k in tiles && k' in tiles && k != k' ==> tiles[k] != tiles[k']
      {
        BuildColumn(md, el, fl, ts, tx, zCount);
        tx := tx + 1;
      }
    }

    /** The inner loop: the chunks `(tx, 0)` .. `(tx, zCount - 1)`. */
    method BuildColumn(md: MapData, el: RasterLayer?, fl: RasterLayer?, ts: int, tx: int, zCount: int)
      requires md == mapData && el == elevationLayer && fl == md.fuelCodeLayer
      requires CanBuild(md.tileSize, el, fl, fuelCodeSet) && ts == ChunkSize() && (el != null ==> el.Size() == ts)
      requires md.tileSize > 0 ==> forall l :: l in BuildLayers() ==> l.tileSize == md.tileSize
      requires zCount >= 1 && tx >= 0
      requires forall k :: k in tiles <==> 0 <= k.x < tx && 0 <= k.z < zCount
      requires forall k :: k in tiles ==> tiles[k].tileSize == if el == null then LegacyTileSize else ts
      modifies this`tiles, BuildLayers()`tileSize
      ensures CanBuild(md.tileSize, el, fl, fuelCodeSet) && ChunkSize() == ts && (el != null ==> el.Size() == ts)
      ensures forall l :: l in BuildLayers() ==> l.Size() == old(l.Size()) && (md.tileSize > 0 ==> l.tileSize == md.tileSize)
      ensures forall k :: k in tiles <==> 0 <= k.x < tx + 1 && 0 <= k.z < zCount
      ensures forall k :: k in old(tiles) ==> k in tiles && tiles[k] == old(tiles)[k]
      ensures forall k :: k in tiles && k !in old(tiles) ==> Made(tiles[k], k) && fresh(tiles[k])
      ensures forall k :: k in tiles ==> tiles[k].tileSize == if el == null then LegacyTileSize else ts
      ensures forall k, k' :: k in tiles && k' in tiles && k !in old(tiles) && k != k' ==> tiles[k] != tiles[k']
    {
      var tz := 0;
      while tz < zCount
        invariant 0 <= tz <= zCount
        invariant CanBuild(md.tileSize, el, fl, fuelCodeSet) && ChunkSize() == ts && (el != null ==> el.Size() == ts)
        invariant forall l :: l in BuildLayers() ==> l.Size() == old(l.Size()) && (md.tileSize > 0 ==> l.tileSize == md.tileSize)
        invariant forall k :: k in tiles <==> (0 <= k.x < tx && 0 <= k.z < zCount) || (k.x == tx && 0 <= k.z < tz)
        invariant forall k :: k in old(tiles) ==> k in tiles && tiles[k] == old(tiles)[k]
        invariant forall k :: k in tiles && k !in old(tiles) ==> Made(tiles[k], k) && fresh(tiles[k])
        invariant forall k :: k in tiles ==> tiles[k].tileSize == if el == null then LegacyTileSize else ts
        invariant forall k, k' :: k in tiles && k' in tiles && k !in old(tiles) && k != k' ==> tiles[k] != tiles[k']
      {
        var key := Coord(tx, tz);
        if key !in tiles {
          AddChunk(md, el, fl, ts, key);
        }
        tz := tz + 1;
      }
    }

    /** `tiles[key] = new TerrainTile(key.x, key.z, ...)`: a new chunk at a free key, the build's facts kept. */
    method AddChunk(md: MapData, el: RasterLayer?, fl: RasterLayer?, ts: int, key: Coord)
      requires md == mapData && el == elevationLayer && fl == md.fuelCodeLayer && key !in tiles
      requires CanBuild(md.tileSize, el, fl, fuelCodeSet) && ts == ChunkSize() && (el != null ==> el.Size() == ts)
      requires md.tileSize > 0 ==> forall l :: l in BuildLayers() ==> l.tileSize == md.tileSize
      modifies this`tiles, BuildLayers()`tileSize
      ensures key in tiles && tiles == old(tiles)[key := tiles[key]]
      ensures fresh(tiles[key]) && Made(tiles[key], key)
      ensures tiles[key].tileSize == if el == null then LegacyTileSize else ts
      ensures CanBuild(md.tileSize, el, fl, fuelCodeSet) && ChunkSize() == ts && (el != null ==> el.Size() == ts)
      ensures forall l :: l in BuildLayers() ==> l.Size() == old(l.Size()) && (md.tileSize > 0 ==> l.tileSize == md.tileSize)
    {
      var tile := NewChunk(md, el, fl, ts, key);
      tiles := tiles[key := tile];
    }

    /** `new TerrainTile(key.x, key.z, ...)`: the chunk, and the build's facts kept. */
    method NewChunk(md: MapData, el: RasterLayer?, fl: RasterLayer?, ts: int, key: Coord) returns (tile: TerrainTile)
      requires md == mapData && el == elevationLayer && fl == md.fuelCodeLayer
      requires CanBuild(md.tileSize, el, fl, fuelCodeSet) && ts == ChunkSize() && (el != null ==> el.Size() == ts)
      requires md.tileSize > 0 ==> forall l :: l in BuildLayers() ==> l.tileSize == md.tileSize
      modifies BuildLayers()`tileSize
      ensures fresh(tile) && Made(tile, key)
      ensures tile.tileSize == if el == null then LegacyTileSize else ts
      ensures CanBuild(md.tileSize, el, fl, fuelCodeSet) && ChunkSize() == ts && (el != null ==> el.Size() == ts)
      ensures forall l :: l in BuildLayers() ==> l.Size() == old(l.Size()) && (md.tileSize > 0 ==> l.tileSize == md.tileSize)
    {
      tile := new TerrainTile(key.x, key.z, el, fl, md, weather, fuelCodeSet, conv);
    }

    /** The map data after the fallbacks, given the scene's. */
    ghost function ResolvedMap(sceneMapData: MapData?): MapData?
      reads this
    {
      if mapData == null then sceneMapData else mapData
    }

    /** The elevation layer after the fallbacks. */
    ghost function ResolvedElevation(sceneMapData: MapData?): RasterLayer?
      reads this, ResolvedMap(sceneMapData)
    {
      var md := ResolvedMap(sceneMapData);
      if elevationLayer == null && md != null then md.elevationLayer else elevationLayer
    }

    /** The fuel set after the fallbacks. */
    ghost function ResolvedFuelSet(): FuelCodeSet?
      reads this
    {
      if fuelCodeSet == null then managerFuelCodeSet else fuelCodeSet
    }

    /** The layers a build after the fallbacks may resize. */
    ghost function ResolvedLayers(sceneMapData: MapData?): set<RasterLayer>
      reads this, ResolvedMap(sceneMapData)
    {
      var md := ResolvedMap(sceneMapData);
      var el := ResolvedElevation(sceneMapData);
      (if el == null then {} else {el}) + (if md == null || md.fuelCodeLayer == null then {} else {md.fuelCodeLayer})
    }

    /**
     * `BuildAllTilesImmediate`: the fallbacks, then the build. `sceneMapData`
     * is what a scene search for map data finds.
     */
    method BuildAllTilesImmediate(sceneMapData: MapData?)
      requires var md := ResolvedMap(sceneMapData);
               md != null ==> CanBuild(md.tileSize, ResolvedElevation(sceneMapData), md.fuelCodeLayer, ResolvedFuelSet())
      modifies this, (if ResolvedMap(sceneMapData) == null then {} else {ResolvedMap(sceneMapData)})`xCount,
               (if ResolvedMap(sceneMapData) == null then {} else {ResolvedMap(sceneMapData)})`zCount,
               ResolvedLayers(sceneMapData)`tileSize
      ensures mapData == old(ResolvedMap(sceneMapData)) && elevationLayer == old(ResolvedElevation(sceneMapData))
      ensures fuelCodeSet == old(ResolvedFuelSet())
      ensures fuelCodeLayer == if old(fuelCodeLayer) == null && mapData != null then mapData.fuelCodeLayer else old(fuelCodeLayer)
      ensures mapData == null ==> tiles == old(tiles)
      ensures mapData != null && mapData.tileSize > 0 ==>
                forall l :: l in BuildLayers() ==> l.tileSize == mapData.tileSize
      ensures mapData != null && (mapData.xWidth <= 0 || mapData.zWidth <= 0) ==>
                tiles == old(tiles) && mapData.xCount == old(ResolvedMap(sceneMapData).xCount) &&
                mapData.zCount == old(ResolvedMap(sceneMapData).zCount)
      ensures mapData != null && mapData.xWidth > 0 && mapData.zWidth > 0 ==>
                mapData.xCount == TileCount(mapData.xWidth, ChunkSize()) &&
                mapData.zCount == TileCount(mapData.zWidth, ChunkSize()) &&
                Built() && Serving() && (forall k :: k in tiles ==> fresh(tiles[k])) &&
                (forall k, k' :: k in tiles && k' in tiles && k != k' ==> tiles[k] != tiles[k'])
    {
      ApplyFallbacks(sceneMapData);
      BuildTiles();
    }

    /** The key `PixelElevationChanged` routes pixel (x, z) to, by the elevation layer's stored tile size. */
    function PixelKey(x: int, z: int): (k: Coord)
      requires elevationLayer != null
      reads this, elevationLayer
      ensures elevationLayer.tileSize > 0 ==> k == elevationLayer.TileKey(x, z)
      ensures elevationLayer.tileSize == 0 ==> k == Coord(Int32Min, Int32Min)
    {
      Coord(KeyAxis(x, elevationLayer.tileSize), KeyAxis(z, elevationLayer.tileSize))
    }

    /** The chunk a height change at (x, z) rebuilds, if there is one. */
    ghost function Touched(x: int, z: int): set<TerrainTile>
      requires elevationLayer != null
      reads this, elevationLayer
    {
      if PixelKey(x, z) in tiles then {tiles[PixelKey(x, z)]} else {}
    }

    /** The layers that chunk reads. */
    ghost function TouchedLayers(x: int, z: int): set<RasterLayer>
      requires elevationLayer != null
      reads this, elevationLayer
    {
      if PixelKey(x, z) in tiles then tiles[PixelKey(x, z)].Layers() else {}
    }

    /**
     * `PixelElevationChanged`: rebuilds the mesh of the chunk holding the
     * pixel, and nothing when no chunk has that key; no other chunk changes.
     */
    method PixelElevationChanged(x: int, z: int)
      requires elevationLayer != null && Serving()
      modifies Touched(x, z)`sharedMesh, TouchedLayers(x, z)`tileSize
      ensures Serving() && ServedSize() == old(ServedSize())
      ensures forall l :: l in old(TouchedLayers(x, z)) ==> l.Size() == old(l.Size())
      ensures old(PixelKey(x, z)) in tiles ==>
                var t := tiles[old(PixelKey(x, z))];
                t.Ready() && t.IsMesh(t.sharedMesh, t.Heights(), t.Fuels())
    {
      var key := PixelKey(x, z);
      if key in tiles {
        var tile := tiles[key];
        assert Made(tile, key);
        tile.BuildMesh();
      }
    }

    /**
     * After a build, with the elevation layer's size the one the chunks were
     * counted in, every pixel of the map routes to a built chunk.
     */
    lemma PixelRoutesToBuiltChunk(x: int, z: int)
      requires mapData != null && elevationLayer != null && Built()
      requires elevationLayer.tileSize > 0 && elevationLayer.tileSize == ChunkSize()
      requires mapData.xCount == TileCount(mapData.xWidth, ChunkSize())
      requires mapData.zCount == TileCount(mapData.zWidth, ChunkSize())
      requires 0 <= x < mapData.xWidth && 0 <= z < mapData.zWidth
      ensures PixelKey(x, z) in tiles && tiles[PixelKey(x, z)].tileX == PixelKey(x, z).x
    {
      ChunksCoverWidth(mapData.xWidth, ChunkSize(), x);
      ChunksCoverWidth(mapData.zWidth, ChunkSize(), z);
    }
  }
}
