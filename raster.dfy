/**
 * A tiled raster of 16-bit values: the elevation layer (metres, default 0) and
 * the fuel-code layer (GIS fuel codes, default 98 "no fuel"). Pixels live in
 * square tiles that are allocated on first write; a pixel in a tile that was
 * never allocated reads as the layer's default value.
 */
module Raster {
  import opened Numeric
  import opened GeoTransform

  /** The elevation a pixel has before anything is written to it. */
  const DefaultElevation: Int16 := 0
  /** Fuel code 98: no fuel. */
  const NoFuel: Int16 := 98

  /** Road fuel codes (7296..7299). */
  predicate IsRoad(fuelCode: Int16) {
    fuelCode == 7299 || fuelCode == 7298 || fuelCode == 7297 || fuelCode == 7296
  }

  /** Urban fuel codes (7296..7298). */
  predicate IsUrban(fuelCode: Int16) {
    fuelCode == 7298 || fuelCode == 7297 || fuelCode == 7296
  }

  /** Water fuel codes (91 and 7292). */
  predicate IsWater(fuelCode: Int16) {
    fuelCode == 91 || fuelCode == 7292
  }

  /** Every urban code is also a road code, so a road test placed first hides the urban one. */
  lemma UrbanIsRoad(fuelCode: Int16)
    ensures IsUrban(fuelCode) ==> IsRoad(fuelCode)
    ensures IsRoad(fuelCode) && !IsUrban(fuelCode) <==> fuelCode == 7299
  {
  }

  /** No fuel, roads and water are three disjoint categories. */
  lemma CategoriesDisjoint(fuelCode: Int16)
    ensures !(IsRoad(fuelCode) && IsWater(fuelCode))
    ensures fuelCode == NoFuel ==> !IsRoad(fuelCode) && !IsWater(fuelCode)
  {
  }

  /** The tile size a layer uses for a stored `tileSize` of `n`: a non-positive size falls back to 122. */
  function SizeFor(n: int): (size: int)
    ensures size > 0 && (n > 0 ==> size == n)
  {
    if n <= 0 then LegacyTileSize else n
  }

  /** A tile: `n` rows of `n` values, indexed by the local x offset and then the local z offset. */
  type Tile = seq<seq<Int16>>

  predicate IsTile(t: Tile, n: int) {
    |t| == n && forall i :: 0 <= i < |t| ==> |t[i]| == n
  }

  /** Every stored tile is `n` square. */
  predicate TilesFit(tiles: map<Coord, Tile>, n: int) {
    forall k :: k in tiles ==> IsTile(tiles[k], n)
  }

  /** A tile holding `d` everywhere, what a layer allocates on a first write. */
  function Blank(n: nat, d: Int16): (t: Tile)
    ensures IsTile(t, n) && forall i, j :: 0 <= i < n && 0 <= j < n ==> t[i][j] == d
  {
    seq(n, _ => seq(n, _ => d))
  }

  /** The value pixel (x, z) has in `tiles` of size `n`, `d` where its tile is missing. */
  function Read(tiles: map<Coord, Tile>, n: int, d: Int16, x: int, z: int): Int16
    requires n > 0 && TilesFit(tiles, n)
  {
    var key := Coord(TileOf(x, n), TileOf(z, n));
    if key in tiles then tiles[key][LocalOf(x, n)][LocalOf(z, n)] else d
  }

  /** The tiles after pixel (x, z) is set to `v`: its tile is allocated blank if missing, then the one cell changes. */
  function Write(tiles: map<Coord, Tile>, n: int, d: Int16, x: int, z: int, v: Int16): (r: map<Coord, Tile>)
    requires n > 0 && TilesFit(tiles, n)
    ensures TilesFit(r, n) && r.Keys == tiles.Keys + {Coord(TileOf(x, n), TileOf(z, n))}
  {
    var key := Coord(TileOf(x, n), TileOf(z, n));
    var tile := if key in tiles then tiles[key] else Blank(n, d);
    var lx, lz := LocalOf(x, n), LocalOf(z, n);
    tiles[key := tile[lx := tile[lx][lz := v]]]
  }

  /** A write changes exactly its own pixel, to the written value. */
  lemma ReadAfterWrite(tiles: map<Coord, Tile>, n: int, d: Int16, x: int, z: int, v: Int16, x': int, z': int)
    requires n > 0 && TilesFit(tiles, n)
    ensures Read(Write(tiles, n, d, x, z, v), n, d, x', z') == if x' == x && z' == z then v else Read(tiles, n, d, x', z')
  {
    if Coord(TileOf(x', n), TileOf(z', n)) == Coord(TileOf(x, n), TileOf(z, n)) &&
       LocalOf(x', n) == LocalOf(x, n) && LocalOf(z', n) == LocalOf(z, n) {
      SameSplitSamePixel(x', x, n);
      SameSplitSamePixel(z', z, n);
    }
  }

  /** One pixel write into a layer. */
  datatype Cell = Cell(x: int, z: int, value: Int16)

  /** What pixel (x, z) reads after `writes` are applied in order over the value `base`. */
  function Overlay(writes: seq<Cell>, base: Int16, x: int, z: int): Int16 {
    if writes == [] then base
    else
      var c := writes[|writes| - 1];
      if c.x == x && c.z == z then c.value else Overlay(writes[..|writes| - 1], base, x, z)
  }

  /** One more write: it decides its own pixel and leaves the others to the earlier writes. */
  lemma OverlayAppend(writes: seq<Cell>, c: Cell, base: Int16, x: int, z: int)
    ensures Overlay(writes + [c], base, x, z) == if c.x == x && c.z == z then c.value else Overlay(writes, base, x, z)
  {
    assert (writes + [c])[..|writes|] == writes;
  }

  /** A pixel that no write targets keeps its value. */
  lemma {:induction false} OverlayUntouched(writes: seq<Cell>, base: Int16, x: int, z: int)
    requires forall i :: 0 <= i < |writes| ==> writes[i].x != x || writes[i].z != z
    ensures Overlay(writes, base, x, z) == base
  {
    if writes != [] {
      OverlayUntouched(writes[..|writes| - 1], base, x, z);
    }
  }

  /** A targeted pixel reads the value of the last write to it. */
  lemma {:induction false} OverlayLatest(writes: seq<Cell>, base: Int16, i: nat)
    requires i < |writes|
    requires forall j :: i < j < |writes| ==> writes[j].x != writes[i].x || writes[j].z != writes[i].z
    ensures Overlay(writes, base, writes[i].x, writes[i].z) == writes[i].value
  {
    if i < |writes| - 1 {
      OverlayLatest(writes[..|writes| - 1], base, i);
    }
  }

  /** The tiles after `writes` are applied in order through `Write`. */
  function WriteAll(tiles: map<Coord, Tile>, n: int, d: Int16, writes: seq<Cell>): (r: map<Coord, Tile>)
    requires n > 0 && TilesFit(tiles, n)
    ensures TilesFit(r, n) && tiles.Keys <= r.Keys
  {
    if writes == [] then tiles
    else
      var c := writes[|writes| - 1];
      Write(WriteAll(tiles, n, d, writes[..|writes| - 1]), n, d, c.x, c.z, c.value)
  }

  /** One more write goes through `Write` on top of the earlier ones. */
  lemma WriteAllAppend(tiles: map<Coord, Tile>, n: int, d: Int16, writes: seq<Cell>, c: Cell)
    requires n > 0 && TilesFit(tiles, n)
    ensures WriteAll(tiles, n, d, writes + [c]) == Write(WriteAll(tiles, n, d, writes), n, d, c.x, c.z, c.value)
  {
    assert (writes + [c])[..|writes|] == writes;
  }

  /** A run of writes split in two: the second part goes on top of what the first left. */
  lemma {:induction false} WriteAllConcat(tiles: map<Coord, Tile>, n: int, d: Int16, a: seq<Cell>, b: seq<Cell>)
    requires n > 0 && TilesFit(tiles, n)
    ensures WriteAll(tiles, n, d, a + b) == WriteAll(WriteAll(tiles, n, d, a), n, d, b)
  {
    if b == [] {
      assert a + b == a;
    } else {
      var front := b[..|b| - 1];
      var c := b[|b| - 1];
      assert b == front + [c];
      assert a + b == (a + front) + [c];
      WriteAllConcat(tiles, n, d, a, front);
      WriteAllAppend(tiles, n, d, a + front, c);
      WriteAllAppend(WriteAll(tiles, n, d, a), n, d, front, c);
    }
  }

  /** After a run of writes every pixel reads its last write, or what it read before when no write targets it. */
  lemma {:induction false} ReadAfterWriteAll(tiles: map<Coord, Tile>, n: int, d: Int16, writes: seq<Cell>, x: int, z: int)
    requires n > 0 && TilesFit(tiles, n)
    ensures Read(WriteAll(tiles, n, d, writes), n, d, x, z) == Overlay(writes, Read(tiles, n, d, x, z), x, z)
  {
    if writes != [] {
      var c := writes[|writes| - 1];
      ReadAfterWriteAll(tiles, n, d, writes[..|writes| - 1], x, z);
      ReadAfterWrite(WriteAll(tiles, n, d, writes[..|writes| - 1]), n, d, c.x, c.z, c.value, x, z);
    }
  }

  /** The layer can take tile size `n` without reinterpreting a stored tile. */
  ghost predicate FitsTileSize(layer: RasterLayer, n: int)
    reads layer`tileSize, layer`tiles
  {
    layer.tiles == map[] || SizeFor(n) == layer.Size()
  }

  class RasterLayer {
    /** What an unallocated pixel reads as, and what a fresh tile is filled with. */
    const defaultValue: Int16

    var layerName: string
    var width: int
    var height: int
    var tileSize: int
    var startLongitudeMeter: int
    var startLatitudeMeter: int
    var longitudeMeterStep: int
    var latitudeMeterStep: int

    var tiles: map<Coord, Tile>

    /** The tile size the accessors use: a non-positive size falls back to 122. */
    function Size(): (n: int)
      reads this`tileSize
      ensures n > 0
      ensures tileSize > 0 ==> n == tileSize
    {
      if tileSize <= 0 then LegacyTileSize else tileSize
    }

    /** Every stored tile is `Size()` square. */
    ghost predicate Valid()
      reads this`tileSize, this`tiles
    {
      TilesFit(tiles, Size())
    }

    /** Since the earlier state, tiles were only added. */
    twostate predicate Extends()
      reads this`tiles
    {
      forall k :: k in old(tiles) ==> k in tiles
    }

    /** The key of the tile that holds pixel (x, z). */
    function TileKey(x: int, z: int): Coord
      reads this`tileSize
    {
      Coord(TileOf(x, Size()), TileOf(z, Size()))
    }

    /** The value `GetData` returns for pixel (x, z). */
    function ValueAt(x: int, z: int): Int16
      requires Valid()
      reads this`tileSize, this`tiles
    {
      Read(tiles, Size(), defaultValue, x, z)
    }

    constructor Elevation()
      ensures Valid() && defaultValue == DefaultElevation
      ensures layerName == "" && width == 0 && height == 0 && tiles == map[]
      ensures tileSize == LegacyTileSize && startLongitudeMeter == 0 && startLatitudeMeter == 0
      ensures longitudeMeterStep == DefaultMeterStep && latitudeMeterStep == DefaultMeterStep
    {
      defaultValue := DefaultElevation;
      layerName := "";
      width, height := 0, 0;
      tileSize := LegacyTileSize;
      startLongitudeMeter, startLatitudeMeter := 0, 0;
      longitudeMeterStep, latitudeMeterStep := DefaultMeterStep, DefaultMeterStep;
      tiles := map[];
    }

    constructor FuelCode()
      ensures Valid() && defaultValue == NoFuel
      ensures layerName == "" && width == 0 && height == 0 && tiles == map[]
      ensures tileSize == LegacyTileSize && startLongitudeMeter == 0 && startLatitudeMeter == 0
      ensures longitudeMeterStep == DefaultMeterStep && latitudeMeterStep == DefaultMeterStep
    {
      defaultValue := NoFuel;
      layerName := "";
      width, height := 0, 0;
      tileSize := LegacyTileSize;
      startLongitudeMeter, startLatitudeMeter := 0, 0;
      longitudeMeterStep, latitudeMeterStep := DefaultMeterStep, DefaultMeterStep;
      tiles := map[];
    }

    /** The fallback every accessor applies first: an unset tile size becomes 122. */
    method NormalizeTileSize()
      requires Valid()
      modifies this`tileSize
      ensures Valid()
      ensures tileSize == old(Size()) && Size() == old(Size())
    {
      if tileSize <= 0 {
        tileSize := LegacyTileSize;
      }
    }

    /** A fresh tile of the current size holding the default value everywhere. */
    method NewTile() returns (t: Tile)
      requires tileSize > 0
      ensures t == Blank(tileSize, defaultValue)
    {
      var value := defaultValue;
      var row := seq(tileSize, _ => value);
      t := seq(tileSize, _ => row);
    }

    /** `GetData`: the stored value, or the default where no tile was allocated. */
    method GetData(x: int, z: int) returns (v: Int16)
      requires Valid()
      modifies this`tileSize
      ensures Valid() && tileSize == old(Size())
      ensures v == ValueAt(x, z)
    {
      NormalizeTileSize();
      var key := Coord(TileOf(x, tileSize), TileOf(z, tileSize));
      if key in tiles {
        v := tiles[key][LocalOf(x, tileSize)][LocalOf(z, tileSize)];
      } else {
        v := defaultValue;
      }
    }

    /**
     * `SetData`: allocates the tile if needed and writes one pixel. Exactly
     * that pixel changes; every other pixel of the layer reads as before.
     */
    method SetData(x: int, z: int, value: Int16)
      requires Valid()
      modifies this`tileSize, this`tiles
      ensures Valid() && tileSize == old(Size())
      ensures tiles == Write(old(tiles), tileSize, defaultValue, x, z, value)
      ensures forall x', z' :: ValueAt(x', z') == if x' == x && z' == z then value else old(ValueAt(x', z'))
    {
      NormalizeTileSize();
      var n := tileSize;
      var key := Coord(TileOf(x, n), TileOf(z, n));
      if key !in tiles {
        var blank := NewTile();
        tiles := tiles[key := blank];
      }
      var lx, lz := LocalOf(x, n), LocalOf(z, n);
      var tile := tiles[key];
      tiles := tiles[key := tile[lx := tile[lx][lz := value]]];
      forall x', z' ensures ValueAt(x', z') == if x' == x && z' == z then value else old(ValueAt(x', z')) {
        ReadAfterWrite(old(tiles), n, defaultValue, x, z, value, x', z');
      }
    }

    /**
     * `GetTileData`: the stored tile, or a default-filled tile of the current
     * size that is not stored.
     */
    method GetTileData(tileX: int, tileZ: int) returns (t: Tile)
      requires Valid()
      modifies this`tileSize
      ensures Valid() && tileSize == old(Size())
      ensures Coord(tileX, tileZ) in tiles ==> t == tiles[Coord(tileX, tileZ)]
      ensures Coord(tileX, tileZ) !in tiles ==> t == Blank(tileSize, defaultValue)
    {
      NormalizeTileSize();
      var key := Coord(tileX, tileZ);
      if key in tiles {
        t := tiles[key];
      } else {
        t := NewTile();
      }
    }

    /** `SetTileData`: stores `data` as the tile at (tileX, tileZ), replacing any previous one. */
    method SetTileData(tileX: int, tileZ: int, data: Tile)
      requires Valid() && IsTile(data, Size())
      modifies this`tiles
      ensures Valid()
      ensures tiles == old(tiles)[Coord(tileX, tileZ) := data]
    {
      tiles := tiles[Coord(tileX, tileZ) := data];
    }

    /**
     * `Fill`: every pixel of the rectangle [0, width) x [0, height) gets
     * `value`; pixels outside it keep theirs. The tile-size fallback happens
     * in the first `SetData`, so an empty rectangle leaves `tileSize` alone.
     */
    method Fill(width: int, height: int, value: Int16)
      requires Valid()
      modifies this`tileSize, this`tiles
      ensures Valid() && Size() == old(Size()) && Extends()
      ensures tileSize == if width > 0 && height > 0 then old(Size()) else old(tileSize)
      ensures forall x', z' ::
                ValueAt(x', z') == if 0 <= x' < width && 0 <= z' < height then value else old(ValueAt(x', z'))
    {
      if width > 0 && height > 0 {
        NormalizeTileSize();
      }
      ghost var n := tileSize;
      for x := 0 to Max(width, 0)
        invariant Valid() && tileSize == n && Extends()
        invariant forall x', z' ::
                    ValueAt(x', z') == if 0 <= x' < x && 0 <= z' < height then value else old(ValueAt(x', z'))
      {
        for z := 0 to Max(height, 0)
          invariant Valid() && tileSize == n && Extends()
          invariant forall x', z' ::
                      ValueAt(x', z') ==
                      if (0 <= x' < x && 0 <= z' < height) || (x' == x && 0 <= z' < z) then value else old(ValueAt(x', z'))
        {
          SetData(x, z, value);
        }
      }
    }

    /**
     * The field copies importers make when they point a layer at a grid:
     * extent, origin and steps; the tiles stay as they are.
     */
    method TakeGrid(width: int, height: int, startLongitudeMeter: int, startLatitudeMeter: int,
                    longitudeMeterStep: int, latitudeMeterStep: int)
      modifies this`width, this`height, this`startLongitudeMeter, this`startLatitudeMeter,
               this`longitudeMeterStep, this`latitudeMeterStep
      ensures this.width == width && this.height == height
      ensures this.startLongitudeMeter == startLongitudeMeter && this.startLatitudeMeter == startLatitudeMeter
      ensures this.longitudeMeterStep == longitudeMeterStep && this.latitudeMeterStep == latitudeMeterStep
    {
      this.width, this.height := width, height;
      this.startLongitudeMeter, this.startLatitudeMeter := startLongitudeMeter, startLatitudeMeter;
      this.longitudeMeterStep, this.latitudeMeterStep := longitudeMeterStep, latitudeMeterStep;
    }

    /**
     * An importer's assignment of `tileSize`, made whatever is stored. The
     * layer stays well formed exactly when no tile is stored or the size in
     * use does not change, and then every pixel reads as before; otherwise a
     * stored tile no longer has the size the accessors index it with.
     */
    method SetTileSize(n: int)
      requires Valid()
      modifies this`tileSize
      ensures tileSize == n && Size() == SizeFor(n)
      ensures Valid() <==> old(FitsTileSize(this, n))
      ensures Valid() ==> forall x', z' :: ValueAt(x', z') == old(ValueAt(x', z'))
    {
      tileSize := n;
      if tiles != map[] && SizeFor(n) != old(Size()) {
        var k :| k in tiles;
        assert !IsTile(tiles[k], Size());
      }
    }

    /**
     * `GetGeoCoord`: the geographic metres of a pixel. The tile index and the
     * offset inside the tile add back to the pixel, so each axis is
     * `start + pixel * step` in 32-bit arithmetic, for any tile size.
     */
    function GetGeoCoord(x: int, z: int): (g: GeoLocation)
      reads this
      ensures g.longitudeMeter == Wrap32(startLongitudeMeter + x * longitudeMeterStep)
      ensures g.latitudeMeter == Wrap32(startLatitudeMeter + z * latitudeMeterStep)
    {
      var tileX := GeoTileIndex(x, tileSize);
      var tileZ := GeoTileIndex(z, tileSize);
      GeoAxisIsAffine(startLongitudeMeter, longitudeMeterStep, tileSize, tileX, x);
      GeoAxisIsAffine(startLatitudeMeter, latitudeMeterStep, tileSize, tileZ, z);
      GeoLocation(
        GeoAxis(startLongitudeMeter, longitudeMeterStep, tileSize, tileX, x),
        GeoAxis(startLatitudeMeter, latitudeMeterStep, tileSize, tileZ, z))
    }
  }
}
