/**
 * Writing a whole image into a raster layer, as the raster importer does:
 * the image is `width x height` pixels stored row after row, pixel (x, y)
 * goes to map pixel (x, z) where `z` is `y`, or `height - 1 - y` when rows
 * are flipped, and each write goes through `SetData`.
 */
module RasterImage {
  import opened Numeric
  import opened GeoTransform
  import opened Raster
  import opened Colors
  import Mathf

  /** The map row of image row `y`: the same row, or counted from the bottom when flipped. */
  function MapRow(y: int, height: int, flip: bool): int {
    if flip then height - 1 - y else y
  }

  /** Flipping twice gives the row back, so every map row comes from exactly one image row. */
  lemma MapRowInvolution(y: int, height: int, flip: bool)
    ensures MapRow(MapRow(y, height, flip), height, flip) == y
    ensures 0 <= y < height <==> 0 <= MapRow(y, height, flip) < height
  {
  }

  /** A flat image of `width x height` values. */
  predicate IsImage<T>(pixels: seq<T>, width: nat, height: nat) {
    |pixels| == width * height
  }

  /** Pixel (x, y) of an image lies at `y * width + x`, inside the flat sequence. */
  lemma InImage(width: nat, height: nat, x: int, y: int)
    requires 0 <= x < width && 0 <= y < height
    ensures 0 <= y * width && y * width + width <= width * height
    ensures 0 <= y * width + x < width * height
  {
    MulMonotone(y + 1, height, width);
    assert (y + 1) * width == y * width + width;
    assert height * width == width * height;
    assert 0 * width <= y * width by {
      MulMonotone(0, y, width);
    }
  }

  /** Pixel (x, y) of a flat image. */
  function At<T>(pixels: seq<T>, width: nat, height: nat, x: int, y: int): T
    requires IsImage(pixels, width, height) && 0 <= x < width && 0 <= y < height
  {
    InImage(width, height, x, y);
    pixels[y * width + x]
  }

  /** Row `y` of an image starts at `y * width` and ends inside the image, also when `width` is 0. */
  lemma RowInImage(width: nat, height: nat, y: int)
    requires 0 <= y < height
    ensures 0 <= y * width && y * width + width <= width * height
  {
    if width == 0 {
      assert y * width == 0;
    } else {
      InImage(width, height, 0, y);
    }
  }

  /** The `width` pixels from `first` on, each converted by `f`. */
  function RowValues<T>(pixels: seq<T>, first: nat, width: nat, f: T -> Int16): (vs: seq<Int16>)
    requires first + width <= |pixels|
    ensures |vs| == width && forall x :: 0 <= x < width ==> vs[x] == f(pixels[first + x])
  {
    seq(width, x requires 0 <= x < width => f(pixels[first + x]))
  }

  /** The writes of one row: its values, left to right, into map row `z`. */
  function RowCells(row: seq<Int16>, z: int): (cs: seq<Cell>)
    ensures |cs| == |row| && forall x :: 0 <= x < |row| ==> cs[x] == Cell(x, z, row[x])
  {
    seq(|row|, x requires 0 <= x < |row| => Cell(x, z, row[x]))
  }

  /**
   * The writes of the first `count` image rows, row after row: image row `y`
   * converted by `f` goes to map row `MapRow(y)`.
   */
  function ImageCells<T>(pixels: seq<T>, width: nat, height: nat, flip: bool, f: T -> Int16, count: nat): seq<Cell>
    requires IsImage(pixels, width, height) && count <= height
  {
    if count == 0 then []
    else
      var y := count - 1;
      RowInImage(width, height, y);
      ImageCells(pixels, width, height, flip, f, y) + RowCells(RowValues(pixels, y * width, width, f), MapRow(y, height, flip))
  }

  /** One more image row: its converted values go after the writes of the rows above it. */
  lemma ImageCellsNext<T>(pixels: seq<T>, width: nat, height: nat, flip: bool, f: T -> Int16, y: nat)
    requires IsImage(pixels, width, height) && y < height
    ensures 0 <= y * width && y * width + width <= |pixels|
    ensures ImageCells(pixels, width, height, flip, f, y + 1) ==
            ImageCells(pixels, width, height, flip, f, y) + RowCells(RowValues(pixels, y * width, width, f), MapRow(y, height, flip))
  {
    RowInImage(width, height, y);
  }

  /** Writes after writes: the later ones are laid over what the earlier ones left. */
  lemma {:induction false} OverlayConcat(a: seq<Cell>, b: seq<Cell>, base: Int16, x: int, z: int)
    ensures Overlay(a + b, base, x, z) == Overlay(b, Overlay(a, base, x, z), x, z)
  {
    if b != [] {
      var n := |b| - 1;
      var ab := a + b;
      assert ab[..|ab| - 1] == a + b[..n];
      assert ab[|ab| - 1] == b[n];
      OverlayConcat(a, b[..n], base, x, z);
      assert Overlay(ab, base, x, z) == if b[n].x == x && b[n].z == z then b[n].value else Overlay(a + b[..n], base, x, z);
    } else {
      assert a + b == a;
    }
  }

  /** After a row's writes, the row's pixels hold its values; every other pixel keeps its own. */
  lemma {:induction false} OverlayRow(row: seq<Int16>, z0: int, base: Int16, x: int, z: int)
    ensures Overlay(RowCells(row, z0), base, x, z) == if z == z0 && 0 <= x < |row| then row[x] else base
  {
    if row != [] {
      var n := |row| - 1;
      assert RowCells(row, z0)[..n] == RowCells(row[..n], z0);
      OverlayRow(row[..n], z0, base, x, z);
    }
  }

  /**
   * After the writes of the first `count` rows, a pixel whose image row is
   * among them holds its converted image value, and every other pixel keeps
   * its own.
   */
  lemma {:induction false} OverlayImage<T>(pixels: seq<T>, width: nat, height: nat, flip: bool, f: T -> Int16, count: nat,
                                           base: Int16, x: int, z: int)
    requires IsImage(pixels, width, height) && count <= height
    ensures var y := MapRow(z, height, flip);
            Overlay(ImageCells(pixels, width, height, flip, f, count), base, x, z) ==
            if 0 <= x < width && 0 <= y < count then f(At(pixels, width, height, x, y)) else base
  {
    if count > 0 {
      var y := count - 1;
      var z0 := MapRow(y, height, flip);
      ImageCellsNext(pixels, width, height, flip, f, y);
      var row := RowValues(pixels, y * width, width, f);
      var above := ImageCells(pixels, width, height, flip, f, y);
      var prev := Overlay(above, base, x, z);
      OverlayConcat(above, RowCells(row, z0), base, x, z);
      OverlayImage(pixels, width, height, flip, f, y, base, x, z);
      OverlayRow(row, z0, prev, x, z);
      MapRowInvolution(y, height, flip);
      MapRowInvolution(z, height, flip);
      if z == z0 && 0 <= x < width {
        assert row[x] == f(At(pixels, width, height, x, y));
      }
    }
  }

  /**
   * What a layer reads after a whole image was written into it: pixel (x, z)
   * of the image's extent holds the converted value of image pixel (x, y)
   * with `z == MapRow(y)`, and every pixel outside the extent reads as before.
   */
  lemma ReadImage<T>(tiles: map<Coord, Tile>, n: int, d: Int16, pixels: seq<T>, width: nat, height: nat, flip: bool,
                     f: T -> Int16, x: int, z: int)
    requires n > 0 && TilesFit(tiles, n) && IsImage(pixels, width, height)
    ensures var y := MapRow(z, height, flip);
            Read(WriteAll(tiles, n, d, ImageCells(pixels, width, height, flip, f, height)), n, d, x, z) ==
            if 0 <= x < width && 0 <= z < height then f(At(pixels, width, height, x, y)) else Read(tiles, n, d, x, z)
  {
    ReadAfterWriteAll(tiles, n, d, ImageCells(pixels, width, height, flip, f, height), x, z);
    OverlayImage(pixels, width, height, flip, f, height, Read(tiles, n, d, x, z), x, z);
    MapRowInvolution(z, height, flip);
  }

  /** A row's writes grow by one write per pixel. */
  lemma RowCellsNext<T>(pixels: seq<T>, first: nat, x: nat, f: T -> Int16, z: int)
    requires first + x < |pixels|
    ensures RowCells(RowValues(pixels, first, x + 1, f), z) == RowCells(RowValues(pixels, first, x, f), z) + [Cell(x, z, f(pixels[first + x]))]
  {
  }

  /**
   * `Mathf.Clamp(e, short.MinValue, short.MaxValue)` cast to `short`: the
   * sample is clamped to the 16-bit range, and the cast drops the fraction.
   */
  function ElevationSample(e: real): Int16 {
    var c := Mathf.Clamp(e, -0x8000 as real, 0x7FFF as real);
    if c >= 0.0 then c.Floor as Int16 else -((-c).Floor) as Int16
  }

  /**
   * A sample inside the 16-bit range keeps its integer part, truncated
   * toward zero; one outside it saturates at the nearer end.
   */
  lemma ElevationSampleTruncates(e: real)
    ensures -0x8000 as real <= e <= 0x7FFF as real ==>
              Abs(ElevationSample(e) as int) as real <= Mathf.Abs(e) < Abs(ElevationSample(e) as int) as real + 1.0 &&
              (e >= 0.0 ==> ElevationSample(e) >= 0) && (e <= 0.0 ==> ElevationSample(e) <= 0)
    ensures e <= -0x8000 as real ==> ElevationSample(e) == -0x8000
    ensures e >= 0x7FFF as real ==> ElevationSample(e) == 0x7FFF
  {
  }

  /** An RFloat texture's elevation: the raw value scaled and offset, then clamped and cast. */
  function FloatElevation(scale: real, offset: real): real -> Int16 {
    raw => ElevationSample(raw * scale + offset)
  }

  /**
   * Any other texture's elevation: the red channel over 255 places the
   * pixel between the minimum and maximum elevation, then clamped and cast.
   */
  function GreyElevation(min: real, max: real): Color32 -> Int16 {
    (c: Color32) => ElevationSample(Mathf.Lerp(min, max, c.r as real / 255.0))
  }

  /** A texture's pixels, row after row, as `GetPixelData` or `GetPixels32` hands them over. */
  datatype Texture<T> = Texture(width: nat, height: nat, pixels: seq<T>) {
    predicate WellFormed() {
      IsImage(pixels, width, height)
    }
  }

  /** The elevation texture: single-channel float data, or 32-bit colour pixels read as grey. */
  datatype ElevationTexture = RFloat(data: Texture<real>) | Rgba32(colors: Texture<Color32>) {
    function Width(): nat {
      if RFloat? then data.width else colors.width
    }

    function Height(): nat {
      if RFloat? then data.height else colors.height
    }

    predicate WellFormed() {
      if RFloat? then data.WellFormed() else colors.WellFormed()
    }
  }

  /**
   * The writes of the elevation half of `ImportRaster`: a float texture
   * through `FloatElevation`, any other through `GreyElevation`.
   */
  function ElevationCells(tex: ElevationTexture, flip: bool, scale: real, offset: real, min: real, max: real): seq<Cell>
    requires tex.WellFormed()
  {
    match tex
    case RFloat(t) => ImageCells(t.pixels, t.width, t.height, flip, FloatElevation(scale, offset), t.height)
    case Rgba32(t) => ImageCells(t.pixels, t.width, t.height, flip, GreyElevation(min, max), t.height)
  }

  /** The elevation loop of `ImportRaster`, over whichever format the texture has. */
  method WriteElevationImage(layer: RasterLayer, tex: ElevationTexture, flip: bool, scale: real, offset: real, min: real, max: real)
    requires layer.Valid() && tex.WellFormed()
    modifies layer`tileSize, layer`tiles
    ensures layer.Valid() && layer.Size() == old(layer.Size())
    ensures layer.tileSize == old(layer.tileSize) || layer.tileSize == old(layer.Size())
    ensures layer.tiles == WriteAll(old(layer.tiles), layer.Size(), layer.defaultValue, ElevationCells(tex, flip, scale, offset, min, max))
  {
    match tex {
      case RFloat(t) =>
        WriteImage(layer, t.pixels, t.width, t.height, flip, FloatElevation(scale, offset));
      case Rgba32(t) =>
        WriteImage(layer, t.pixels, t.width, t.height, flip, GreyElevation(min, max));
    }
  }

  /**
   * One of the image loops of `ImportRaster`: every pixel, row by row, is
   * converted by `f` and written to its map pixel through `SetData`.
   */
  method WriteImage<T>(layer: RasterLayer, pixels: seq<T>, width: nat, height: nat, flip: bool, f: T -> Int16)
    requires layer.Valid() && IsImage(pixels, width, height)
    modifies layer`tileSize, layer`tiles
    ensures layer.Valid() && layer.Size() == old(layer.Size())
    ensures layer.tileSize == old(layer.tileSize) || layer.tileSize == old(layer.Size())
    ensures layer.tiles == WriteAll(old(layer.tiles), layer.Size(), layer.defaultValue, ImageCells(pixels, width, height, flip, f, height))
  {
    for y := 0 to height
      invariant layer.Valid() && layer.Size() == old(layer.Size())
      invariant layer.tileSize == old(layer.tileSize) || layer.tileSize == old(layer.Size())
      invariant layer.tiles == WriteAll(old(layer.tiles), layer.Size(), layer.defaultValue, ImageCells(pixels, width, height, flip, f, y))
    {
      ImageCellsNext(pixels, width, height, flip, f, y);
      var z := if flip then height - 1 - y else y;
      var first := y * width;
      ghost var done := ImageCells(pixels, width, height, flip, f, y);
      WriteImageRow(layer, pixels, first, width, z, f);
      WriteAllConcat(old(layer.tiles), layer.Size(), layer.defaultValue, done, RowCells(RowValues(pixels, first, width, f), z));
    }
  }

  /** One row of an image loop: the `width` pixels from `first` on, converted, into map row `z`, left to right. */
  method WriteImageRow<T>(layer: RasterLayer, pixels: seq<T>, first: nat, width: nat, z: int, f: T -> Int16)
    requires layer.Valid() && first + width <= |pixels|
    modifies layer`tileSize, layer`tiles
    ensures layer.Valid() && layer.Size() == old(layer.Size())
    ensures layer.tileSize == old(layer.tileSize) || layer.tileSize == old(layer.Size())
    ensures layer.tiles == WriteAll(old(layer.tiles), layer.Size(), layer.defaultValue, RowCells(RowValues(pixels, first, width, f), z))
  {
    for x := 0 to width
      invariant layer.Valid() && layer.Size() == old(layer.Size())
      invariant layer.tileSize == old(layer.tileSize) || layer.tileSize == old(layer.Size())
      invariant layer.tiles == WriteAll(old(layer.tiles), layer.Size(), layer.defaultValue, RowCells(RowValues(pixels, first, x, f), z))
    {
      var v := f(pixels[first + x]);
      RowCellsNext(pixels, first, x, f, z);
      WriteAllAppend(old(layer.tiles), layer.Size(), layer.defaultValue, RowCells(RowValues(pixels, first, x, f), z), Cell(x, z, v));
      layer.SetData(x, z, v);
    }
  }
}
