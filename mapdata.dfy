/**
 * `MapData`: the map's extent, tile counts and geographic origin, plus a
 * null-guarded facade over the elevation and fuel-code layers. `MapTile` is
 * the legacy fixed-size chunk record.
 */
module MapStore {
  import opened Numeric
  import opened GeoTransform
  import opened Raster

  class MapData {
    var xWidth: int
    var zWidth: int
    var xCount: int
    var zCount: int
    var tileSize: int
    var startLongitudeMeter: int
    var startLatitudeMeter: int
    var longitudeMeterStep: int
    var latitudeMeterStep: int
    var elevationLayer: RasterLayer?
    var fuelCodeLayer: RasterLayer?

    /** The layers that are present. */
    ghost function Layers(): set<RasterLayer>
      reads this
    {
      (if elevationLayer == null then {} else {elevationLayer}) +
      (if fuelCodeLayer == null then {} else {fuelCodeLayer})
    }

    ghost function ElevationLayers(): set<RasterLayer>
      reads this
    {
      if elevationLayer == null then {} else {elevationLayer}
    }

    ghost function FuelCodeLayers(): set<RasterLayer>
      reads this
    {
      if fuelCodeLayer == null then {} else {fuelCodeLayer}
    }

    /** The elevation slot holds an elevation layer and the fuel slot a fuel-code layer. */
    ghost predicate Valid()
      reads this, Layers()
    {
      (elevationLayer != null ==> elevationLayer.Valid() && elevationLayer.defaultValue == DefaultElevation) &&
      (fuelCodeLayer != null ==> fuelCodeLayer.Valid() && fuelCodeLayer.defaultValue == NoFuel)
    }

    /** The elevation `GetElevation` reports for a pixel. */
    function ElevationAt(x: int, z: int): Int16
      requires Valid()
      reads this, Layers()
    {
      if elevationLayer == null then DefaultElevation else elevationLayer.ValueAt(x, z)
    }

    /** The fuel code `GetFuelCode` reports for a pixel. */
    function FuelCodeAt(x: int, z: int): Int16
      requires Valid()
      reads this, Layers()
    {
      if fuelCodeLayer == null then NoFuel else fuelCodeLayer.ValueAt(x, z)
    }

    constructor ()
      ensures Valid() && elevationLayer == null && fuelCodeLayer == null
      ensures xWidth == 0 && zWidth == 0 && xCount == 0 && zCount == 0
      ensures tileSize == LegacyTileSize && startLongitudeMeter == 0 && startLatitudeMeter == 0
      ensures longitudeMeterStep == DefaultMeterStep && latitudeMeterStep == DefaultMeterStep
    {
      xWidth, zWidth, xCount, zCount := 0, 0, 0, 0;
      tileSize := LegacyTileSize;
      startLongitudeMeter, startLatitudeMeter := 0, 0;
      longitudeMeterStep, latitudeMeterStep := DefaultMeterStep, DefaultMeterStep;
      elevationLayer, fuelCodeLayer := null, null;
    }

    /**
     * `Awake`: when a tile count is still 0 but both widths are positive, the
     * counts are recomputed from the widths; otherwise they stay.
     */
    method Awake()
      modifies this`xCount, this`zCount
      ensures if (old(xCount) == 0 || old(zCount) == 0) && xWidth > 0 && zWidth > 0
              then xCount == CeilQuotient(xWidth, tileSize) && zCount == CeilQuotient(zWidth, tileSize)
              else xCount == old(xCount) && zCount == old(zCount)
    {
      if (xCount == 0 || zCount == 0) && xWidth > 0 && zWidth > 0 {
        xCount := CeilQuotient(xWidth, tileSize);
        zCount := CeilQuotient(zWidth, tileSize);
      }
    }

    /**
     * `Initialize`: stores the extent and geographic origin and derives the
     * tile counts: `xCount * tileSize` is the least multiple of the tile size
     * that covers `xWidth`.
     */
    method Initialize(xWidth: int, zWidth: int, startLongitudeMeter: int, startLatitudeMeter: int,
                      longitudeMeterStep: int, latitudeMeterStep: int)
      modifies this`xWidth, this`zWidth, this`startLongitudeMeter, this`startLatitudeMeter,
               this`longitudeMeterStep, this`latitudeMeterStep, this`xCount, this`zCount
      ensures this.xWidth == xWidth && this.zWidth == zWidth
      ensures this.startLongitudeMeter == startLongitudeMeter && this.startLatitudeMeter == startLatitudeMeter
      ensures this.longitudeMeterStep == longitudeMeterStep && this.latitudeMeterStep == latitudeMeterStep
      ensures xCount == CeilQuotient(xWidth, tileSize) && zCount == CeilQuotient(zWidth, tileSize)
      ensures tileSize > 0 ==> (xCount - 1) * tileSize < xWidth <= xCount * tileSize
      ensures tileSize > 0 ==> (zCount - 1) * tileSize < zWidth <= zCount * tileSize
    {
      this.xWidth := xWidth;
      this.zWidth := zWidth;
      this.startLongitudeMeter := startLongitudeMeter;
      this.startLatitudeMeter := startLatitudeMeter;
      this.longitudeMeterStep := longitudeMeterStep;
      this.latitudeMeterStep := latitudeMeterStep;
      xCount := CeilQuotient(xWidth, tileSize);
      zCount := CeilQuotient(zWidth, tileSize);
    }

    /** `GetElevation`: 0 without an elevation layer, otherwise the layer's value. */
    method GetElevation(x: int, z: int) returns (e: Int16)
      requires Valid()
      modifies ElevationLayers()`tileSize
      ensures Valid()
      ensures elevationLayer != null ==> elevationLayer.tileSize == old(elevationLayer.Size())
      ensures e == ElevationAt(x, z)
      ensures elevationLayer == null ==> e == DefaultElevation
    {
      if elevationLayer == null {
        return DefaultElevation;
      }
      e := elevationLayer.GetData(x, z);
    }

    /** `SetElevation`: writes one pixel of the elevation layer, or does nothing without one. */
    method SetElevation(x: int, z: int, elevation: Int16)
      requires Valid()
      modifies ElevationLayers()`tileSize, ElevationLayers()`tiles
      ensures Valid()
      ensures elevationLayer != null ==> elevationLayer.tileSize == old(elevationLayer.Size())
      ensures forall x', z' :: ElevationAt(x', z') ==
                if elevationLayer != null && x' == x && z' == z then elevation else old(ElevationAt(x', z'))
      ensures forall x', z' :: FuelCodeAt(x', z') == old(FuelCodeAt(x', z'))
    {
      if elevationLayer == null {
        return;
      }
      elevationLayer.SetData(x, z, elevation);
    }

    /** `GetFuelCode`: 98 (no fuel) without a fuel-code layer, otherwise the layer's value. */
    method GetFuelCode(x: int, z: int) returns (c: Int16)
      requires Valid()
      modifies FuelCodeLayers()`tileSize
      ensures Valid()
      ensures fuelCodeLayer != null ==> fuelCodeLayer.tileSize == old(fuelCodeLayer.Size())
      ensures c == FuelCodeAt(x, z)
      ensures fuelCodeLayer == null ==> c == NoFuel
    {
      if fuelCodeLayer == null {
        return NoFuel;
      }
      c := fuelCodeLayer.GetData(x, z);
    }

    /** `SetFuelCode`: writes one pixel of the fuel-code layer, or does nothing without one. */
    method SetFuelCode(x: int, z: int, fuelCode: Int16)
      requires Valid()
      modifies FuelCodeLayers()`tileSize, FuelCodeLayers()`tiles
      ensures Valid()
      ensures fuelCodeLayer != null ==> fuelCodeLayer.tileSize == old(fuelCodeLayer.Size())
      ensures forall x', z' :: FuelCodeAt(x', z') ==
                if fuelCodeLayer != null && x' == x && z' == z then fuelCode else old(FuelCodeAt(x', z'))
      ensures forall x', z' :: ElevationAt(x', z') == old(ElevationAt(x', z'))
    {
      if fuelCodeLayer == null {
        return;
      }
      fuelCodeLayer.SetData(x, z, fuelCode);
    }

    /** `GetGeoCoord`: each axis is `start + pixel * step` in 32-bit arithmetic. */
    function GetGeoCoord(x: int, z: int): (g: GeoLocation)
      reads this
      ensures g.longitudeMeter == Wrap32(startLongitudeMeter + x * longitudeMeterStep)
      ensures g.latitudeMeter == Wrap32(startLatitudeMeter + z * latitudeMeterStep)
    {
      var tileX := GeoTileIndex(x, tileSize);
      var tileZ := GeoTileIndex(z, tileSize);
      GeoAxisIsAffine(startLongitudeMeter, longitudeMeterStep, tileSize, tileX, x);
      GeoAxisIsAffine(startLatitudeMeter, latitudeMeterStep, tileSize, tileZ, z);
      GeoLocation(
        GeoAxis(startLongitudeMeter, longitudeMeterStep, tileSize, tileX, x),
        GeoAxis(startLatitudeMeter, latitudeMeterStep, tileSize, tileZ, z))
    }

    /** Whether `Fill` writes anything: both widths positive and both layers present. */
    predicate FillApplies()
      reads this
    {
      xWidth > 0 && zWidth > 0 && elevationLayer != null && fuelCodeLayer != null
    }

    /**
     * `Fill`: when it applies, every pixel of [0, xWidth) x [0, zWidth) gets the
     * two values in the two layers; otherwise nothing changes.
     */
    method Fill(elevationValue: Int16, fuelCodeValue: Int16)
      requires Valid()
      modifies Layers()`tileSize, Layers()`tiles
      ensures Valid()
      ensures !old(FillApplies()) ==> unchanged(Layers())
      ensures forall x', z' :: ElevationAt(x', z') ==
                if FillApplies() && 0 <= x' < xWidth && 0 <= z' < zWidth then elevationValue
                else old(ElevationAt(x', z'))
      ensures forall x', z' :: FuelCodeAt(x', z') ==
                if FillApplies() && 0 <= x' < xWidth && 0 <= z' < zWidth then fuelCodeValue
                else old(FuelCodeAt(x', z'))
    {
      if xWidth <= 0 || zWidth <= 0 {
        return;
      }
      if elevationLayer == null || fuelCodeLayer == null {
        return;
      }
      for x := 0 to xWidth
        invariant Valid() && elevationLayer.Extends() && fuelCodeLayer.Extends()
        invariant forall x', z' :: ElevationAt(x', z') ==
                    if 0 <= x' < x && 0 <= z' < zWidth then elevationValue else old(ElevationAt(x', z'))
        invariant forall x', z' :: FuelCodeAt(x', z') ==
                    if 0 <= x' < x && 0 <= z' < zWidth then fuelCodeValue else old(FuelCodeAt(x', z'))
      {
        FillColumn(x, elevationValue, fuelCodeValue);
      }
    }

    /** The inner loop of `Fill`: column `x` of [0, zWidth) gets the two values. */
    method FillColumn(x: int, elevationValue: Int16, fuelCodeValue: Int16)
      requires Valid() && FillApplies()
      modifies Layers()`tileSize, Layers()`tiles
      ensures Valid() && elevationLayer.Extends() && fuelCodeLayer.Extends()
      ensures forall x', z' :: ElevationAt(x', z') ==
                if x' == x && 0 <= z' < zWidth then elevationValue else old(ElevationAt(x', z'))
      ensures forall x', z' :: FuelCodeAt(x', z') ==
                if x' == x && 0 <= z' < zWidth then fuelCodeValue else old(FuelCodeAt(x', z'))
    {
      for z := 0 to zWidth
        invariant Valid() && elevationLayer.Extends() && fuelCodeLayer.Extends()
        invariant forall x', z' :: ElevationAt(x', z') ==
                    if x' == x && 0 <= z' < z then elevationValue else old(ElevationAt(x', z'))
        invariant forall x', z' :: FuelCodeAt(x', z') ==
                    if x' == x && 0 <= z' < z then fuelCodeValue else old(FuelCodeAt(x', z'))
      {
        FillPixel(x, z, elevationValue, fuelCodeValue);
      }
    }

    /** One step of `Fill`: pixel (x, z) gets the elevation in one layer and the fuel code in the other. */
    method FillPixel(x: int, z: int, elevationValue: Int16, fuelCodeValue: Int16)
      requires Valid() && FillApplies()
      modifies Layers()`tileSize, Layers()`tiles
      ensures Valid() && elevationLayer.Extends() && fuelCodeLayer.Extends()
      ensures forall x', z' :: ElevationAt(x', z') == if x' == x && z' == z then elevationValue else old(ElevationAt(x', z'))
      ensures forall x', z' :: FuelCodeAt(x', z') == if x' == x && z' == z then fuelCodeValue else old(FuelCodeAt(x', z'))
    {
      elevationLayer.SetData(x, z, elevationValue);
      fuelCodeLayer.SetData(x, z, fuelCodeValue);
    }
  }

  /** The legacy chunk: its arrays are always 122 x 122, whatever tile size the map uses. */
  class MapTile {
    var tileX: int
    var tileZ: int
    var elevation: array2<Int16>
    var fuelCode: array2<Int16>

    constructor (tileX: int, tileZ: int)
      ensures this.tileX == tileX && this.tileZ == tileZ
      ensures fresh(elevation) && fresh(fuelCode) && elevation != fuelCode
      ensures elevation.Length0 == LegacyTileSize && elevation.Length1 == LegacyTileSize
      ensures fuelCode.Length0 == LegacyTileSize && fuelCode.Length1 == LegacyTileSize
      ensures forall i, j :: 0 <= i < LegacyTileSize && 0 <= j < LegacyTileSize ==>
                elevation[i, j] == 0 && fuelCode[i, j] == 0
    {
      this.tileX := tileX;
      this.tileZ := tileZ;
      elevation := new Int16[LegacyTileSize, LegacyTileSize]((i, j) => 0);
      fuelCode := new Int16[LegacyTileSize, LegacyTileSize]((i, j) => 0);
    }
  }
}
