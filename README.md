# A verified model of the wildland-fire terrain and fuel core

This project models, in Dafny, the core of a Unity wildland-fire sandbox. The
game keeps its map as rasters and builds the terrain surface from them.
The model covers these parts of the C# code:

- **Raster layers.** The elevation layer and the fuel-code layer
  (`raster.dfy`, `geo.dfy`) store 16-bit values in square tiles, keyed by tile
  index. A tile is allocated on its first write. A pixel in an unallocated
  tile reads as the layer's default: 0 for elevation, fuel code 98 for fuel.
  The coordinate helpers split a pixel into a tile index and an offset
  inside that tile, using floor semantics for negative pixels. They also
  convert pixels to world positions and back, and pixels to geographic
  metres. The fuel categories (road, urban, water) are fixed code sets.
- **The map.** `MapData` (`mapdata.dfy`) holds the map's extent, its tile
  counts and its geographic origin. It is a null-guarded facade over the two
  layers, with `Fill` over the whole extent. `MapTile` is the legacy
  fixed-size chunk record.
- **Terrain chunks.** `TerrainTile` (`mesh.dfy`) turns one chunk into a
  vertex grid, two triangles per pixel, with colours chosen by fuel
  category. `TerrainGenerator` (`terrain.dfy`) picks the effective tile
  size, counts and builds the chunks, and routes an elevation change to the
  chunk that holds the pixel.
- **The cell facade.** `Pixel` (`pixel.dfy`) memoises a cell's elevation,
  fuel code and slope, and writes changes through to the map.
- **The fuel catalog.** Fuel-behaviour response curves (`bezier.dfy`) and
  per-fuel data with a curve per moisture state (`fuelcatalog.dfy`). The
  catalog asset finds a fuel by first match and loads its fuels from
  already-decoded JSON items. The runtime fuel manager (`fuelruntime.dfy`)
  caches fuels by id; when ids repeat, the last fuel wins.
- **Catalog editor tools.** The family auto-tuner (`autotuner.dfy`) groups
  fuels by a two-letter prefix and rescales brightness and saturation within
  each family. The colorizer, the renamer and the JSON importer
  (`catalogtools.dfy`) paint, rename and rebuild the catalog.
- **XYZ and raster import.**
  - `text.dfy` and `xyztext.dfy` cover the .NET text rules the importers use
    (whitespace classes, `int.TryParse`/`short.TryParse`, ASCII upper-casing), the
    line reader, `String.Split`, the import window's token reader, and the
    parse of one `x z value` line.
  - `gisparser.dfy` is the runtime parser, which throws on a malformed line.
  - `windowxyz.dfy` and `importwindow.dfy` are the editor import window,
    which skips malformed lines. It detects the grid from the bounds of the
    points, and imports textures row by row with an optional vertical flip
    (`rasterimage.dfy`). Fuel colours are matched to the nearest palette
    entry, with a per-colour cache (`palette.dfy`).
- **Units and line paths.** Unit levelling paid in firepoints (`units.dfy`),
  and the line-path registry with its nearest-point query (`linepaths.dfy`).

C# integer behaviour is written out (`numeric.dfy`):

- `(short)` and `(int)` casts wrap;
- `/` truncates toward zero;
- `Mathf.FloorToInt` and `Mathf.CeilToInt` of a quotient are exact floor and
  ceiling division;
- `Mathf.RoundToInt` rounds half to even.

Single-precision floats are modelled as reals.

Behaviour of the code worth noting:

- **Urban colour.** The colour chain tests for road codes before urban codes, and every urban
  code (7296–7298) is also a road code. So urban pixels are coloured black,
  and the chain's purple urban branch is unreachable (`TerrainMesh.CategoryColor`,
  `Raster.UrbanIsRoad`).
- **Pixel setters.** A setter keeps the new value in the pixel's own field,
  writes it through to the map when one is reachable and notifies the
  terrain; the elevation setter also drops the cached slope.
- **Fuel-code changes.** A fuel-code change calls a notification hook whose
  body is empty, so no chunk is rebuilt.
- **Catalog lookup.** The catalog asset's lookup finds the first fuel with an
  id. The runtime manager's cache keeps the last (`FuelRuntime.CacheOfLastWins`).

## Model

| member | source | states |
|---|---|---|
| Bezier.BezierCurve.Evaluate | Assets/Scripts/FuelCodes/BezierCurve.cs:18-34 | with `min <= max` the value always lies in [min, max] |
| Bezier.BezierCurve.EvaluateWithInput | Assets/Scripts/FuelCodes/BezierCurve.cs:36-40 | with `min <= max` the value always lies in [min, max] |
| Bezier.From | Assets/Scripts/FuelCodes/BezierCurve.cs:42-53 | the curve holds exactly the six given numbers |
| Bezier.EvaluateClampsParameter | Assets/Scripts/FuelCodes/BezierCurve.cs:20 | a parameter outside [0, 1] evaluates like the nearer end; every parameter like its clamped value |
| Bezier.EvaluateAtZero | Assets/Scripts/FuelCodes/BezierCurve.cs:27-33 | the curve starts at `min` (start point (0, min)) |
| Bezier.EvaluateAtOne | Assets/Scripts/FuelCodes/BezierCurve.cs:30-33 | the curve ends at `max` (end point (max, max)) |
| Bezier.EvaluateWithInputEnds | Assets/Scripts/FuelCodes/BezierCurve.cs:36-40 | inputs at or beyond either end of the range read the curve's start or end; an empty range reads the start |
| Units.UnitLeveling.constructor | Assets/Scripts/Units/UnitLeveling.cs:10-12 | a new unit has no levels, index 0 and no firepoints |
| Units.UnitLeveling.CanLevelUp | Assets/Scripts/Units/UnitLeveling.cs:14-19 | `Some(true)` exactly when a next level exists and the firepoints cover its cost; `None`, the out-of-range exception, exactly when the list is not empty and the next index is negative (an index below -1, or `int.MaxValue` wrapping round); `Some(false)` for an empty list |
| Units.UnitLeveling.LevelUp | Assets/Scripts/Units/UnitLeveling.cs:21-27 | throws exactly when its `CanLevelUp` guard does, and then changes nothing; without the right to level up nothing changes; otherwise the index moves up by one and the next level's cost is taken off (32-bit), never below zero for a non-negative cost |
| Units.UnitLeveling.GetLevel | Assets/Scripts/Units/UnitLeveling.cs:34-39 | the default level for an empty list, otherwise the level at the index clamped into the list |
| Units.LastLevelIsFinal | Assets/Scripts/Units/UnitLeveling.cs:14-19 | at the last level `CanLevelUp` answers false, whatever the firepoints |
| Units.SpendCanWrap | Assets/Scripts/Units/UnitLeveling.cs:14-27 | a unit with `int.MaxValue` firepoints may level up to a level of negative cost, and the 32-bit subtraction then leaves it a negative balance (`int.MinValue` for a cost of -1) |
| LinePaths.LinePathManager.constructor | Assets/Scripts/LinePaths/LinePathManager.cs:9 | a new manager has no paths |
| LinePaths.LinePathManager.Register | Assets/Scripts/LinePaths/LinePathManager.cs:11-17 | a present, unlisted path is appended; a null or listed path changes nothing; a list without duplicates stays without |
| LinePaths.LinePathManager.Unregister | Assets/Scripts/LinePaths/LinePathManager.cs:19-25 | a listed path loses its first occurrence; anything else changes nothing; without duplicates the path is gone afterwards |
| LinePaths.LinePathManager.GetNearestPoint | Assets/Scripts/LinePaths/LinePathManager.cs:27-46 | null exactly when no point is nearer than `float.MaxValue`; otherwise the first point (path order, then point order) with the strictly smallest squared distance |
| LinePaths.SqrDistance | Assets/Scripts/LinePaths/LinePathManager.cs:36 | a squared distance is never negative |
| LinePaths.FirstNearestUnique | Assets/Scripts/LinePaths/LinePathManager.cs:37-41 | at most one point is the first strict minimum, so the answer is determined |
| LinePaths.ScanStep | Assets/Scripts/LinePaths/LinePathManager.cs:36-41 | taking a point exactly when it is strictly nearer keeps the scan's invariant |
| LinePaths.IndexOf | Assets/Scripts/LinePaths/LinePathManager.cs:23 | the index of the first occurrence: it holds the element and no earlier slot does |
| LinePaths.RemoveFirst | Assets/Scripts/LinePaths/LinePathManager.cs:23 | `List.Remove` takes out exactly one occurrence: one element shorter, the multiset less that element |
| LinePaths.RemoveFirstOnly | Assets/Scripts/LinePaths/LinePathManager.cs:21-24 | removing from a duplicate-free list leaves no copy and no duplicates |
| Numeric.Wrap16 | Assets/Scripts/Editor/GISImportWindow.cs:405 | the unchecked cast to `short`: agrees with the input modulo 2^16 and is the input itself when it fits |
| Numeric.Wrap32 | Assets/Scripts/GIS/GISDataLayer.cs:69-70 | unchecked `int` arithmetic: a 32-bit value congruent to the exact one modulo 2^32, the exact one when it fits |
| Numeric.TruncDiv | Assets/Scripts/Editor/GISImportWindow.cs:381 | C# division rounds toward zero: the remainder is smaller than the divisor and has the dividend's sign |
| Numeric.CsDiv | Assets/Scripts/Editor/GISImportWindow.cs:381-384 | C# `int` division throws exactly for a zero divisor and for `int.MinValue / -1`, and is `TruncDiv` otherwise |
| Numeric.TruncRem | Assets/Scripts/GIS/GISDataLayer.cs:43-44 | C# `%`: smaller than the divisor, with the dividend's sign, and `a == (a / b) * b + a % b` |
| Numeric.CeilDiv | Assets/Scripts/GIS/MapData.cs:41-42 | the ceiling quotient for a positive divisor: `(r - 1) b < a <= r b` |
| Numeric.CeilQuotient | Assets/Scripts/GIS/MapData.cs:59-60 | `CeilToInt((float)a / b)`: the ceiling quotient for either sign of divisor; non-negative, and at least 1 for a positive width |
| Numeric.Clamp | Assets/Scripts/Units/UnitLeveling.cs:37 | `Mathf.Clamp` on ints lands in [lo, hi] when lo <= hi and keeps an in-range value |
| Mathf.Clamp | Assets/Scripts/Editor/GISImportWindow.cs:209 | `Mathf.Clamp` on floats: below lo gives lo, at or above hi gives hi, in range keeps the value |
| Mathf.Clamp01 | Assets/Scripts/FuelCodes/BezierCurve.cs:20 | lands in [0, 1] and keeps an in-range value |
| Mathf.Lerp | Assets/Scripts/Editor/FuelCodeFamilyAutoTuner.cs:59-60 | the parameter is clamped: stays between the ends, 0 gives `a` and 1 gives `b` |
| Mathf.LerpMonotone | Assets/Scripts/Editor/FuelCodeFamilyAutoTuner.cs:59-60 | with `a <= b` a larger parameter never gives a smaller value |
| Mathf.InverseLerp | Assets/Scripts/FuelCodes/BezierCurve.cs:38 | in [0, 1]; 0 at or below the start, 1 at or above the end, 0 for an empty range |
| Mathf.RoundToInt | Assets/Scripts/Editor/GISImportWindow.cs:405 | the nearest integer, with halves going to the even neighbour |
| Mathf.Abs | Assets/Scripts/Editor/GISImportWindow.cs:583 | non-negative and equal to the value or its negation |
| Mathf.Min | Assets/Scripts/Editor/GISImportWindow.cs:584 | no larger than either argument and equal to one of them |
| Mathf.Max | Assets/Scripts/Editor/FuelCodeFamilyAutoTuner.cs:42 | no smaller than either argument and equal to one of them |
| GeoTransform.TileOf | Assets/Scripts/GIS/GISDataLayer.cs:33-39 | `FloorToInt(v / (float)ts)` is the floor quotient: the tile starts at or before `v` and the next one after it |
| GeoTransform.LocalOf | Assets/Scripts/GIS/GISDataLayer.cs:41-48 | the offset lies in [0, ts) and tile times size plus offset gives back the pixel |
| GeoTransform.LocalIsFloorRem | Assets/Scripts/GIS/GISDataLayer.cs:43-46 | the remainder moved up by one tile size when negative is the floor remainder |
| GeoTransform.TileSplitUnique | Assets/Scripts/GIS/GISDataLayer.cs:33-48 | any split into a tile and an in-range offset is the one the helpers compute |
| GeoTransform.SameSplitSamePixel | Assets/Scripts/GIS/GISDataLayer.cs:33-48 | the split loses nothing: same tile and offset means same pixel |
| GeoTransform.PixelToWorld | Assets/Scripts/GIS/GISDataLayer.cs:50-53 | x stays, z is negated, and the height is the elevation over 30 |
| GeoTransform.WorldToPixel | Assets/Scripts/GIS/GISDataLayer.cs:55-60 | the pixel is the floor of x and of minus z |
| GeoTransform.WorldToPixelInvertsPixelToWorld | Assets/Scripts/GIS/GISDataLayer.cs:50-60 | every pixel comes back from its world position, whatever its elevation |
| GeoTransform.GeoAxisIsAffine | Assets/Scripts/GIS/GISDataLayer.cs:62-73 | one axis of `GetGeoCoord` is `start + v * step` in 32-bit arithmetic, whatever the tile index |
| Raster.UrbanIsRoad | Assets/Scripts/GIS/FuelCodeLayer.cs:78-81 | every urban code is a road code; the only road code that is not urban is 7299 |
| Raster.CategoriesDisjoint | Assets/Scripts/GIS/FuelCodeLayer.cs:78-83 | roads and water are disjoint, and 98 (no fuel) is neither |
| Raster.SizeFor | Assets/Scripts/GIS/ElevationLayer.cs:15 | the size in use is positive: the stored size when positive, 122 otherwise |
| Raster.Blank | Assets/Scripts/GIS/FuelCodeLayer.cs:32-35 | a fresh tile is `n` by `n` and holds the default everywhere |
| Raster.Write | Assets/Scripts/GIS/ElevationLayer.cs:25-35 | a write keeps every tile square and adds at most the key of the pixel's tile |
| Raster.ReadAfterWrite | Assets/Scripts/GIS/ElevationLayer.cs:12-35 | after a write the written pixel reads the value and every other pixel reads as before |
| Raster.OverlayAppend | Assets/Scripts/GIS/ElevationLayer.cs:59-68 | a later write decides its own pixel and leaves the others to the earlier writes |
| Raster.OverlayUntouched | Assets/Scripts/GIS/ElevationLayer.cs:59-68 | a pixel no write targets keeps its value |
| Raster.OverlayLatest | Assets/Scripts/GIS/ElevationLayer.cs:59-68 | a targeted pixel reads the value of the last write to it |
| Raster.WriteAll | Assets/Scripts/GIS/ElevationLayer.cs:59-68 | a run of writes keeps the tiles square and only adds tiles |
| Raster.WriteAllAppend | Assets/Scripts/GIS/ElevationLayer.cs:59-68 | one more write goes on top of the earlier ones |
| Raster.WriteAllConcat | Assets/Scripts/GIS/ElevationLayer.cs:59-68 | a run of writes split in two: the second part goes on top of what the first left |
| Raster.ReadAfterWriteAll | Assets/Scripts/GIS/ElevationLayer.cs:59-68 | after a run of writes every pixel reads its last write, or its old value when untouched |
| Raster.RasterLayer.Size | Assets/Scripts/GIS/ElevationLayer.cs:15 | the size the accessors use is positive and is the stored size when that is positive |
| Raster.RasterLayer.Elevation | Assets/Scripts/GIS/GISDataLayer.cs:10-19 | a new elevation layer: no tiles, default 0, tile size 122, steps 30 |
| Raster.RasterLayer.FuelCode | Assets/Scripts/GIS/FuelCodeLayer.cs:10 | a new fuel-code layer: no tiles, default 98, tile size 122, steps 30 |
| Raster.RasterLayer.NormalizeTileSize | Assets/Scripts/GIS/FuelCodeLayer.cs:15 | an unset tile size becomes 122; the size in use does not change |
| Raster.RasterLayer.NewTile | Assets/Scripts/GIS/FuelCodeLayer.cs:49-52 | a tile of the current size holding the default value everywhere |
| Raster.RasterLayer.GetData | Assets/Scripts/GIS/FuelCodeLayer.cs:12-23 | the stored value of the pixel, or the layer's default where no tile is allocated |
| Raster.RasterLayer.SetData | Assets/Scripts/GIS/FuelCodeLayer.cs:25-39 | the tiles become `Write` of the old ones; the pixel reads the value and every other pixel as before |
| Raster.RasterLayer.GetTileData | Assets/Scripts/GIS/FuelCodeLayer.cs:41-54 | the stored tile, or a fresh default-filled tile of the current size |
| Raster.RasterLayer.SetTileData | Assets/Scripts/GIS/FuelCodeLayer.cs:56-59 | the tile at the key is replaced by the given one, the others kept |
| Raster.RasterLayer.Fill | Assets/Scripts/GIS/ElevationLayer.cs:59-68 | every pixel of [0, width) x [0, height) reads the value, every other pixel as before; tiles are only added; the tile-size fallback applies only when the rectangle is not empty |
| Raster.RasterLayer.TakeGrid | Assets/Scripts/Editor/GISImportWindow.cs:286-291 | the extent, origin and steps are the given ones |
| Raster.RasterLayer.SetTileSize | Assets/Scripts/Editor/GISImportWindow.cs:288 | the stored size is the given one, whatever is stored; the layer stays well formed exactly when no tile is stored or the size in use is kept, and then every pixel reads as before |
| Raster.RasterLayer.GetGeoCoord | Assets/Scripts/GIS/GISDataLayer.cs:62-73 | each axis is `start + pixel * step` in 32-bit arithmetic |
| MapStore.MapData.constructor | Assets/Scripts/GIS/MapData.cs:10-26 | no layers, zero extent and counts, tile size 122, steps 30 |
| MapStore.MapData.Awake | Assets/Scripts/GIS/MapData.cs:30-44 | a zero count with both widths positive recomputes both counts by ceiling division; otherwise they stay |
| MapStore.MapData.Initialize | Assets/Scripts/GIS/MapData.cs:49-61 | the extent and origin are stored and each count is the least number of tiles covering its width |
| MapStore.MapData.GetElevation | Assets/Scripts/GIS/MapData.cs:66-70 | 0 without an elevation layer, otherwise the layer's value |
| MapStore.MapData.SetElevation | Assets/Scripts/GIS/MapData.cs:75-79 | the pixel reads the new elevation when there is a layer; every other elevation and every fuel code as before |
| MapStore.MapData.GetFuelCode | Assets/Scripts/GIS/MapData.cs:84-88 | 98 without a fuel-code layer, otherwise the layer's value |
| MapStore.MapData.SetFuelCode | Assets/Scripts/GIS/MapData.cs:93-97 | the pixel reads the new code when there is a layer; every other code and every elevation as before |
| MapStore.MapData.GetGeoCoord | Assets/Scripts/GIS/MapData.cs:111-122 | each axis is `start + pixel * step` in 32-bit arithmetic |
| MapStore.MapData.Fill | Assets/Scripts/GIS/MapData.cs:135-152 | with positive widths and both layers, every pixel of the map gets both values and the rest is kept; otherwise nothing changes |
| MapStore.MapData.FillColumn | Assets/Scripts/GIS/MapData.cs:146-150 | column x of [0, zWidth) gets both values |
| MapStore.MapData.FillPixel | Assets/Scripts/GIS/MapData.cs:148-149 | one pixel gets the elevation in one layer and the code in the other |
| MapStore.MapTile.constructor | Assets/Scripts/GIS/MapData.cs:165-171 | the coordinates are stored and both grids are fresh, distinct, 122 by 122 and zero |
| FuelCatalog.Select | Assets/Scripts/FuelCodes/FuelCodeData.cs:38-63 | VeryLow, Low and High pick their own curve and every other moisture value the Medium one |
| FuelCatalog.CurveValue | Assets/Scripts/FuelCodes/FuelCodeData.cs:65-84 | the fallback without a curve, otherwise a value inside the curve's [min, max] |
| FuelCatalog.CurveValueEnds | Assets/Scripts/FuelCodes/FuelCodeData.cs:69 | an input at or below 0 reads the curve's `min`, one at or above the range's end its `max` |
| FuelCatalog.FuelCodeData.constructor | Assets/Scripts/FuelCodes/FuelCodeData.cs:9-36 | a new fuel: empty strings, id 0, green, no loads and no curves |
| FuelCatalog.FuelCodeData.FromItem | Assets/Scripts/FuelCodes/FuelCodeSet.cs:79-101 | the fuel holds the item's title, code, id, loads and curves over the defaults |
| FuelCatalog.FuelCodeData.CalculateROS | Assets/Scripts/FuelCodes/FuelCodeData.cs:65-70 | 0 without a curve, otherwise within the curve's bounds |
| FuelCatalog.FuelCodeData.CalculateFlameLength | Assets/Scripts/FuelCodes/FuelCodeData.cs:72-77 | 0 without a curve, otherwise within the curve's bounds |
| FuelCatalog.FuelCodeData.CalculateSlopeFactor | Assets/Scripts/FuelCodes/FuelCodeData.cs:79-84 | 1 without a curve, otherwise within the curve's bounds |
| FuelCatalog.CalculateEnds | Assets/Scripts/FuelCodes/FuelCodeData.cs:65-84 | calm wind reads a curve's `min` and a wind of 50 its `max`; a flat slope reads `min` and 90 degrees `max` |
| FuelCatalog.ToCurve | Assets/Scripts/FuelCodes/FuelCodeSet.cs:107-111 | a missing curve stays missing and any other is copied field for field |
| FuelCatalog.IdFromCode | Assets/Scripts/FuelCodes/FuelCodeSet.cs:82-83 | the GIS code parsed as a `short`, or 0 when it does not parse |
| FuelCatalog.FirstFrom | Assets/Scripts/FuelCodes/FuelCodeSet.cs:16 | the first index from `i` on whose fuel has the id, every earlier one present with another id |
| FuelCatalog.ScanFaults | Assets/Scripts/FuelCodes/FuelCodeSet.cs:14-17 | the first-match lookup dereferences null exactly when a missing entry comes before every fuel with the id |
| FuelCatalog.FuelCodeSet.constructor | Assets/Scripts/FuelCodes/FuelCodeSet.cs:12 | a new set lists no fuel |
| FuelCatalog.FuelCodeSet.GetFuelCode | Assets/Scripts/FuelCodes/FuelCodeSet.cs:14-17 | null exactly when no fuel has the id; otherwise the first fuel with it |
| FuelCatalog.FuelCodeSet.LoadFromJsonText | Assets/Scripts/FuelCodes/FuelCodeSet.cs:61-105 | empty text or a failed decode keeps the list; otherwise the list is one fresh fuel per item, in order |
| FuelCatalog.LoadItems | Assets/Scripts/FuelCodes/FuelCodeSet.cs:76-104 | one fresh, distinct fuel per item, each loaded from its item |
| FuelRuntime.CacheOfLastWins | Assets/Scripts/Core/FuelCodeManager.cs:22-32 | an id is cached exactly when some fuel has it, and it maps to the last such fuel in list order |
| FuelRuntime.CacheAgreesWithCatalog | Assets/Scripts/Core/FuelCodeManager.cs:22-32 | with distinct ids the cache answers what the catalog's first-match lookup answers |
| FuelRuntime.ScanSafeWithoutNulls | Assets/Scripts/FuelCodes/FuelCodeSet.cs:16 | without missing entries the catalog lookup never dereferences null |
| FuelRuntime.FirstNull | Assets/Scripts/Core/FuelCodeManager.cs:27-30 | the entries before the first missing one are all present, and the one it names is missing |
| FuelRuntime.FuelCodeManager.constructor | Assets/Scripts/Core/FuelCodeManager.cs:12-15 | the catalog is the given one and the cache is empty |
| FuelRuntime.FuelCodeManager.BuildCache | Assets/Scripts/Core/FuelCodeManager.cs:17-32 | an empty cache without a catalog; otherwise it throws exactly when an entry is missing, and the cache is the id-to-fuel map of the fuels before the first missing one (all of them when none is), later fuels overriding earlier ones |
| FuelRuntime.FuelCodeManager.GetROS | Assets/Scripts/Core/FuelCodeManager.cs:38-45 | 0 for an unknown id, otherwise the cached fuel's spread rate |
| FuelRuntime.FuelCodeManager.GetFlameLength | Assets/Scripts/Core/FuelCodeManager.cs:51-58 | 0 for an unknown id, otherwise the cached fuel's flame length |
| FuelRuntime.FuelCodeManager.GetSlopeFactor | Assets/Scripts/Core/FuelCodeManager.cs:63-70 | 1 for an unknown id, otherwise the cached fuel's slope factor |
| FuelRuntime.FuelCodeManager.GetFuelCodeData | Assets/Scripts/Core/FuelCodeManager.cs:75-79 | null exactly for an unknown id, otherwise the cached fuel |
| FuelRuntime.ROSAfterBuild | Assets/Scripts/Core/FuelCodeManager.cs:22-45 | after a build, an id no fuel carries spreads at 0 and any other at the rate of the last fuel carrying it |
| FamilyTuning.GetFamilyPrefix | Assets/Scripts/Editor/FuelCodeFamilyAutoTuner.cs:70-76 | the first two characters, upper-cased, of the title or (when the title is blank) the GIS code; "??" when both are blank; one or two characters |
| FamilyTuning.ToUpperKeepsBlank | Assets/Scripts/Editor/FuelCodeFamilyAutoTuner.cs:72-75 | upper-casing keeps a string blank or not blank |
| FamilyTuning.FamilyPrefixIgnoresCase | Assets/Scripts/Editor/FuelCodeFamilyAutoTuner.cs:70-76 | the family prefix does not depend on letter case |
| FamilyTuning.BoundsAttained | Assets/Scripts/Editor/FuelCodeFamilyAutoTuner.cs:37-45 | the smallest and largest values bound every value of the family and are values of it |
| FamilyTuning.Normalize | Assets/Scripts/Editor/FuelCodeFamilyAutoTuner.cs:55-56 | in [0, 1]; 0.5 for a family spread no more than 0.0001; 0 at the minimum and 1 at the maximum otherwise |
| FamilyTuning.NormalizeMonotone | Assets/Scripts/Editor/FuelCodeFamilyAutoTuner.cs:55-56 | a larger value never gets a smaller normalised place |
| FamilyTuning.ShadeMonotone | Assets/Scripts/Editor/FuelCodeFamilyAutoTuner.cs:55-60 | shades lie in [0.3, 1.0] and never decrease as the value grows |
| FamilyTuning.ShadeExtremes | Assets/Scripts/Editor/FuelCodeFamilyAutoTuner.cs:55-60 | in a spread family the lowest value shades 0.3 and the highest 1.0; in a flat family everything shades 0.65 |
| FamilyTuning.Bounds | Assets/Scripts/Editor/FuelCodeFamilyAutoTuner.cs:32-45 | the running `Mathf.Min`/`Mathf.Max` loop ends with the family's smallest and largest values |
| FamilyTuning.ShadeFamily | Assets/Scripts/Editor/FuelCodeFamilyAutoTuner.cs:50-62 | every member of the bucket gets the shades of its flame length and spread rate |
| FamilyTuning.TuneFamily | Assets/Scripts/Editor/FuelCodeFamilyAutoTuner.cs:27-62 | one bucket: every member's brightness is its flame length's shade and its saturation its spread rate's shade within the bucket |
| FamilyTuning.Members | Assets/Scripts/Editor/FuelCodeFamilyAutoTuner.cs:15-25 | a family is a list of positions of present entries with its prefix |
| FamilyTuning.MembersComplete | Assets/Scripts/Editor/FuelCodeFamilyAutoTuner.cs:15-25 | every present entry with the prefix is in the family |
| FamilyTuning.MembersIncreasing | Assets/Scripts/Editor/FuelCodeFamilyAutoTuner.cs:15-25 | a family lists its positions in list order |
| FamilyTuning.TargetMonotone | Assets/Scripts/Editor/FuelCodeFamilyAutoTuner.cs:55-60 | within a family a larger value never gets a smaller shade |
| FamilyTuning.TargetExtremes | Assets/Scripts/Editor/FuelCodeFamilyAutoTuner.cs:55-60 | an entry's value lies between its family's bounds; in a spread family the extremes get 0.3 and 1.0 |
| FamilyTuning.BuildBuckets | Assets/Scripts/Editor/FuelCodeFamilyAutoTuner.cs:14-25 | every present fuel's prefix has a non-empty bucket holding exactly its family, in list order |
| FamilyTuning.AddToBucket | Assets/Scripts/Editor/FuelCodeFamilyAutoTuner.cs:17-24 | one entry joins its prefix's bucket, opening it when new; missing entries are skipped |
| FamilyTuning.TuneBucket | Assets/Scripts/Editor/FuelCodeFamilyAutoTuner.cs:27-62 | one bucket's entries get their target shades, entries of other buckets keep theirs |
| FamilyTuning.TuneBuckets | Assets/Scripts/Editor/FuelCodeFamilyAutoTuner.cs:27-63 | after the second pass every present fuel has its target shades |
| FamilyTuning.Apply | Assets/Scripts/Editor/FuelCodeFamilyAutoTuner.cs:10-68 | a missing or empty catalog is left alone; otherwise every present fuel's brightness is its flame length's shade and its saturation its spread rate's shade within its family |
| FamilyTuning.Retune | Assets/Scripts/Editor/FuelCodeFamilyAutoTuner.cs:14-63 | bucketing then tuning gives every present fuel its family shades |
| CatalogTools.FamilyColorKnown | Assets/Scripts/Editor/FuelCodeSetColorizer.cs:47-61 | a prefix gets a colour other than gray-green exactly when it is one of the eleven known ones; every colour is opaque |
| CatalogTools.KnownColorsDistinct | Assets/Scripts/Editor/FuelCodeSetColorizer.cs:49-59 | no two known prefixes share a colour |
| CatalogTools.ColorPrefix | Assets/Scripts/Editor/FuelCodeSetColorizer.cs:36-44 | a prefix exists exactly when the title or the code has two characters; it is two characters with no lower-case letter |
| CatalogTools.BaseColorKnown | Assets/Scripts/Editor/FuelCodeSetColorizer.cs:34-62 | a fuel is painted other than gray-green exactly when its prefix exists and is known; every fuel colour is opaque |
| CatalogTools.BaseColorIgnoresCase | Assets/Scripts/Editor/FuelCodeSetColorizer.cs:34-62 | letter case never changes a fuel's colour |
| CatalogTools.PresentCount | Assets/Scripts/Editor/FuelCodeSetColorizer.cs:19-26 | the count of present entries is at most the list's length |
| CatalogTools.PresentCountBounds | Assets/Scripts/Editor/FuelCodeSetColorizer.cs:19-26 | every entry is counted exactly when none is missing, none exactly when all are |
| CatalogTools.BaseColors | Assets/Scripts/Editor/FuelCodeSetColorizer.cs:20-26 | one colour per entry, each present fuel's the colour of its title and code |
| CatalogTools.ApplyColors | Assets/Scripts/Editor/FuelCodeSetColorizer.cs:10-32 | without a selected catalog nothing happens; otherwise every present fuel gets its base colour and the report counts the present entries |
| CatalogTools.DisplayNameParts | Assets/Scripts/Editor/FuelCodeSetRenamer.cs:23-25 | an untitled fuel is named by its code; a titled one "title (code)", from which both can be read back |
| CatalogTools.RenameSelected | Assets/Scripts/Editor/FuelCodeSetRenamer.cs:10-38 | without a selected catalog nothing happens; otherwise every present fuel ends up named by its display name and the count is the number of distinct fuels that were misnamed |
| CatalogTools.RenameAll | Assets/Scripts/Editor/FuelCodeSetRenamer.cs:19-32 | the loop names every present fuel and counts the misnamed fuels |
| CatalogTools.MisnamedFlags | Assets/Scripts/Editor/FuelCodeSetRenamer.cs:26 | one flag per entry, set exactly for a present fuel whose name is not its display name |
| CatalogTools.FlaggedMembers | Assets/Scripts/Editor/FuelCodeSetRenamer.cs:26-31 | the flagged fuels are exactly the fuels at flagged entries |
| CatalogTools.FirstFlaggedCounts | Assets/Scripts/Editor/FuelCodeSetRenamer.cs:26-31 | counting first occurrences counts the distinct flagged fuels |
| CatalogTools.FlaggedEntry | Assets/Scripts/Editor/FuelCodeSetRenamer.cs:26-31 | a flagged fuel sits at some flagged entry |
| CatalogTools.MisnamedCount | Assets/Scripts/Editor/FuelCodeSetRenamer.cs:26-31 | the number of misnamed fuels is the number of first occurrences of misnamed entries |
| CatalogTools.RenameEach | Assets/Scripts/Editor/FuelCodeSetRenamer.cs:20-32 | the loop renames each fuel at its first entry when misnamed and counts exactly those |
| CatalogTools.RenameOne | Assets/Scripts/Editor/FuelCodeSetRenamer.cs:22-31 | one fuel ends up well named and is reported exactly when it was misnamed; other fuels keep their names |
| CatalogTools.RenameIdempotent | Assets/Scripts/Editor/FuelCodeSetRenamer.cs:10-38 | right after a rename nothing is misnamed |
| CatalogTools.NameAndPaint | Assets/Scripts/Editor/FuelCodeSetImporter.cs:56-61 | the fuel is named by its display name and painted in its base colour |
| CatalogTools.AddImported | Assets/Scripts/Editor/FuelCodeSetImporter.cs:52-64 | the catalog lists the loaded fuels in order, each named and painted |
| CatalogTools.LoadNamed | Assets/Scripts/Editor/FuelCodeSetImporter.cs:33-64 | the emptied catalog holds one new fuel per decoded item, in order, each named and painted from its item |
| CatalogTools.ItemPrefixes | Assets/Scripts/Editor/FuelCodeSetImporter.cs:68 | one family prefix per item, that of its title and code |
| CatalogTools.ItemFlames | Assets/Scripts/Editor/FuelCodeSetImporter.cs:68 | one flame length per item, read from its flame curves |
| CatalogTools.ItemRates | Assets/Scripts/Editor/FuelCodeSetImporter.cs:68 | one spread rate per item, read from its spread curves |
| CatalogTools.ImportIntoAsset | Assets/Scripts/Editor/FuelCodeSetImporter.cs:28-71 | the catalog holds the fuels of the items, named and painted, with the family shades of their flame lengths and spread rates at wind 10 and Medium moisture |
| CatalogTools.TunedInputs | Assets/Scripts/Editor/FuelCodeSetImporter.cs:49-68 | imported fuels have their items' prefixes, flame lengths and spread rates |
| CatalogTools.TuneImported | Assets/Scripts/Editor/FuelCodeSetImporter.cs:68 | tuning keeps the imported fuels as their items made them and gives them their family shades |
| CatalogTools.TuneKeeping | Assets/Scripts/Editor/FuelCodeSetImporter.cs:68 | every fuel stays as imported from its item, and each present fuel gets the family shades of the flame lengths and spread rates read before the call |
| CatalogTools.ImportJson | Assets/Scripts/Editor/FuelCodeSetImporter.cs:12-26 | without a catalog or a file nothing changes; otherwise the catalog holds one fresh, distinct fuel per decoded item, made from that item, with the shades of its item's flame length and spread rate within its family |
| GisParser.RunNext | Assets/Scripts/GIS/GISDataParser.cs:92-116 | each further line of an unbroken run is skipped, appends its one write, or ends the run |
| GisParser.FailureEndsRun | Assets/Scripts/GIS/GISDataParser.cs:98-100 | once a line has thrown, the lines after it change nothing |
| GisParser.MalformedLineAborts | Assets/Scripts/GIS/GISDataParser.cs:98-104 | a line that throws aborts the parse, keeping exactly the writes of the lines before it |
| GisParser.ExtraPartsIgnored | Assets/Scripts/GIS/GISDataParser.cs:95-100 | fields after the third are ignored |
| GisParser.RunWritesInGrid | Assets/Scripts/GIS/GISDataParser.cs:103-110 | every write lands inside the grid, and elevation writes are never negative |
| GisParser.GISDataParser.constructor | Assets/Scripts/GIS/GISDataParser.cs:12-33 | no inputs or targets, an empty grid and a 30-metre cell |
| GisParser.GISDataParser.ParseXYZ | Assets/Scripts/GIS/GISDataParser.cs:39-55 | nothing happens exactly when the map, a layer or a text is missing; otherwise the grid is set up and both texts are parsed |
| GisParser.GISDataParser.ParseAsync | Assets/Scripts/GIS/GISDataParser.cs:57-82 | the layers take the grid, then hold the elevation run's writes and, unless it threw, the fuel run's |
| GisParser.GISDataParser.PrepareTargets | Assets/Scripts/GIS/GISDataParser.cs:59-76 | the map is initialised with the parser's grid and both layers copy its extent, origin and steps, their values unchanged |
| GisParser.GISDataParser.ParseXYZIntoLayer | Assets/Scripts/GIS/GISDataParser.cs:87-118 | the chosen layer ends with the run's writes laid over its old values, the other layer unchanged, and it throws exactly when a line did |
| GisParser.WriteLines | Assets/Scripts/GIS/GISDataParser.cs:92-116 | the loop leaves the layer holding the run's writes over its old values and reports whether a line threw |
| Text.TrimStartShape | Assets/Scripts/GIS/GISDataParser.cs:98-99 | trimming the start drops only number whitespace and leaves a text that does not start with any |
| Text.TrimEndShape | Assets/Scripts/GIS/GISDataParser.cs:98-99 | trimming the end drops only number whitespace and leaves a text that does not end with any |
| Text.TryParseInt32 | Assets/Scripts/GIS/GISDataParser.cs:98-99 | a value exactly when the text is an integer, which then fits 32 bits |
| Text.TryParseInt16 | Assets/Scripts/FuelCodes/FuelCodeSet.cs:82-83 | a value exactly when the text is an integer that fits 16 bits |
| Text.NatToString | Assets/Scripts/Editor/FuelCodeSetRenamer.cs:23-25 | a natural number prints as a non-empty run of digits |
| Text.IntToString | Assets/Scripts/Editor/FuelCodeSetRenamer.cs:23-25 | an integer prints as a non-empty text |
| Text.NatToStringValue | Assets/Scripts/Editor/FuelCodeSetRenamer.cs:23-25 | the printed digits have the number's value |
| Text.ParseIntegerInvertsIntToString | Assets/Scripts/FuelCodes/FuelCodeSet.cs:82-83 | printing an integer and parsing it back gives the integer |
| Text.ParseIntegerIgnoresPadding | Assets/Scripts/GIS/GISDataParser.cs:98-99 | leading and trailing number whitespace never changes what parses |
| Text.TrimStartSkips | Assets/Scripts/GIS/GISDataParser.cs:98-99 | leading whitespace before a non-white character is exactly what trimming drops |
| Text.TrimEndSkips | Assets/Scripts/GIS/GISDataParser.cs:98-99 | trailing whitespace after a non-white character is exactly what trimming drops |
| Text.ToUpperChar | Assets/Scripts/Editor/FuelCodeFamilyAutoTuner.cs:74-75 | lower-case ASCII letters move to upper case, every other character is kept, and no lower-case ASCII letter is left |
| Text.ToUpper | Assets/Scripts/Editor/FuelCodeFamilyAutoTuner.cs:74-75 | each character upper-cased by `ToUpperChar`, the length kept |
| Text.ToUpperIdempotent | Assets/Scripts/Editor/FuelCodeFamilyAutoTuner.cs:74-75 | upper-casing twice is upper-casing once |
| Text.ToUpperPrefix | Assets/Scripts/Editor/FuelCodeFamilyAutoTuner.cs:74-75 | upper-casing commutes with taking a prefix |
| XyzText.LineLength | Assets/Scripts/GIS/GISDataParser.cs:89-92 | the first line ends at the first line break, and holds none |
| XyzText.Lines | Assets/Scripts/GIS/GISDataParser.cs:89-92 | there are never more lines than characters |
| XyzText.LinesHoldNoBreak | Assets/Scripts/GIS/GISDataParser.cs:89-92 | no line the reader returns holds a line break |
| XyzText.FieldLength | Assets/Scripts/GIS/GISDataParser.cs:95 | a field is no longer than the rest of the line |
| XyzText.TokenStart | Assets/Scripts/Editor/GISImportWindow.cs:465-471 | the first position at or after the index that is no separator, only separators skipped |
| XyzText.TokenStop | Assets/Scripts/Editor/GISImportWindow.cs:473-479 | the first position at or after the start that is a separator, only non-separators passed |
| XyzText.FieldLengthIsTokenLength | Assets/Scripts/Editor/GISImportWindow.cs:473-480 | a field is as long as the token that starts there |
| XyzText.TokensFromIsSplit | Assets/Scripts/GIS/GISDataParser.cs:95 | the window's token reader and the parser's split see the same fields |
| XyzText.TryReadToken | Assets/Scripts/Editor/GISImportWindow.cs:461-482 | fails at the end of the line; otherwise returns the run of non-separators after the skipped separators and stops just past it |
| XyzText.FieldsToPoint | Assets/Scripts/Editor/GISImportWindow.cs:455-457 | a point exactly when there are three fields, the first two 32-bit integers and the third a float, with those values |
| XyzText.ExtraFieldsIgnored | Assets/Scripts/Editor/GISImportWindow.cs:449-457 | fields beyond the third never change the point |
| XyzText.TryParseXYZLine | Assets/Scripts/Editor/GISImportWindow.cs:442-459 | succeeds exactly on the lines whose split fields make a point, with that point |
| XyzText.ReadThreeTokens | Assets/Scripts/Editor/GISImportWindow.cs:449-453 | succeeds exactly when the line has three tokens, returning the first three |
| XyzText.FewTokensNoPoint | Assets/Scripts/Editor/GISImportWindow.cs:451-453 | a line with fewer than three tokens gives no point |
| XyzText.PointOfFirstTokens | Assets/Scripts/Editor/GISImportWindow.cs:455-457 | a line's point is the parse of its first three tokens |
| XyzText.ConvertToInt16 | Assets/Scripts/GIS/GISDataParser.cs:100 | a value exactly when the rounded float fits 16 bits, and then the rounded value |
| XyzText.RoundToShort | Assets/Scripts/Editor/GISImportWindow.cs:405 | the rounded value when it fits 16 bits, and always that value modulo 2^16 |
| XyzText.PixelOf | Assets/Scripts/Editor/GISImportWindow.cs:407-410 | no pixel exactly when a division throws, which never happens for a positive step |
| XyzText.StoredValue | Assets/Scripts/GIS/GISDataParser.cs:108-115 | elevations are never negative and non-negative ones are kept; fuel codes are kept |
| XyzText.PixelBand | Assets/Scripts/Editor/GISImportWindow.cs:407-410 | a point lands in the pixel whose step-wide band holds it, and one less than a step before the origin still lands in pixel 0 |
| WindowXyz.Readings | Assets/Scripts/Editor/GISImportWindow.cs:359-362 | one reading per line, what the line parser reads from it |
| WindowXyz.PointsNext | Assets/Scripts/Editor/GISImportWindow.cs:359-362 | one more line appends its point when it has one |
| WindowXyz.PointsOfLines | Assets/Scripts/Editor/GISImportWindow.cs:354-370 | the points are exactly the readings of the accepted lines, with 32-bit coordinates |
| WindowXyz.XsOf | Assets/Scripts/Editor/GISImportWindow.cs:364-365 | the x coordinates of the points, in order |
| WindowXyz.ZsOf | Assets/Scripts/Editor/GISImportWindow.cs:366-367 | the z coordinates of the points, in order |
| WindowXyz.MinOfIsLeast | Assets/Scripts/Editor/GISImportWindow.cs:364-366 | the running minimum is the least of its start and the values |
| WindowXyz.MaxOfIsGreatest | Assets/Scripts/Editor/GISImportWindow.cs:365-367 | the running maximum is the greatest of its start and the values |
| WindowXyz.MinOfConcat | Assets/Scripts/Editor/GISImportWindow.cs:314-315 | two minimum scans in a row scan the concatenation |
| WindowXyz.MaxOfConcat | Assets/Scripts/Editor/GISImportWindow.cs:314-315 | two maximum scans in a row scan the concatenation |
| WindowXyz.BoundsConcat | Assets/Scripts/Editor/GISImportWindow.cs:314-315 | scanning the elevation text and then the fuel text scans the points of both |
| WindowXyz.NoPointsDetectedMeans | Assets/Scripts/Editor/GISImportWindow.cs:317-323 | "no valid points" is reported exactly when every point sits on int.MaxValue along one axis, in particular when there are none |
| WindowXyz.BoundsNext | Assets/Scripts/Editor/GISImportWindow.cs:364-367 | one more point lowers and raises the bounds by its own coordinates |
| WindowXyz.PixelOfPositiveStep | Assets/Scripts/Editor/GISImportWindow.cs:381-384 | with a positive step the pixel always exists, by truncating 32-bit division |
| WindowXyz.PixelXs | Assets/Scripts/Editor/GISImportWindow.cs:381 | the pixel columns of the points |
| WindowXyz.PixelZs | Assets/Scripts/Editor/GISImportWindow.cs:382-384 | the pixel rows of the points |
| WindowXyz.PixelBoundsNext | Assets/Scripts/Editor/GISImportWindow.cs:385-386 | one more point raises the pixel bounds by its own column and row |
| WindowXyz.PixelBoundsConcat | Assets/Scripts/Editor/GISImportWindow.cs:337-338 | the two bound scans together scan the points of both texts |
| WindowXyz.DetectedExtent | Assets/Scripts/Editor/GISImportWindow.cs:328-329 | the detected extent is at least one pixel |
| WindowXyz.ExtentCovers | Assets/Scripts/Editor/GISImportWindow.cs:328-329 | every offset between the bounds lands in one of the detected pixels |
| WindowXyz.DetectedGrid | Assets/Scripts/Editor/GISImportWindow.cs:325-330 | the detected grid keeps the step and the row direction |
| WindowXyz.DetectedGridHoldsPoints | Assets/Scripts/Editor/GISImportWindow.cs:308-331 | every point lands inside the detected grid when the bounds are less than int.MaxValue apart |
| WindowXyz.InferredGrid | Assets/Scripts/Editor/GISImportWindow.cs:335-341 | the inferred grid keeps the window's origin, step and row direction |
| WindowXyz.SizedGrid | Assets/Scripts/Editor/GISImportWindow.cs:305-342 | the map keeps the step and row direction, and without auto-detection the origin too |
| WindowXyz.InferredGridOf | Assets/Scripts/Editor/GISImportWindow.cs:339-340 | the inferred extents are one past the greatest indices, in 32-bit arithmetic |
| WindowXyz.InferredGridHoldsPoints | Assets/Scripts/Editor/GISImportWindow.cs:335-341 | every point with non-negative indices lands inside the inferred grid, and points before the origin stay outside |
| WindowXyz.PixelOfIgnoresExtent | Assets/Scripts/Editor/GISImportWindow.cs:407-410 | the pixel of a position depends on the grid's origin, step and direction, not on its extent |
| WindowXyz.CellsOf | Assets/Scripts/Editor/GISImportWindow.cs:404-411 | one possible write per point |
| WindowXyz.WritesNext | Assets/Scripts/Editor/GISImportWindow.cs:411-421 | one more point appends its write when it lands in the grid |
| WindowXyz.LineWritesNext | Assets/Scripts/Editor/GISImportWindow.cs:400-421 | one more line appends its write when it makes one |
| WindowXyz.WritesOfPoints | Assets/Scripts/Editor/GISImportWindow.cs:400-421 | the writes are exactly those of the in-grid points, inside the grid, with elevations never negative |
| WindowXyz.ParserAgreesWithWindow | Assets/Scripts/GIS/GISDataParser.cs:94-115 | on a line that parses and whose value fits 16 bits, the parser writes exactly what the window writes |
| WindowXyz.MalformedLineDiverges | Assets/Scripts/GIS/GISDataParser.cs:98-100 | a malformed line with three fields throws in the parser, while the window skips it |
| WindowXyz.WideValueDiverges | Assets/Scripts/Editor/GISImportWindow.cs:405 | a value beyond 16 bits throws in the parser, while the window stores a wrapped value different from the rounded one |
| FuelPalette.ColorDistance | Assets/Scripts/Editor/GISImportWindow.cs:577-594 | a distance is never negative, and zero between equal colours (in RGB mode, between colours with equal channels) |
| FuelPalette.DistanceSymmetric | Assets/Scripts/Editor/GISImportWindow.cs:577-594 | swapping the colours gives the same distance, in both modes |
| FuelPalette.PackKey | Assets/Scripts/Editor/GISImportWindow.cs:553 | the cache key is a 32-bit integer |
| FuelPalette.UnpackPackKey | Assets/Scripts/Editor/GISImportWindow.cs:553 | the four bytes can be read back from the key |
| FuelPalette.PackKeyInjective | Assets/Scripts/Editor/GISImportWindow.cs:553-558 | distinct colours never share a cache slot |
| FuelPalette.ScanBelowAll | Assets/Scripts/Editor/GISImportWindow.cs:560-572 | the best distance is at most float.MaxValue and at most every entry's distance |
| FuelPalette.ScanKeepsFallback | Assets/Scripts/Editor/GISImportWindow.cs:560-572 | when no entry comes closer than float.MaxValue the default code stays |
| FuelPalette.ScanFindsFirstNearest | Assets/Scripts/Editor/GISImportWindow.cs:560-572 | otherwise the scan ends with the distance and code of the first nearest entry |
| FuelPalette.LastNearest | Assets/Scripts/Editor/GISImportWindow.cs:564-571 | when only the last entry comes closer than float.MaxValue, the scan takes it |
| FuelPalette.NearestExtends | Assets/Scripts/Editor/GISImportWindow.cs:564-571 | the step over the last entry keeps the front's first nearest entry unless the last is strictly nearer |
| FuelPalette.MatchedCodeNearest | Assets/Scripts/Editor/GISImportWindow.cs:546-575 | an ignored pixel or an empty palette gets the default; otherwise the code of the first nearest entry, or the default when all are at least float.MaxValue away |
| FuelPalette.CacheStore | Assets/Scripts/Editor/GISImportWindow.cs:553-574 | storing the scanned code under the pixel's key keeps every cached code equal to the scan's |
| FuelPalette.PaletteEntries | Assets/Scripts/Editor/GISImportWindow.cs:525-541 | every entry comes from a present fuel code and every present code gives one; the palette is empty exactly when none is present |
| RasterImage.MapRowInvolution | Assets/Scripts/Editor/GISImportWindow.cs:203 | flipping a row twice gives it back, and rows inside the image stay inside |
| RasterImage.InImage | Assets/Scripts/Editor/GISImportWindow.cs:204-207 | pixel (x, y) lies at y*width+x, inside the pixel array |
| RasterImage.RowInImage | Assets/Scripts/Editor/GISImportWindow.cs:204 | each image row lies inside the pixel array |
| RasterImage.RowValues | Assets/Scripts/Editor/GISImportWindow.cs:205-210 | one converted value per pixel of the row |
| RasterImage.RowCells | Assets/Scripts/Editor/GISImportWindow.cs:205-210 | one write per value, left to right, into the map row |
| RasterImage.ImageCellsNext | Assets/Scripts/Editor/GISImportWindow.cs:201-211 | one more image row appends its writes after those of the rows above |
| RasterImage.OverlayConcat | Assets/Scripts/GIS/ElevationLayer.cs:25-35 | later writes are laid over what the earlier ones left |
| RasterImage.OverlayRow | Assets/Scripts/Editor/GISImportWindow.cs:205-210 | after a row's writes its pixels hold its values and every other pixel keeps its own |
| RasterImage.OverlayImage | Assets/Scripts/Editor/GISImportWindow.cs:201-211 | after some rows, each pixel of those rows holds its converted image value and every other pixel keeps its own |
| RasterImage.ReadImage | Assets/Scripts/Editor/GISImportWindow.cs:201-241 | after the whole image, every map pixel of the image's extent reads the converted value of its (possibly flipped) image pixel |
| RasterImage.RowCellsNext | Assets/Scripts/Editor/GISImportWindow.cs:205-210 | a row's writes grow by one write per pixel |
| RasterImage.ElevationSampleTruncates | Assets/Scripts/Editor/GISImportWindow.cs:209 | a sample in the 16-bit range keeps its integer part, truncated toward zero; one outside saturates at the nearer end |
| RasterImage.WriteImage | Assets/Scripts/Editor/GISImportWindow.cs:199-227 | the layer ends with all the image's writes laid over its old tiles |
| RasterImage.WriteElevationImage | Assets/Scripts/Editor/GISImportWindow.cs:197-227 | for either texture format, the layer ends with the converted elevation image's writes laid over its old tiles |
| RasterImage.WriteImageRow | Assets/Scripts/Editor/GISImportWindow.cs:205-210 | the layer ends with the row's writes laid over its old tiles |
| ImportWindow.StepFor | Assets/Scripts/Editor/GISImportWindow.cs:282 | the step is positive, and a positive step is kept |
| ImportWindow.GISImportWindow.constructor | Assets/Scripts/Editor/GISImportWindow.cs:14-41 | the window's initial settings: no targets, elevation range 0 to 3000, default fuel 98, alpha threshold 0.01, RGB matching, auto-detected bounds, step 1, tiles of 122, flipped rows running down |
| ImportWindow.GISImportWindow.ParseXYZMinMax | Assets/Scripts/Editor/GISImportWindow.cs:354-370 | the four bounds end lowered and raised by the coordinates of every accepted line |
| ImportWindow.GISImportWindow.ParseXYZBounds | Assets/Scripts/Editor/GISImportWindow.cs:372-389 | the two bounds end raised by the pixel column and row of every accepted line |
| ImportWindow.GISImportWindow.InitializeMap | Assets/Scripts/Editor/GISImportWindow.cs:280-301 | the step made positive, the new tile size, the map's extent, origin, steps and tile counts set, both layers on the map's grid with their tiles kept; each layer stays well formed exactly when it can take the new size, and then its pixels are unchanged |
| ImportWindow.GISImportWindow.DetectGrid | Assets/Scripts/Editor/GISImportWindow.cs:308-329 | points are found exactly when some point of either text is valid, and then the grid is the one their bounds give |
| ImportWindow.GISImportWindow.InferGrid | Assets/Scripts/Editor/GISImportWindow.cs:333-341 | the grid inferred from the greatest pixel indices of both texts |
| ImportWindow.GISImportWindow.InitializeMapFromXYZ | Assets/Scripts/Editor/GISImportWindow.cs:303-352 | with no valid point under auto-detection both counts are 0 and only the step and the map's tile size change: the window's origin, the map's extent, counts, origin and steps, and both layers are as before; otherwise the map takes the sized grid and both layers hold their texts' in-grid writes, counted |
| ImportWindow.GISImportWindow.SizeGrid | Assets/Scripts/Editor/GISImportWindow.cs:308-342 | sizing fails exactly under auto-detection with no valid point; otherwise the grid is the detected or the inferred one |
| ImportWindow.GISImportWindow.PrepareSizing | Assets/Scripts/Editor/GISImportWindow.cs:305-306 | the step made positive and the map given the window's tile size when that is positive |
| ImportWindow.GISImportWindow.MoveOrigin | Assets/Scripts/Editor/GISImportWindow.cs:325-326 | the window's origin becomes the grid's |
| ImportWindow.GISImportWindow.LoadOntoGrid | Assets/Scripts/Editor/GISImportWindow.cs:330-345 | the map initialised to the grid, then both layers hold their texts' in-grid writes, counted |
| ImportWindow.GISImportWindow.ParseBoth | Assets/Scripts/Editor/GISImportWindow.cs:344-345 | each layer ends with its own text's writes laid over its old tiles |
| ImportWindow.GISImportWindow.ParseXYZIntoLayer | Assets/Scripts/Editor/GISImportWindow.cs:391-440 | the chosen layer ends with the in-grid writes of the accepted lines over its old tiles, and the count is their number |
| ImportWindow.GISImportWindow.MatchFuelCode | Assets/Scripts/Editor/GISImportWindow.cs:544-575 | the code is the nearest-entry match whether or not it came from the cache, and the cache stays sound, at most gaining this pixel's key |
| ImportWindow.GISImportWindow.BuildFuelPalette | Assets/Scripts/Editor/GISImportWindow.cs:525-541 | no set gives an empty palette; otherwise one entry per present fuel code, in order |
| ImportWindow.GISImportWindow.WriteFuelImage | Assets/Scripts/Editor/GISImportWindow.cs:231-243 | the fuel layer ends with every image pixel's matched code over its old tiles, the cache still sound |
| ImportWindow.GISImportWindow.ImportRaster | Assets/Scripts/Editor/GISImportWindow.cs:178-253 | textures of different sizes change nothing; otherwise the map takes their size, an empty elevation range stops there, and else both layers hold the converted images |
| ImportWindow.GISImportWindow.ImportSized | Assets/Scripts/Editor/GISImportWindow.cs:190-243 | the map takes the textures' size; the layers are unchanged after the range dialog and hold the converted images otherwise |
| ImportWindow.GISImportWindow.ImportInRange | Assets/Scripts/Editor/GISImportWindow.cs:191-243 | an empty elevation range gives the range-dialog outcome and leaves both layers' tiles; otherwise both layers hold the converted images' writes |
| ImportWindow.GISImportWindow.ImportImages | Assets/Scripts/Editor/GISImportWindow.cs:197-243 | the elevation layer holds the converted elevation image and the fuel layer the matched fuel image, over their old tiles |
| ImportWindow.GISImportWindow.WriteFuelRow | Assets/Scripts/Editor/GISImportWindow.cs:238-242 | the layer ends with the row's matched codes over its old tiles, the cache still sound |
| ImportWindow.PointLayers | Assets/Scripts/Editor/GISImportWindow.cs:286-300 | both layers take the grid and the tile size and keep their tiles; each stays well formed exactly when it can take the size, and then reads as before |
| ImportWindow.PointLayer | Assets/Scripts/Editor/GISImportWindow.cs:286-292 | the layer takes the grid and the tile size and keeps its tiles; it stays well formed exactly when it can take the size, and then reads as before |
| ImportWindow.WriteLines | Assets/Scripts/Editor/GISImportWindow.cs:400-436 | the layer ends with the in-grid writes of the accepted lines over its old tiles, and the count is their number |
| ImportWindow.WriteLine | Assets/Scripts/Editor/GISImportWindow.cs:403-421 | a line writes exactly its one in-grid write, if it has one, and otherwise changes nothing |
| TerrainMesh.ChunkTileSize | Assets/Scripts/GIS/TerrainTile.cs:33 | a chunk's tile size is positive: 122 without an elevation layer, else the layer's effective size |
| TerrainMesh.MeshExtent | Assets/Scripts/GIS/TerrainTile.cs:95-102 | between 1 and the tile size on each axis; a full tile without map data; one pixel when nothing of the map is left; otherwise up to the map's edge and no further |
| TerrainMesh.VertexIndexDecodes | Assets/Scripts/GIS/TerrainTile.cs:104-124 | vertex (x, z) sits inside the (w+1)x(h+1) grid and decodes back to (x, z) |
| TerrainMesh.VertexIndexOnto | Assets/Scripts/GIS/TerrainTile.cs:104-124 | every index of the grid is the index of the vertex it decodes to |
| TerrainMesh.CellCorners | Assets/Scripts/GIS/TerrainTile.cs:131-143 | each cell has six triangle corners |
| TerrainMesh.CellSlots | Assets/Scripts/GIS/TerrainTile.cs:126-145 | the six slots of cell (x, z) hold i0, i1, i2, i1, i3, i2 and fit the triangle array |
| TerrainMesh.CellFits | Assets/Scripts/GIS/TerrainTile.cs:109 | a cell's six slots fit the triangle array |
| TerrainMesh.CellSlot | Assets/Scripts/GIS/TerrainTile.cs:137-143 | slot k of a cell holds its k-th corner |
| TerrainMesh.TriangleInGrid | Assets/Scripts/GIS/TerrainTile.cs:126-145 | every corner the triangle loop emits is a vertex of the grid |
| TerrainMesh.CategoryColor | Assets/Scripts/GIS/TerrainTile.cs:160-166 | no fuel is gray-green, roads black, water blue, every other code uncategorised; the urban purple is never returned, because every urban code is a road code |
| TerrainMesh.Ratio | Assets/Scripts/GIS/TerrainTile.cs:180-181 | between 0 and 1; one half without a positive maximum; 1 at or past the maximum and 0 at or below zero |
| TerrainMesh.Shade | Assets/Scripts/GIS/TerrainTile.cs:180-186 | the base hue kept, saturation in [0.3, 1] and brightness in [0.4, 1], at their midpoints without a maximum and full at or past it |
| TerrainMesh.ShadeMonotone | Assets/Scripts/GIS/TerrainTile.cs:180-186 | more flame never lowers the saturation and a faster spread never lowers the brightness |
| TerrainMesh.RatioMonotone | Assets/Scripts/GIS/TerrainTile.cs:180-181 | the ratio never falls as the value grows |
| TerrainMesh.FuelShade | Assets/Scripts/GIS/TerrainTile.cs:168-186 | an unknown fuel gets the gray-green hue with saturation 0.37 and brightness 0.46; a known one its base hue; always within the shade ranges |
| TerrainMesh.Uv | Assets/Scripts/GIS/TerrainTile.cs:120 | coordinates inside the mesh map into [0, 1], from 0 at the first edge to 1 at the last |
| TerrainMesh.WriteCell | Assets/Scripts/GIS/TerrainTile.cs:131-143 | the cell's six corners written after the slots already written, which stay |
| TerrainMesh.BuildTriangles | Assets/Scripts/GIS/TerrainTile.cs:109-145 | an array of w*h*6 slots, each holding its corner of its cell |
| TerrainMesh.TerrainTile.Extent | Assets/Scripts/GIS/TerrainTile.cs:95-102 | this chunk's mesh spans between 1 and the tile size pixels on each axis |
| TerrainMesh.TerrainTile.Facts | Assets/Scripts/GIS/TerrainTile.cs:170-171 | a fuel is known exactly when the set finds it, and then with its base colour |
| TerrainMesh.TerrainTile.GetFuelColor | Assets/Scripts/GIS/TerrainTile.cs:158-187 | gray-green without fuels; the category colour of the sampled code when it has one; otherwise the shade of what the set knows of it under the current weather |
| TerrainMesh.TerrainTile.MeshWellFormed | Assets/Scripts/GIS/TerrainTile.cs:104-155 | every triangle corner is a vertex of the mesh, and vertex (x, z) sits at (x, height, -z) |
| TerrainMesh.TerrainTile.GenerateMeshFromHeights | Assets/Scripts/GIS/TerrainTile.cs:93-156 | the mesh has one placed, textured and coloured vertex per grid point and two triangles per cell |
| TerrainMesh.TerrainTile.FillVertices | Assets/Scripts/GIS/TerrainTile.cs:111-124 | one vertex, uv and colour per grid point, in index order, each placed from its clamped height and fuel sample |
| TerrainMesh.TerrainTile.BuildMesh | Assets/Scripts/GIS/TerrainTile.cs:74-91 | the mesh is built from the stored elevation and fuel tiles, or from flat heights and no fuels without an elevation layer |
| TerrainMesh.TerrainTile.ReadTiles | Assets/Scripts/GIS/TerrainTile.cs:82-83 | the heights are the elevation tile (all zero without a layer) and the fuels the fuel tile, if a fuel layer exists |
| TerrainMesh.TerrainTile.constructor | Assets/Scripts/GIS/TerrainTile.cs:24-38 | the chunk keeps its coordinates and sources, takes its tile size from the elevation layer, and holds the built mesh |
| TerrainBuild.EffectiveTileSize | Assets/Scripts/GIS/TerrainGenerator.cs:153-160 | positive: the map's tile size when positive, else the elevation layer's effective size or 122 |
| TerrainBuild.TileCount | Assets/Scripts/GIS/TerrainGenerator.cs:166-167 | at least one chunk; for a positive width, the fewest chunks of the tile size that cover it |
| TerrainBuild.ChunksCoverWidth | Assets/Scripts/GIS/TerrainGenerator.cs:166-189 | every pixel of the width lies in one of the counted chunks |
| TerrainBuild.ChunkStartsInside | Assets/Scripts/GIS/TerrainGenerator.cs:166-189 | every counted chunk starts inside the map, so no chunk mesh collapses to one pixel |
| TerrainBuild.KeyAxis | Assets/Scripts/GIS/TerrainGenerator.cs:217-218 | the floor of the coordinate over the tile size; int.MinValue for a zero tile size |
| TerrainBuild.TerrainGenerator.constructor | Assets/Scripts/GIS/TerrainGenerator.cs:16-24 | the generator keeps its references and starts with no chunks |
| TerrainBuild.TerrainGenerator.ChunkSize | Assets/Scripts/GIS/TerrainGenerator.cs:153-160 | the size chunks are counted in is positive |
| TerrainBuild.TerrainGenerator.ServedSize | Assets/Scripts/GIS/TerrainTile.cs:33 | the size of the chunks served is positive |
| TerrainBuild.TerrainGenerator.ApplyFallbacks | Assets/Scripts/GIS/TerrainGenerator.cs:127-143 | a missing map is the scene's, missing layers are the map's, and a missing fuel set is the game manager's; present references stay |
| TerrainBuild.TerrainGenerator.BuildTiles | Assets/Scripts/GIS/TerrainGenerator.cs:146-189 | without a map or with an empty extent the chunks stay; a positive map tile size is pushed to both layers; otherwise the counts cover the map and one fresh chunk is made per key of the counted grid |
| TerrainBuild.TerrainGenerator.SyncTileSize | Assets/Scripts/GIS/TerrainGenerator.cs:153-160 | the effective tile size, pushed to the layers when the map has one and the layers untouched otherwise |
| TerrainBuild.TerrainGenerator.BuildChunks | Assets/Scripts/GIS/TerrainGenerator.cs:176-189 | exactly one fresh, distinct chunk per key of the counted grid, each made at its key, and the generator serving |
| TerrainBuild.TerrainGenerator.BuildColumn | Assets/Scripts/GIS/TerrainGenerator.cs:180-188 | one more column of fresh chunks, earlier chunks kept |
| TerrainBuild.TerrainGenerator.AddChunk | Assets/Scripts/GIS/TerrainGenerator.cs:182-187 | a fresh chunk made at the key is added and nothing else changes in the chunk map |
| TerrainBuild.TerrainGenerator.NewChunk | Assets/Scripts/GIS/TerrainGenerator.cs:185 | a fresh chunk made at the key from the generator's references |
| TerrainBuild.TerrainGenerator.BuildAllTilesImmediate | Assets/Scripts/GIS/TerrainGenerator.cs:115-202 | the fallbacks applied, then the chunks built as above |
| TerrainBuild.TerrainGenerator.PixelKey | Assets/Scripts/GIS/TerrainGenerator.cs:217-218 | the key of the chunk holding the pixel by the layer's tile size; int.MinValue keys for a zero size |
| TerrainBuild.TerrainGenerator.PixelElevationChanged | Assets/Scripts/GIS/TerrainGenerator.cs:215-223 | the chunk at the pixel's key, if built, holds a fresh mesh of the current tiles; the generator keeps serving |
| TerrainBuild.TerrainGenerator.PixelRoutesToBuiltChunk | Assets/Scripts/GIS/TerrainGenerator.cs:166-189 | after a build, every pixel of the map routes to a built chunk |
| Cells.SlopeMirror | Assets/Scripts/GIS/Pixel.cs:91-100 | swapping each pair of opposite neighbours leaves the slope unchanged |
| Cells.SlopeLevel | Assets/Scripts/GIS/Pixel.cs:96-100 | level opposite neighbours give the slope of a flat gradient, whatever their height |
| Cells.LayersKept | Assets/Scripts/GIS/MapData.cs:66-70 | a map whose layers kept their tiles and size reads the same everywhere |
| Cells.Pixel.constructor | Assets/Scripts/GIS/Pixel.cs:10-32 | a new pixel is alive, not burning, at its coordinates, with nothing cached |
| Cells.Pixel.Elevation | Assets/Scripts/GIS/Pixel.cs:36-43 | the first read caches the map's elevation (0 without a map); later reads return the cache and leave the map alone |
| Cells.Pixel.SetElevation | Assets/Scripts/GIS/Pixel.cs:44-50 | the cache holds the value, the map holds it at this pixel and nowhere else changes, the slope cache is emptied and the fuel cache kept, and the generator keeps serving |
| Cells.Pixel.WriteElevation | Assets/Scripts/GIS/Pixel.cs:47 | the map holds the value at this pixel and nowhere else changes |
| Cells.Pixel.RebuildChunk | Assets/Scripts/GIS/Pixel.cs:48 | the rebuild leaves every elevation of the map as it was and the generator serving |
| Cells.Pixel.FuelCode | Assets/Scripts/GIS/Pixel.cs:55-62 | the first read caches the map's fuel code (98 without a map); later reads return the cache and leave the map alone |
| Cells.Pixel.SetFuelCode | Assets/Scripts/GIS/Pixel.cs:63-68 | the cache holds the value, the map holds it at this pixel and nowhere else changes, the elevations and the other caches stay |
| Cells.Pixel.ComputeSlope | Assets/Scripts/GIS/Pixel.cs:86-101 | 0 without a map; otherwise the slope of exactly the four neighbours' elevations |
| Cells.Pixel.Slope | Assets/Scripts/GIS/Pixel.cs:71-81 | the first read computes and caches the slope; later reads return the cache and leave the map alone |
| Cells.Pixel.Position | Assets/Scripts/GIS/Pixel.cs:83 | the pixel at (x, elevation / 30, -z), the elevation read through the cache |
| LinePaths.LinePath.constructor | Assets/Scripts/LinePaths/LinePath.cs:11 | a new path has no points |
| LinePaths.LinePathPoint.constructor | Assets/Scripts/LinePaths/LinePathPoint.cs:19 | a point keeps its world position |
| CatalogTools.PresentCountStep | Assets/Scripts/Editor/FuelCodeSetColorizer.cs:19-26 | one more entry adds one to the count exactly when it is present |
| FamilyTuning.FlamesOf | Assets/Scripts/Editor/FuelCodeFamilyAutoTuner.cs:37-45 | one flame length per member of the bucket, at the given wind and moisture |
| FamilyTuning.RatesOf | Assets/Scripts/Editor/FuelCodeFamilyAutoTuner.cs:37-45 | one spread rate per member of the bucket, at the given wind and moisture |
| FamilyTuning.Shade | Assets/Scripts/Editor/FuelCodeFamilyAutoTuner.cs:55-60 | a shade lies in [0.3, 1.0] |
| FamilyTuning.Prefixes | Assets/Scripts/Editor/FuelCodeFamilyAutoTuner.cs:17-21 | one prefix per entry, present exactly for a present fuel |
| FamilyTuning.PrefixesAt | Assets/Scripts/Editor/FuelCodeFamilyAutoTuner.cs:17-21 | entry i's prefix is its fuel's family prefix |
| FamilyTuning.Flames | Assets/Scripts/Editor/FuelCodeFamilyAutoTuner.cs:37-45 | one flame length per entry, that of its fuel |
| FamilyTuning.Rates | Assets/Scripts/Editor/FuelCodeFamilyAutoTuner.cs:37-45 | one spread rate per entry, that of its fuel |
| FamilyTuning.MembersStep | Assets/Scripts/Editor/FuelCodeFamilyAutoTuner.cs:17-24 | one more entry extends exactly the family of its prefix |
| FamilyTuning.FamilyValues | Assets/Scripts/Editor/FuelCodeFamilyAutoTuner.cs:27-45 | an entry's family has at least one value |
| FamilyTuning.Target | Assets/Scripts/Editor/FuelCodeFamilyAutoTuner.cs:50-60 | an entry's target shade lies in [0.3, 1.0] |
| FamilyTuning.Targets | Assets/Scripts/Editor/FuelCodeFamilyAutoTuner.cs:50-60 | one target per entry, that of its family for a present fuel |
| FamilyTuning.BucketsStep | Assets/Scripts/Editor/FuelCodeFamilyAutoTuner.cs:15-25 | one step of the first pass keeps every bucket holding its family so far |
| FamilyTuning.BucketedAll | Assets/Scripts/Editor/FuelCodeFamilyAutoTuner.cs:15-25 | after the list, every present entry's prefix has a non-empty bucket holding its family |
| FamilyTuning.FamilyInputs | Assets/Scripts/Editor/FuelCodeFamilyAutoTuner.cs:37-45 | a bucket's flame lengths and spread rates are its family's values |
| FamilyTuning.FamilyTargets | Assets/Scripts/Editor/FuelCodeFamilyAutoTuner.cs:50-60 | every entry with the prefix is in its bucket, where its targets are its family's shades |
| FamilyTuning.FamilyExcludes | Assets/Scripts/Editor/FuelCodeFamilyAutoTuner.cs:15-25 | no entry with another prefix is in the bucket |
| FamilyTuning.BucketsReady | Assets/Scripts/Editor/FuelCodeFamilyAutoTuner.cs:27-63 | every bucket holds its prefix's entries and their target shades |
| Mathf.LerpBetween | Assets/Scripts/GIS/TerrainTile.cs:184-185 | an interpolation lies between its ends, at the first for 0 and at the last for 1 |

## Left out

- Engine plumbing, which is all foreign calls into Unity and not part of this
  model:
  - creating GameObjects, meshes and materials, and `Recalculate*`;
  - `EnsureMaterial`, destroying child objects, and the placeholder plane;
  - `OnValidate`, `QueueRebuild`, `Start` and `IsInPrefabMode`.
- Editor UI: `OnGUI`, dialogs, file panels, the progress bar and its
  cancellation, `AssetDatabase`, `SetDirty`, `IsReadyForRaster`/`IsReadyForXYZ`,
  `ImportXYZ`, `RebuildTerrain`, `EnsureXYZTargets`, `ReadXYZText`,
  `SelectXYZFile`, `RunRasterSmokeTest`, `EnsureReadable` and
  `ImportGeoTiffTexture`. The window's importers take the texts and textures
  as parameters.
- File reading and JSON decoding (`File.ReadAllText`, `JsonUtility.FromJson`)
  are foreign calls. `LoadFromJsonText` takes the decode as a parameter that
  gives the already-decoded items, or none.
- Floats: single-precision numbers are reals and `/` on them is exact, so
  rounding and the precision of int-to-float conversions are not modelled.
  The tile split is exact only for coordinates below 2^24 in magnitude,
  where floats represent every integer.
- `float.Parse`/`float.TryParse` are the parameter `parseFloat`.
- `Color.RGBToHSV`/`Color.HSVToRGB`, the colour adjustment of the palette
  builder, and the texture decode (`GetPixels`, `GetPixelData`, texture
  formats) are engine numerics. They are parameters, or the abstract
  `RasterImage.ElevationTexture`.
- The async/`Task.Yield` structure of `GISDataParser.ParseXYZ`: the parse is
  sequential here.
- `Cells.Pixel.ComputeSlope`: the slope angle (`Atan`, `Sqrt`, `Rad2Deg`) is
  the parameter `steepness`. Only which neighbours are read, and how their
  differences are combined, is modelled.
- The fire state of `Pixel`: the `Pow` conversions
  `UpdateFireIntensityFromFlameLength`/`UpdateFlameLengthFromFireIntensity`
  and the fire fields are float formulas nothing here reads.
- The empty hooks `PixelFuelCodeChanged`, `CatchPixelOnFire`,
  `UpdatePixelWaterOrRetardant` and `PixelDied` do nothing and are not
  modelled. `MapData.ResetMap` and `MapData.GetPixel` only construct engine
  objects and are not modelled.
- Raster.RasterLayer.GetTileData: tiles are values (a map from tile index to
  a grid). The stored tile that the source returns by reference, and the
  aliasing that follows from it, are not captured. Mesh arrays are sequences
  for the same reason.
- Raster.RasterLayer.SetTileData: the stored grid must already have the
  layer's size. The source would accept any array and fail on later indexing.
- TerrainMesh.TerrainTile.BuildMesh requires that the elevation layer's
  stored tiles have the chunk's tile size. The source reads a mismatched
  tile out of bounds.
- TerrainMesh.TerrainTile.GenerateMeshFromHeights requires `FuelsSafe`, that
  no fuel lookup meets a missing catalog entry for any code. This is
  stronger than the source, which fails only for the codes it looks up.
- TerrainBuild.TerrainGenerator.BuildAllTilesImmediate requires `CanBuild`.
  The layers must be well formed, a positive map tile size must fit their
  stored tiles, and fuel lookups must be safe. The source would throw
  otherwise.
- TerrainBuild.TerrainGenerator.PixelElevationChanged requires `Serving`:
  every built chunk sits at its key and is sized for the layers. It also
  requires an elevation layer, which the source dereferences without a check.
- TerrainBuild.TerrainGenerator.PixelKey models the zero tile size (a key of
  `int.MinValue`), but the overflow of `tileX * tileSize` for huge tile
  indices is not modelled.
- TerrainMesh.MeshExtent computes `xWidth - tileX * tileSize` (and the same
  along z) on unbounded integers. The source's 32-bit product and difference
  can wrap for chunk indices near `int.MaxValue / tileSize`; that is not
  modelled.
- FuelCatalog.FuelCodeSet.GetFuelCode requires `ScanSafe`: no missing entry
  comes before the first fuel with the id. There the source's `FirstOrDefault`
  throws a `NullReferenceException`; the function is not defined for that
  case, and `FuelCatalog.ScanFaults` states exactly when it arises.
- ImportWindow.GISImportWindow.InitializeMapFromXYZ requires that both layers
  can take the new tile size (`FitsTileSize`: no tile stored, or the stored
  tiles already of that size). The source assigns the size regardless. The
  writes that follow then index a stored tile of the old size with the new
  one: a smaller size moves values to other pixels, a larger one throws
  `IndexOutOfRangeException`. Neither outcome is modelled.
  `InitializeMap`, `PointLayers`, `PointLayer` and `SetTileSize` do model
  the assignment itself for any size.
- ImportWindow.GISImportWindow.LoadOntoGrid requires `FitsTileSize` for both
  layers, for the same reason as `InitializeMapFromXYZ`.
- ImportWindow.GISImportWindow.ImportRaster requires `FitsTileSize` for both
  layers, for the same reason as `InitializeMapFromXYZ`.
- ImportWindow.GISImportWindow.ImportSized requires `FitsTileSize` for both
  layers, for the same reason as `InitializeMapFromXYZ`.
- Text.ToUpperChar: case mapping is ASCII-only. The invariant culture's
  non-ASCII mappings used by `ToUpperInvariant` (such as 'é' to 'É' or 'ſ'
  to 'S') are not modelled, so two-letter family prefixes that differ only
  in such letters are distinct families here.
- Text.ToUpper applies `ToUpperChar` to each character, so it has the same
  ASCII-only limit.
- TerrainBuild.TerrainGenerator.BuildAllTilesImmediate takes the scene's
  `MapData` (the source's `FindObjectOfType`) as the parameter
  `sceneMapData`.
- Cells.Pixel.constructor takes the game manager's map data and terrain
  generator directly. They are fixed for the pixel's lifetime, while the
  source reads them through the game manager on every access.
- Cells.Pixel.SetElevation clears the slope cache before it writes the map
  and notifies the generator, where the source clears it last. Nothing in
  between reads the slope, so the order cannot be observed.
- FamilyTuning.Apply: `Dictionary` enumeration order is not modelled. The
  families are tuned in an unspecified order, which is sound because
  families are disjoint.
- The game manager appears only as its wind speed and moisture state, given
  as a value with the source's fallbacks (wind 10, moisture Medium).
- The network, scene bootstrapping, brush painting, Perlin generators and
  inspectors are outside the modelled core.
