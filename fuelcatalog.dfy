/**
 * The fuel-behaviour catalog: per-fuel data with response curves for every
 * moisture state, and the asset that lists the fuels and loads them from
 * already-decoded JSON items.
 */
module FuelCatalog {
  import opened Numeric
  import opened Wrappers
  import opened Mathf
  import opened Colors
  import opened Text
  import opened Bezier

  /** `MoistureState`: a C# enum, so any 32-bit value can occur; four are named. */
  newtype MoistureState = x: int | -0x8000_0000 <= x < 0x8000_0000

  const VeryLow: MoistureState := 0
  const Low: MoistureState := 1
  const Medium: MoistureState := 2
  const High: MoistureState := 3

  /** The four curves of one quantity, one per moisture state; a missing curve is `None`. */
  datatype MoistureCurves = MoistureCurves(
    veryLow: Option<BezierCurve>, low: Option<BezierCurve>,
    medium: Option<BezierCurve>, high: Option<BezierCurve>)
  {
    /**
     * The curve selection every `Get...Curve` makes: the VeryLow, Low and High
     * states pick their own curve, every other value picks Medium.
     */
    function Select(moisture: MoistureState): (c: Option<BezierCurve>)
      ensures moisture == VeryLow ==> c == veryLow
      ensures moisture == Low ==> c == low
      ensures moisture == High ==> c == high
      ensures moisture != VeryLow && moisture != Low && moisture != High ==> c == medium
    {
      if moisture == VeryLow then veryLow
      else if moisture == Low then low
      else if moisture == High then high
      else medium
    }
  }

  const NoCurves: MoistureCurves := MoistureCurves(None, None, None, None)

  /** The wind-speed range the spread and flame curves are read over. */
  const WindSpeedMax: real := 50.0
  /** The slope-angle range, in degrees, the slope curves are read over. */
  const SlopeAngleMax: real := 90.0

  /** A curve's value for a quantity, or `fallback` when the curve is missing. */
  function CurveValue(c: Option<BezierCurve>, input: real, inputMax: real, fallback: real): (r: real)
    ensures c.None? ==> r == fallback
    ensures c.Some? && c.value.min <= c.value.max ==> c.value.min <= r <= c.value.max
  {
    match c
    case None => fallback
    case Some(curve) => curve.EvaluateWithInput(input, 0.0, inputMax)
  }

  /**
   * With a curve whose `min <= max`, an input at or below 0 reads `min` and
   * one at or above the range's end reads `max`.
   */
  lemma {:induction false} CurveValueEnds(c: BezierCurve, input: real, inputMax: real, fallback: real)
    requires c.min <= c.max && 0.0 < inputMax
    ensures input <= 0.0 ==> CurveValue(Some(c), input, inputMax, fallback) == c.min
    ensures input >= inputMax ==> CurveValue(Some(c), input, inputMax, fallback) == c.max
  {
    EvaluateWithInputEnds(c, input, 0.0, inputMax);
  }

  /** The spread rate a fuel's spread curves give at a wind speed and moisture. */
  function SpreadRate(ros: MoistureCurves, windSpeed: real, moisture: MoistureState): real {
    CurveValue(ros.Select(moisture), windSpeed, WindSpeedMax, 0.0)
  }

  /** The flame length a fuel's flame curves give at a wind speed and moisture. */
  function FlameLength(flame: MoistureCurves, windSpeed: real, moisture: MoistureState): real {
    CurveValue(flame.Select(moisture), windSpeed, WindSpeedMax, 0.0)
  }

  /** `FuelCodeData`: one fuel model. */
  class FuelCodeData {
    /** The asset's object name, which the editor tools keep as the display name. */
    var name: string
    var title: string
    var codeGIS: string
    var fuelCodeID: Int16
    var baseColor: Color
    var hour1: real
    var hour10: real
    var hour100: real
    var ros: MoistureCurves
    var flame: MoistureCurves
    var slope: MoistureCurves
    var familyBrightness: real
    var familySaturation: real

    constructor ()
      ensures name == "" && title == "" && codeGIS == "" && fuelCodeID == 0 && baseColor == Green
      ensures hour1 == 0.0 && hour10 == 0.0 && hour100 == 0.0
      ensures ros == NoCurves && flame == NoCurves && slope == NoCurves
      ensures familyBrightness == 0.0 && familySaturation == 0.0
    {
      name, title, codeGIS := "", "", "";
      fuelCodeID := 0;
      baseColor := Green;
      hour1, hour10, hour100 := 0.0, 0.0, 0.0;
      ros, flame, slope := NoCurves, NoCurves, NoCurves;
      familyBrightness, familySaturation := 0.0, 0.0;
    }

    /** The fuel `LoadFromJsonText` creates for one item: the item's fields over the defaults. */
    constructor FromItem(item: FuelCodeItem)
      ensures LoadedFrom(this, item)
    {
      name := "";
      title := item.title;
      codeGIS := item.codeGIS;
      fuelCodeID := IdFromCode(item.codeGIS);
      baseColor := Green;
      hour1, hour10, hour100 := item.hour1, item.hour10, item.hour100;
      ros := RosCurves(item);
      flame := FlameCurves(item);
      slope := SlopeCurves(item);
      familyBrightness, familySaturation := 0.0, 0.0;
    }

    function GetROSCurve(moisture: MoistureState): Option<BezierCurve>
      reads this`ros
    {
      ros.Select(moisture)
    }

    function GetFlameCurve(moisture: MoistureState): Option<BezierCurve>
      reads this`flame
    {
      flame.Select(moisture)
    }

    function GetSlopeCurve(moisture: MoistureState): Option<BezierCurve>
      reads this`slope
    {
      slope.Select(moisture)
    }

    /** `CalculateROS`: 0 without a curve, otherwise the curve read over wind speeds [0, 50]. */
    function CalculateROS(windSpeed: real, moisture: MoistureState): (r: real)
      reads this`ros
      ensures GetROSCurve(moisture).None? ==> r == 0.0
      ensures var c := GetROSCurve(moisture); c.Some? && c.value.min <= c.value.max ==> c.value.min <= r <= c.value.max
    {
      SpreadRate(ros, windSpeed, moisture)
    }

    /** `CalculateFlameLength`: 0 without a curve, otherwise the curve read over wind speeds [0, 50]. */
    function CalculateFlameLength(windSpeed: real, moisture: MoistureState): (r: real)
      reads this`flame
      ensures GetFlameCurve(moisture).None? ==> r == 0.0
      ensures var c := GetFlameCurve(moisture); c.Some? && c.value.min <= c.value.max ==> c.value.min <= r <= c.value.max
    {
      FlameLength(flame, windSpeed, moisture)
    }

    /** `CalculateSlopeFactor`: 1 without a curve, otherwise the curve read over slopes [0, 90] degrees. */
    function CalculateSlopeFactor(slopeAngle: real, moisture: MoistureState): (r: real)
      reads this`slope
      ensures GetSlopeCurve(moisture).None? ==> r == 1.0
      ensures var c := GetSlopeCurve(moisture); c.Some? && c.value.min <= c.value.max ==> c.value.min <= r <= c.value.max
    {
      CurveValue(GetSlopeCurve(moisture), slopeAngle, SlopeAngleMax, 1.0)
    }
  }

  /** One curve as the JSON export stores it. */
  datatype CurveJson = CurveJson(x1: real, y1: real, x2: real, y2: real, min: real, max: real)

  /** One fuel as the JSON export stores it; a missing curve is `None`. */
  datatype FuelCodeItem = FuelCodeItem(
    title: string, codeGIS: string, hour1: real, hour10: real, hour100: real,
    rosVeryLow: Option<CurveJson>, rosLow: Option<CurveJson>, rosMedium: Option<CurveJson>, rosHigh: Option<CurveJson>,
    flameVeryLow: Option<CurveJson>, flameLow: Option<CurveJson>, flameMedium: Option<CurveJson>, flameHigh: Option<CurveJson>,
    slopeVeryLow: Option<CurveJson>, slopeLow: Option<CurveJson>, slopeMedium: Option<CurveJson>, slopeHigh: Option<CurveJson>)

  /**
   * At calm wind a fuel's spread and flame curves read their `min`, from a
   * wind of 50 on their `max`; a flat slope reads the slope curve's `min`, a
   * slope of 90 degrees or more its `max`.
   */
  lemma {:induction false} CalculateEnds(fc: FuelCodeData, windSpeed: real, slopeAngle: real, moisture: MoistureState)
    ensures var c := fc.GetROSCurve(moisture); c.Some? && c.value.min <= c.value.max ==>
              (windSpeed <= 0.0 ==> fc.CalculateROS(windSpeed, moisture) == c.value.min) &&
              (windSpeed >= WindSpeedMax ==> fc.CalculateROS(windSpeed, moisture) == c.value.max)
    ensures var c := fc.GetFlameCurve(moisture); c.Some? && c.value.min <= c.value.max ==>
              (windSpeed <= 0.0 ==> fc.CalculateFlameLength(windSpeed, moisture) == c.value.min) &&
              (windSpeed >= WindSpeedMax ==> fc.CalculateFlameLength(windSpeed, moisture) == c.value.max)
    ensures var c := fc.GetSlopeCurve(moisture); c.Some? && c.value.min <= c.value.max ==>
              (slopeAngle <= 0.0 ==> fc.CalculateSlopeFactor(slopeAngle, moisture) == c.value.min) &&
              (slopeAngle >= SlopeAngleMax ==> fc.CalculateSlopeFactor(slopeAngle, moisture) == c.value.max)
  {
    var r, f, sl := fc.GetROSCurve(moisture), fc.GetFlameCurve(moisture), fc.GetSlopeCurve(moisture);
    if r.Some? && r.value.min <= r.value.max {
      CurveValueEnds(r.value, windSpeed, WindSpeedMax, 0.0);
    }
    if f.Some? && f.value.min <= f.value.max {
      CurveValueEnds(f.value, windSpeed, WindSpeedMax, 0.0);
    }
    if sl.Some? && sl.value.min <= sl.value.max {
      CurveValueEnds(sl.value, slopeAngle, SlopeAngleMax, 1.0);
    }
  }

  /** `ToCurve`: a missing curve stays missing; any other is copied field for field. */
  function ToCurve(c: Option<CurveJson>): (r: Option<BezierCurve>)
    ensures r.None? <==> c.None?
    ensures c.Some? ==> r.value.x1 == c.value.x1 && r.value.y1 == c.value.y1 && r.value.x2 == c.value.x2 &&
                        r.value.y2 == c.value.y2 && r.value.min == c.value.min && r.value.max == c.value.max
  {
    match c
    case None => None
    case Some(j) => Some(From(j.x1, j.y1, j.x2, j.y2, j.min, j.max))
  }
  /** The four moisture curves of each behaviour an item carries, converted. */
  function RosCurves(item: FuelCodeItem): MoistureCurves {
    MoistureCurves(ToCurve(item.rosVeryLow), ToCurve(item.rosLow), ToCurve(item.rosMedium), ToCurve(item.rosHigh))
  }

  function FlameCurves(item: FuelCodeItem): MoistureCurves {
    MoistureCurves(ToCurve(item.flameVeryLow), ToCurve(item.flameLow), ToCurve(item.flameMedium), ToCurve(item.flameHigh))
  }

  function SlopeCurves(item: FuelCodeItem): MoistureCurves {
    MoistureCurves(ToCurve(item.slopeVeryLow), ToCurve(item.slopeLow), ToCurve(item.slopeMedium), ToCurve(item.slopeHigh))
  }


  /** The id a fuel gets from its GIS code: the code as a `short`, or 0 when it is not one. */
  function IdFromCode(codeGIS: string): (id: Int16)
    ensures TryParseInt16(codeGIS).Some? ==> id == TryParseInt16(codeGIS).value
    ensures TryParseInt16(codeGIS).None? ==> id == 0
  {
    match TryParseInt16(codeGIS)
    case Some(v) => v
    case None => 0
  }

  /** The fuels a list holds, without the missing entries. */
  ghost function Entries(codes: seq<FuelCodeData?>): set<FuelCodeData> {
    set fc: FuelCodeData | fc in codes
  }

  /** A fuel the loader created from `item`: every field is the item's or the fresh default. */
  ghost predicate LoadedFrom(fc: FuelCodeData, item: FuelCodeItem)
    reads fc
  {
    fc.name == "" && fc.baseColor == Green && fc.familyBrightness == 0.0 && fc.familySaturation == 0.0 &&
    HoldsItem(fc, item)
  }

  /** The fields a fuel copies from its item: everything but its name, colour and shades. */
  ghost predicate HoldsItem(fc: FuelCodeData, item: FuelCodeItem)
    reads fc`title, fc`codeGIS, fc`fuelCodeID, fc`hour1, fc`hour10, fc`hour100, fc`ros, fc`flame, fc`slope
  {
    fc.title == item.title && fc.codeGIS == item.codeGIS && fc.fuelCodeID == IdFromCode(item.codeGIS) &&
    fc.hour1 == item.hour1 && fc.hour10 == item.hour10 && fc.hour100 == item.hour100 &&
    fc.ros == RosCurves(item) &&
    fc.flame == FlameCurves(item) &&
    fc.slope == SlopeCurves(item)
  }

  /**
   * The first-match scan inspects entries in order and dereferences each one
   * it reaches, so every entry up to and including the first match must be
   * present (in the source a missing one throws).
   */
  predicate ScanSafe(codes: seq<FuelCodeData?>, id: Int16, i: nat)
    reads codes
    decreases |codes| - i
  {
    i >= |codes| || (codes[i] != null && (codes[i].fuelCodeID == id || ScanSafe(codes, id, i + 1)))
  }

  /**
   * The scan from `i` faults exactly when it reaches a missing entry: one
   * that comes before every entry with the id.
   */
  lemma {:induction false} ScanFaults(codes: seq<FuelCodeData?>, id: Int16, i: nat)
    requires i <= |codes|
    ensures !ScanSafe(codes, id, i) <==>
              exists k :: i <= k < |codes| && codes[k] == null &&
                forall j :: i <= j < k ==> codes[j] != null && codes[j].fuelCodeID != id
    decreases |codes| - i
  {
    if i < |codes| {
      ScanFaults(codes, id, i + 1);
      if codes[i] != null && codes[i].fuelCodeID != id && !ScanSafe(codes, id, i + 1) {
        var k :| i + 1 <= k < |codes| && codes[k] == null &&
                 forall j :: i + 1 <= j < k ==> codes[j] != null && codes[j].fuelCodeID != id;
        assert forall j :: i <= j < k ==> codes[j] != null && codes[j].fuelCodeID != id;
      }
    }
  }

  /** The index of the first entry at or after `i` with the given id, or `|codes|` when there is none. */
  function FirstFrom(codes: seq<FuelCodeData?>, id: Int16, i: nat): (k: nat)
    requires i <= |codes| && ScanSafe(codes, id, i)
    reads codes
    ensures i <= k <= |codes|
    ensures forall j :: i <= j < k ==> codes[j] != null && codes[j].fuelCodeID != id
    ensures k < |codes| ==> codes[k] != null && codes[k].fuelCodeID == id
    decreases |codes| - i
  {
    if i == |codes| then i
    else if codes[i].fuelCodeID == id then i
    else FirstFrom(codes, id, i + 1)
  }

  /** `FuelCodeSet`: the list of fuels of one catalog asset. */
  class FuelCodeSet {
    var fuelCodes: seq<FuelCodeData?>

    constructor ()
      ensures fuelCodes == []
    {
      fuelCodes := [];
    }

    /** `GetFuelCode`: the first fuel with the id, or null when no fuel has it. */
    function GetFuelCode(fuelCodeID: Int16): (r: FuelCodeData?)
      requires ScanSafe(fuelCodes, fuelCodeID, 0)
      reads this, fuelCodes
      ensures r == null <==> forall j :: 0 <= j < |fuelCodes| ==> fuelCodes[j] != null && fuelCodes[j].fuelCodeID != fuelCodeID
      ensures r != null ==> r.fuelCodeID == fuelCodeID
      ensures r != null ==>
                exists k :: 0 <= k < |fuelCodes| && fuelCodes[k] == r &&
                  (forall j :: 0 <= j < k ==> fuelCodes[j] != null && fuelCodes[j].fuelCodeID != fuelCodeID)
    {
      var k := FirstFrom(fuelCodes, fuelCodeID, 0);
      if k < |fuelCodes| then fuelCodes[k] else null
    }

    /**
     * `LoadFromJsonText`. `decode` stands for the JSON decoder; `None` is a
     * missing wrapper or item array. Empty text or a failed decode leaves the
     * list alone; otherwise the list is replaced by one fresh fuel per item,
     * in item order.
     */
    method LoadFromJsonText(jsonText: string, decode: string -> Option<seq<FuelCodeItem>>)
      modifies this`fuelCodes
      ensures jsonText == "" || decode(jsonText).None? ==> fuelCodes == old(fuelCodes)
      ensures jsonText != "" && decode(jsonText).Some? ==>
                var items := decode(jsonText).value;
                |fuelCodes| == |items| &&
                (forall i :: 0 <= i < |items| ==> fuelCodes[i] != null && fresh(fuelCodes[i]) && LoadedFrom(fuelCodes[i], items[i])) &&
                (forall i, j :: 0 <= i < j < |items| ==> fuelCodes[i] != fuelCodes[j])
    {
      if jsonText == "" {
        return;
      }
      var wrapper := decode(jsonText);
      if wrapper.None? {
        return;
      }
      var loaded := LoadItems(wrapper.value);
      fuelCodes := loaded;
    }
  }

  /** The loader's loop: one fresh fuel per item, in item order. */
  method LoadItems(items: seq<FuelCodeItem>) returns (loaded: seq<FuelCodeData?>)
    ensures |loaded| == |items|
    ensures forall i :: 0 <= i < |items| ==> loaded[i] != null && fresh(loaded[i]) && LoadedFrom(loaded[i], items[i])
    ensures forall i, j :: 0 <= i < j < |items| ==> loaded[i] != loaded[j]
  {
    loaded := [];
    for n := 0 to |items|
      invariant |loaded| == n
      invariant forall i :: 0 <= i < n ==> loaded[i] != null && fresh(loaded[i]) && LoadedFrom(loaded[i], items[i])
      invariant forall i, j :: 0 <= i < j < n ==> loaded[i] != loaded[j]
    {
      var fc := new FuelCodeData.FromItem(items[n]);
      loaded := loaded + [fc];
    }
  }
}
