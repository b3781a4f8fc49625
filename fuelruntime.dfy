/**
 * The runtime fuel lookup: a dictionary from fuel id to fuel, built from the
 * catalog asset, and the spread, flame and slope queries answered from it.
 */
module FuelRuntime {
  import opened Numeric
  import opened FuelCatalog

  /** The list holds no missing entry (the cache build dereferences every one). */
  predicate NoNulls(codes: seq<FuelCodeData?>) {
    forall i :: 0 <= i < |codes| ==> codes[i] != null
  }

  /** How many entries lead the list before its first missing one: all of them when none is missing. */
  function FirstNull(codes: seq<FuelCodeData?>): (k: nat)
    ensures k <= |codes| && NoNulls(codes[..k])
    ensures k < |codes| ==> codes[k] == null
  {
    if codes == [] || codes[0] == null then 0
    else
      var k := 1 + FirstNull(codes[1..]);
      assert forall i :: 1 <= i < k ==> codes[..k][i] == codes[1..][..k - 1][i - 1];
      k
  }

  /** A missing entry after a run of present ones is the first missing one. */
  lemma FirstNullAt(codes: seq<FuelCodeData?>, i: nat)
    requires i < |codes| && NoNulls(codes[..i]) && codes[i] == null
    ensures FirstNull(codes) == i
  {
  }

  /** The dictionary after inserting every fuel in list order: a later fuel with the same id overwrites. */
  function CacheOf(codes: seq<FuelCodeData?>): map<Int16, FuelCodeData>
    requires NoNulls(codes)
    reads codes
  {
    if codes == [] then map[]
    else
      var last := codes[|codes| - 1];
      CacheOf(codes[..|codes| - 1])[last.fuelCodeID := last]
  }

  /**
   * An id is cached exactly when some fuel in the list has it, and it maps to
   * the last such fuel.
   */
  lemma {:induction false} CacheOfLastWins(codes: seq<FuelCodeData?>, id: Int16)
    requires NoNulls(codes)
    ensures id in CacheOf(codes) <==> exists i :: 0 <= i < |codes| && codes[i].fuelCodeID == id
    ensures forall i :: 0 <= i < |codes| && codes[i].fuelCodeID == id &&
                        (forall j :: i < j < |codes| ==> codes[j].fuelCodeID != id) ==>
                          id in CacheOf(codes) && CacheOf(codes)[id] == codes[i]
  {
    if codes != [] {
      var n := |codes| - 1;
      var prefix := codes[..n];
      CacheOfLastWins(prefix, id);
      assert forall i :: 0 <= i < n ==> prefix[i] == codes[i];
      if codes[n].fuelCodeID != id {
        forall i | 0 <= i < |codes| && codes[i].fuelCodeID == id
          ensures i < n
        {
        }
      }
    }
  }

  /** When no two fuels share an id, the cache answers what the catalog's first-match lookup answers. */
  lemma {:induction false} CacheAgreesWithCatalog(catalog: FuelCodeSet, id: Int16)
    requires NoNulls(catalog.fuelCodes)
    requires forall i, j :: 0 <= i < j < |catalog.fuelCodes| ==> catalog.fuelCodes[i].fuelCodeID != catalog.fuelCodes[j].fuelCodeID
    ensures ScanSafe(catalog.fuelCodes, id, 0)
    ensures id in CacheOf(catalog.fuelCodes) <==> catalog.GetFuelCode(id) != null
    ensures id in CacheOf(catalog.fuelCodes) ==> CacheOf(catalog.fuelCodes)[id] == catalog.GetFuelCode(id)
  {
    var codes := catalog.fuelCodes;
    ScanSafeWithoutNulls(codes, id, 0);
    CacheOfLastWins(codes, id);
    var r := catalog.GetFuelCode(id);
    if r != null {
      var k :| 0 <= k < |codes| && codes[k] == r &&
               (forall j :: 0 <= j < k ==> codes[j] != null && codes[j].fuelCodeID != id);
      assert forall j :: k < j < |codes| ==> codes[j].fuelCodeID != id;
    }
  }

  /** Without missing entries the catalog scan never faults. */
  lemma {:induction false} ScanSafeWithoutNulls(codes: seq<FuelCodeData?>, id: Int16, i: nat)
    requires NoNulls(codes)
    ensures ScanSafe(codes, id, i)
    decreases |codes| - i
  {
    if i < |codes| {
      ScanSafeWithoutNulls(codes, id, i + 1);
    }
  }

  /** `FuelCodeManager`: the cache over the assigned catalog. */
  class FuelCodeManager {
    var fuelCodeSet: FuelCodeSet?
    var fuelCodeCache: map<Int16, FuelCodeData>

    constructor (fuelCodeSet: FuelCodeSet?)
      ensures this.fuelCodeSet == fuelCodeSet && fuelCodeCache == map[]
    {
      this.fuelCodeSet := fuelCodeSet;
      fuelCodeCache := map[];
    }

    /**
     * `BuildCache` (also what `Awake` does): clears the cache, then inserts
     * every fuel of the catalog in list order. A missing entry raises a
     * `NullReferenceException` (`threw`) when the loop reaches it, leaving
     * the cache with the fuels before it.
     */
    method BuildCache() returns (threw: bool)
      modifies this`fuelCodeCache
      ensures fuelCodeSet == null ==> !threw && fuelCodeCache == map[]
      ensures fuelCodeSet != null ==>
                threw == !NoNulls(fuelCodeSet.fuelCodes) &&
                fuelCodeCache == CacheOf(fuelCodeSet.fuelCodes[..FirstNull(fuelCodeSet.fuelCodes)])
      ensures fuelCodeSet != null && !threw ==> fuelCodeCache == CacheOf(fuelCodeSet.fuelCodes)
    {
      fuelCodeCache := map[];
      threw := false;
      if fuelCodeSet != null {
        var codes := fuelCodeSet.fuelCodes;
        var i := 0;
        while i < |codes|
          invariant 0 <= i <= |codes| && NoNulls(codes[..i])
          invariant fuelCodeCache == CacheOf(codes[..i])
        {
          if codes[i] == null {
            FirstNullAt(codes, i);
            return true;
          }
          assert codes[..i + 1][..i] == codes[..i];
          fuelCodeCache := fuelCodeCache[codes[i].fuelCodeID := codes[i]];
          i := i + 1;
        }
        assert codes[..|codes|] == codes;
      }
    }

    /** `GetROS`: the cached fuel's spread rate, 0 for an unknown id. Callers default `moisture` to `Medium`. */
    function GetROS(fuelCodeID: Int16, windSpeed: real, moisture: MoistureState): (r: real)
      reads this, fuelCodeCache.Values
      ensures fuelCodeID !in fuelCodeCache ==> r == 0.0
      ensures fuelCodeID in fuelCodeCache ==> r == fuelCodeCache[fuelCodeID].CalculateROS(windSpeed, moisture)
    {
      if fuelCodeID in fuelCodeCache then fuelCodeCache[fuelCodeID].CalculateROS(windSpeed, moisture) else 0.0
    }

    /** `GetFlameLength`: the cached fuel's flame length, 0 for an unknown id. */
    function GetFlameLength(fuelCodeID: Int16, windSpeed: real, moisture: MoistureState): (r: real)
      reads this, fuelCodeCache.Values
      ensures fuelCodeID !in fuelCodeCache ==> r == 0.0
      ensures fuelCodeID in fuelCodeCache ==> r == fuelCodeCache[fuelCodeID].CalculateFlameLength(windSpeed, moisture)
    {
      if fuelCodeID in fuelCodeCache then fuelCodeCache[fuelCodeID].CalculateFlameLength(windSpeed, moisture) else 0.0
    }

    /** `GetSlopeFactor`: the cached fuel's slope factor, 1 (no effect) for an unknown id. */
    function GetSlopeFactor(fuelCodeID: Int16, slopeAngle: real, moisture: MoistureState): (r: real)
      reads this, fuelCodeCache.Values
      ensures fuelCodeID !in fuelCodeCache ==> r == 1.0
      ensures fuelCodeID in fuelCodeCache ==> r == fuelCodeCache[fuelCodeID].CalculateSlopeFactor(slopeAngle, moisture)
    {
      if fuelCodeID in fuelCodeCache then fuelCodeCache[fuelCodeID].CalculateSlopeFactor(slopeAngle, moisture) else 1.0
    }

    /** `GetFuelCodeData`: the cached fuel, or null. */
    function GetFuelCodeData(fuelCodeID: Int16): (r: FuelCodeData?)
      reads this
      ensures r == null <==> fuelCodeID !in fuelCodeCache
      ensures r != null ==> r == fuelCodeCache[fuelCodeID]
    {
      if fuelCodeID in fuelCodeCache then fuelCodeCache[fuelCodeID] else null
    }
  }

  /**
   * After a cache build, the spread rate of an id is that of the last catalog
   * fuel carrying it, and 0 when no fuel carries it.
   */
  lemma {:induction false} ROSAfterBuild(m: FuelCodeManager, codes: seq<FuelCodeData?>, id: Int16,
                                         windSpeed: real, moisture: MoistureState)
    requires NoNulls(codes) && m.fuelCodeCache == CacheOf(codes)
    ensures (forall i :: 0 <= i < |codes| ==> codes[i].fuelCodeID != id) ==> m.GetROS(id, windSpeed, moisture) == 0.0
    ensures forall i :: 0 <= i < |codes| && codes[i].fuelCodeID == id &&
                        (forall j :: i < j < |codes| ==> codes[j].fuelCodeID != id) ==>
                          m.GetROS(id, windSpeed, moisture) == codes[i].CalculateROS(windSpeed, moisture)
  {
    CacheOfLastWins(codes, id);
  }
}
