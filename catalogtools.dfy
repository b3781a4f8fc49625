/**
 * The editor tools that maintain a fuel catalog asset: the colorizer, which
 * paints every fuel in its family colour; the renamer, which names every
 * fuel "title (code)"; and the importer, which rebuilds a catalog from a
 * JSON export, names and paints the new fuels and runs the family tuner.
 */
module CatalogTools {
  import opened Wrappers
  import opened Text
  import opened Colors
  import opened FuelCatalog
  import FamilyTuning

  /** The prefixes the colour switch knows, in the order of its cases. */
  const KnownPrefixes: seq<string> := ["GR", "GS", "SH", "TU", "TL", "SB", "NB", "AG", "UR", "RO", "WA"]

  /**
   * The colour switch on the two upper-cased prefix characters: each known
   * prefix has its own colour (grass, grass-shrub, shrub, timber understory,
   * timber litter, slash-blowdown, non-burnable, agriculture, urban, roads,
   * water), any other prefix gets gray-green.
   */
  function FamilyColor(a: char, b: char): Color {
    if a == 'G' && b == 'R' then Color(1.0, 0.9, 0.1, 1.0)
    else if a == 'G' && b == 'S' then Color(0.85, 0.95, 0.2, 1.0)
    else if a == 'S' && b == 'H' then Color(0.5, 0.85, 0.3, 1.0)
    else if a == 'T' && b == 'U' then Color(0.2, 0.6, 0.2, 1.0)
    else if a == 'T' && b == 'L' then Color(0.15, 0.5, 0.15, 1.0)
    else if a == 'S' && b == 'B' then Color(0.55, 0.4, 0.2, 1.0)
    else if a == 'N' && b == 'B' then Color(0.6, 0.6, 0.6, 1.0)
    else if a == 'A' && b == 'G' then Color(1.0, 0.6, 0.8, 1.0)
    else if a == 'U' && b == 'R' then Color(0.5, 0.0, 0.6, 1.0)
    else if a == 'R' && b == 'O' then Color(0.1, 0.1, 0.1, 1.0)
    else if a == 'W' && b == 'A' then Color(0.3, 0.5, 0.9, 1.0)
    else GrayGreen
  }

  /** A prefix gets a colour other than gray-green exactly when it is a known one; every colour is opaque. */
  lemma FamilyColorKnown(a: char, b: char)
    ensures FamilyColor(a, b) != GrayGreen <==> [a, b] in KnownPrefixes
    ensures FamilyColor(a, b).a == 1.0
  {
  }

  /** No two known prefixes share a colour. */
  lemma KnownColorsDistinct()
    ensures forall i, j :: 0 <= i < j < |KnownPrefixes| ==>
              FamilyColor(KnownPrefixes[i][0], KnownPrefixes[i][1]) != FamilyColor(KnownPrefixes[j][0], KnownPrefixes[j][1])
  {
  }

  /**
   * `GetBaseColorForFuel`: the colour of the first two characters of the
   * title when it has at least two, else of those of the GIS code, compared
   * upper-cased; gray-green when both are shorter.
   */
  function GetBaseColorForFuel(title: string, codeGIS: string): Color {
    if |title| >= 2 then FamilyColor(ToUpperChar(title[0]), ToUpperChar(title[1]))
    else if |codeGIS| >= 2 then FamilyColor(ToUpperChar(codeGIS[0]), ToUpperChar(codeGIS[1]))
    else GrayGreen
  }

  /**
   * The colour prefix of a fuel: the first two characters of the title when
   * it has at least two, else those of the GIS code, upper-cased; none when
   * both are shorter.
   */
  function ColorPrefix(title: string, codeGIS: string): (p: Option<string>)
    ensures p.Some? <==> |title| >= 2 || |codeGIS| >= 2
    ensures p.Some? ==> |p.value| == 2 && forall k :: 0 <= k < 2 ==> !('a' <= p.value[k] <= 'z')
  {
    if |title| >= 2 then Some(ToUpper(title[..2]))
    else if |codeGIS| >= 2 then Some(ToUpper(codeGIS[..2]))
    else None
  }

  /**
   * A fuel is painted in a colour other than gray-green exactly when its
   * colour prefix exists and is a known one, and every fuel colour is opaque.
   */
  lemma BaseColorKnown(title: string, codeGIS: string)
    ensures var p := ColorPrefix(title, codeGIS);
            GetBaseColorForFuel(title, codeGIS) != GrayGreen <==> p.Some? && p.value in KnownPrefixes
    ensures GetBaseColorForFuel(title, codeGIS).a == 1.0
  {
    var p := ColorPrefix(title, codeGIS);
    if p.Some? {
      FamilyColorKnown(p.value[0], p.value[1]);
      assert p.value == [p.value[0], p.value[1]];
    }
  }

  /** Letter case never changes a fuel's colour. */
  lemma {:induction false} BaseColorIgnoresCase(title: string, codeGIS: string)
    ensures GetBaseColorForFuel(ToUpper(title), ToUpper(codeGIS)) == GetBaseColorForFuel(title, codeGIS)
  {
    if |title| >= 2 {
      ToUpperPrefix(title, 2);
      ToUpperIdempotent(title[..2]);
    } else if |codeGIS| >= 2 {
      ToUpperPrefix(codeGIS, 2);
      ToUpperIdempotent(codeGIS[..2]);
    }
  }

  /** The number of present entries in a list. */
  function PresentCount(codes: seq<FuelCodeData?>): (n: nat)
    ensures n <= |codes|
  {
    if codes == [] then 0 else PresentCount(codes[..|codes| - 1]) + (if codes[|codes| - 1] == null then 0 else 1)
  }

  /** Every entry is counted exactly when none is missing, none exactly when all are. */
  lemma {:induction false} PresentCountBounds(codes: seq<FuelCodeData?>)
    ensures PresentCount(codes) == |codes| <==> forall i :: 0 <= i < |codes| ==> codes[i] != null
    ensures PresentCount(codes) == 0 <==> forall i :: 0 <= i < |codes| ==> codes[i] == null
  {
    if codes != [] {
      var init := codes[..|codes| - 1];
      PresentCountBounds(init);
      assert forall i :: 0 <= i < |init| ==> init[i] == codes[i];
    }
  }

  lemma PresentCountStep(codes: seq<FuelCodeData?>, k: nat)
    requires k < |codes|
    ensures PresentCount(codes[..k + 1]) == PresentCount(codes[..k]) + (if codes[k] == null then 0 else 1)
  {
    assert codes[..k + 1][..k] == codes[..k];
  }

  /** The base colour of every list entry, gray-green for a missing one. */
  ghost function BaseColors(codes: seq<FuelCodeData?>): (cs: seq<Color>)
    reads codes`title, codes`codeGIS
    ensures |cs| == |codes|
    ensures forall i :: 0 <= i < |codes| && codes[i] != null ==> cs[i] == GetBaseColorForFuel(codes[i].title, codes[i].codeGIS)
  {
    if codes == [] then []
    else
      var last := codes[|codes| - 1];
      BaseColors(codes[..|codes| - 1]) + [if last == null then GrayGreen else GetBaseColorForFuel(last.title, last.codeGIS)]
  }

  /**
   * `ApplyColors`: with no catalog selected nothing happens and nothing is
   * reported; otherwise every present fuel is painted in its base colour and
   * the reported count is the number of present entries.
   */
  method ApplyColors(catalog: FuelCodeSet?) returns (count: Option<nat>)
    modifies if catalog == null then [] else catalog.fuelCodes`baseColor
    ensures catalog == null ==> count.None?
    ensures catalog != null ==> count == Some(PresentCount(catalog.fuelCodes))
    ensures catalog != null ==> forall i :: 0 <= i < |catalog.fuelCodes| && catalog.fuelCodes[i] != null ==>
              catalog.fuelCodes[i].baseColor == GetBaseColorForFuel(catalog.fuelCodes[i].title, catalog.fuelCodes[i].codeGIS)
  {
    if catalog == null {
      return None;
    }
    var codes := catalog.fuelCodes;
    ghost var targets := BaseColors(codes);
    var n := 0;
    for k := 0 to |codes|
      invariant n == PresentCount(codes[..k])
      invariant forall i :: 0 <= i < k && codes[i] != null ==> codes[i].baseColor == targets[i]
    {
      PresentCountStep(codes, k);
      var fc := codes[k];
      if fc != null {
        fc.baseColor := GetBaseColorForFuel(fc.title, fc.codeGIS);
        n := n + 1;
      }
    }
    assert codes[..|codes|] == codes;
    return Some(n);
  }

  /**
   * The display name of a fuel: "title (code)" when it has a title, the
   * bare code otherwise.
   */
  function DisplayName(title: string, codeGIS: string): string {
    if |title| > 0 then title + " (" + codeGIS + ")" else codeGIS
  }

  /**
   * The display name is the bare code for an untitled fuel; for a titled
   * one it is the title, " (", the code and ")", so both can be read back.
   */
  lemma {:induction false} DisplayNameParts(title: string, codeGIS: string)
    ensures |title| == 0 ==> DisplayName(title, codeGIS) == codeGIS
    ensures |title| > 0 ==>
              var n := DisplayName(title, codeGIS);
              |n| == |title| + |codeGIS| + 3 && n[..|title|] == title && n[|title|..|title| + 2] == " (" &&
              n[|title| + 2..|n| - 1] == codeGIS && n[|n| - 1] == ')'
  {
    if |title| > 0 {
      var n := DisplayName(title, codeGIS);
      assert n == title + (" (" + (codeGIS + ")"));
      assert n[..|title|] == title;
      assert n[|title| + 2..|n| - 1] == codeGIS;
    }
  }

  /** A fuel named as `rule` names its title and code. */
  predicate NamedBy(fc: FuelCodeData, rule: (string, string) -> string)
    reads fc`name, fc`title, fc`codeGIS
  {
    fc.name == rule(fc.title, fc.codeGIS)
  }

  /** A fuel named by its display name. */
  predicate WellNamed(fc: FuelCodeData)
    reads fc`name, fc`title, fc`codeGIS
  {
    NamedBy(fc, DisplayName)
  }

  /** The fuels of a list that the renamer renames: those whose name is not their display name. */
  ghost function Misnamed(codes: seq<FuelCodeData?>): set<FuelCodeData>
    reads codes
  {
    set fc: FuelCodeData | fc in codes && !WellNamed(fc)
  }

  /**
   * `RenameSelected`: with no catalog selected nothing happens; otherwise
   * every present fuel ends up named by its display name, and the count is
   * the number of distinct fuels that were misnamed (a fuel listed twice is
   * renamed once).
   */
  method RenameSelected(catalog: FuelCodeSet?) returns (renamed: Option<nat>)
    modifies if catalog == null then [] else catalog.fuelCodes`name
    ensures catalog == null ==> renamed.None?
    ensures catalog != null ==> renamed == Some(|old(Misnamed(catalog.fuelCodes))|)
    ensures catalog != null ==> forall i :: 0 <= i < |catalog.fuelCodes| && catalog.fuelCodes[i] != null ==> WellNamed(catalog.fuelCodes[i])
  {
    if catalog == null {
      return None;
    }
    var n := RenameAll(catalog.fuelCodes);
    return Some(n);
  }

  /** The renamer's loop over the list of a selected catalog. */
  method RenameAll(codes: seq<FuelCodeData?>) returns (n: nat)
    modifies codes`name
    ensures n == |old(Misnamed(codes))|
    ensures forall i :: 0 <= i < |codes| && codes[i] != null ==> WellNamed(codes[i])
  {
    ghost var bad := MisnamedFlags(codes);
    MisnamedCount(codes);
    n := RenameEach(codes, DisplayName, bad);
  }

  /** Which entries hold a fuel that is not named by its display name. */
  ghost function MisnamedFlags(codes: seq<FuelCodeData?>): (bad: seq<bool>)
    reads codes`name, codes`title, codes`codeGIS
    ensures |bad| == |codes|
    ensures forall i :: 0 <= i < |codes| ==> bad[i] == (codes[i] != null && !WellNamed(codes[i]))
  {
    if codes == [] then []
    else
      var last := codes[|codes| - 1];
      MisnamedFlags(codes[..|codes| - 1]) + [last != null && !WellNamed(last)]
  }

  /** How many of the first `k` entries are flagged and not listed earlier in the list. */
  ghost function FirstFlagged(codes: seq<FuelCodeData?>, bad: seq<bool>, k: nat): nat
    requires k <= |codes| == |bad|
  {
    if k == 0 then 0
    else FirstFlagged(codes, bad, k - 1) + (if bad[k - 1] && codes[k - 1] !in codes[..k - 1] then 1 else 0)
  }

  /** The fuels of the flagged entries among the first `k`. */
  ghost function Flagged(codes: seq<FuelCodeData?>, bad: seq<bool>, k: nat): set<FuelCodeData>
    requires k <= |codes| == |bad|
    requires forall i :: 0 <= i < k && bad[i] ==> codes[i] != null
  {
    if k == 0 then {}
    else if bad[k - 1] then var fc: FuelCodeData := codes[k - 1]; Flagged(codes, bad, k - 1) + {fc}
    else Flagged(codes, bad, k - 1)
  }

  /** The flagged fuels are exactly the fuels at flagged entries. */
  lemma {:induction false} FlaggedMembers(codes: seq<FuelCodeData?>, bad: seq<bool>, k: nat)
    requires k <= |codes| == |bad|
    requires forall i :: 0 <= i < k && bad[i] ==> codes[i] != null
    ensures forall fc :: fc in Flagged(codes, bad, k) <==> exists i :: 0 <= i < k && bad[i] && codes[i] == fc
  {
    if k > 0 {
      FlaggedMembers(codes, bad, k - 1);
    }
  }

  /** Flagging every entry of a fuel alike, the first occurrences count the flagged fuels. */
  lemma {:induction false} FirstFlaggedCounts(codes: seq<FuelCodeData?>, bad: seq<bool>, k: nat)
    requires k <= |codes| == |bad|
    requires forall i :: 0 <= i < k && bad[i] ==> codes[i] != null
    requires forall i, j :: 0 <= i < k && 0 <= j < k && codes[i] == codes[j] ==> bad[i] == bad[j]
    ensures FirstFlagged(codes, bad, k) == |Flagged(codes, bad, k)|
  {
    if k > 0 {
      FirstFlaggedCounts(codes, bad, k - 1);
      if bad[k - 1] {
        var x: FuelCodeData := codes[k - 1];
        FlaggedMembers(codes, bad, k - 1);
        if x in codes[..k - 1] {
          var j :| 0 <= j < k - 1 && codes[..k - 1][j] == x;
          assert codes[j] == x && bad[j];
          assert x in Flagged(codes, bad, k - 1);
          assert Flagged(codes, bad, k) == Flagged(codes, bad, k - 1);
          assert FirstFlagged(codes, bad, k) == FirstFlagged(codes, bad, k - 1);
        } else {
          forall i | 0 <= i < k - 1
            ensures codes[i] != x
          {
            assert codes[..k - 1][i] == codes[i];
          }
          assert x !in Flagged(codes, bad, k - 1);
          assert FirstFlagged(codes, bad, k) == FirstFlagged(codes, bad, k - 1) + 1;
        }
      }
    }
  }

  /** A flagged fuel sits at some flagged entry. */
  lemma FlaggedEntry(codes: seq<FuelCodeData?>, bad: seq<bool>, fc: FuelCodeData)
    requires |codes| == |bad|
    requires forall i :: 0 <= i < |codes| && bad[i] ==> codes[i] != null
    requires fc in Flagged(codes, bad, |codes|)
    ensures exists i :: 0 <= i < |codes| && bad[i] && codes[i] == fc
  {
    FlaggedMembers(codes, bad, |codes|);
  }

  /** The renamer's count: the misnamed fuels are the first occurrences of misnamed entries. */
  lemma {:induction false} MisnamedCount(codes: seq<FuelCodeData?>)
    ensures |Misnamed(codes)| == FirstFlagged(codes, MisnamedFlags(codes), |codes|)
  {
    var bad := MisnamedFlags(codes);
    FirstFlaggedCounts(codes, bad, |codes|);
    FlaggedMembers(codes, bad, |codes|);
    assert Misnamed(codes) == Flagged(codes, bad, |codes|) by {
      forall fc: FuelCodeData | fc in Misnamed(codes)
        ensures fc in Flagged(codes, bad, |codes|)
      {
        var i :| 0 <= i < |codes| && codes[i] == fc;
        assert bad[i];
      }
      forall fc: FuelCodeData | fc in Flagged(codes, bad, |codes|)
        ensures fc in Misnamed(codes)
      {
        FlaggedEntry(codes, bad, fc);
        var i :| 0 <= i < |codes| && bad[i] && codes[i] == fc;
        assert !WellNamed(fc);
      }
    }
  }

  /**
   * The loop itself, for the naming rule `rule` and given which entries are
   * misnamed under it: each fuel is renamed at its first entry when
   * misnamed, and counted there.
   */
  method RenameEach(codes: seq<FuelCodeData?>, rule: (string, string) -> string, ghost bad: seq<bool>) returns (n: nat)
    requires |bad| == |codes|
    requires forall i :: 0 <= i < |codes| ==> bad[i] == (codes[i] != null && !NamedBy(codes[i], rule))
    modifies codes`name
    ensures n == FirstFlagged(codes, bad, |codes|)
    ensures forall i :: 0 <= i < |codes| && codes[i] != null ==> NamedBy(codes[i], rule)
  {
    n := 0;
    for k := 0 to |codes|
      invariant n == FirstFlagged(codes, bad, k)
      invariant forall i :: 0 <= i < k && codes[i] != null ==> NamedBy(codes[i], rule)
      invariant forall i :: k <= i < |codes| && codes[i] != null && codes[i] !in codes[..k] ==> (NamedBy(codes[i], rule) <==> !bad[i])
    {
      var fc := codes[k];
      if fc != null {
        var changed := RenameOne(codes, fc, rule);
        if changed {
          n := n + 1;
        }
      }
    }
  }

  /**
   * One fuel of the renamer's loop: renamed, and reported, only when
   * misnamed; every other fuel of the list keeps its name.
   */
  method RenameOne(codes: seq<FuelCodeData?>, fc: FuelCodeData, rule: (string, string) -> string) returns (changed: bool)
    modifies fc`name
    ensures NamedBy(fc, rule)
    ensures changed <==> !old(NamedBy(fc, rule))
    ensures forall i :: 0 <= i < |codes| && codes[i] != null && codes[i] != fc ==> (NamedBy(codes[i], rule) <==> old(NamedBy(codes[i], rule)))
  {
    var displayName := rule(fc.title, fc.codeGIS);
    changed := fc.name != displayName;
    if changed {
      fc.name := displayName;
    }
  }

  /** A second rename right after the first finds nothing to rename. */
  lemma RenameIdempotent(codes: seq<FuelCodeData?>)
    requires forall i :: 0 <= i < |codes| && codes[i] != null ==> WellNamed(codes[i])
    ensures |Misnamed(codes)| == 0
  {
    forall fc: FuelCodeData | fc in codes
      ensures WellNamed(fc)
    {
      var i :| 0 <= i < |codes| && codes[i] == fc;
    }
    assert Misnamed(codes) == {};
  }

  /** A fuel the importer created from `item`: loaded from it, then named and painted. */
  ghost predicate ImportedFrom(fc: FuelCodeData, item: FuelCodeItem)
    reads fc`name, fc`baseColor, fc`title, fc`codeGIS, fc`fuelCodeID, fc`hour1, fc`hour10, fc`hour100, fc`ros, fc`flame, fc`slope
  {
    fc.name == DisplayName(item.title, item.codeGIS) && fc.baseColor == GetBaseColorForFuel(item.title, item.codeGIS) &&
    HoldsItem(fc, item)
  }

  /** Every fuel of the list was imported from the item at its position. */
  ghost predicate AllImportedFrom(codes: seq<FuelCodeData?>, items: seq<FuelCodeItem>)
    reads codes`name, codes`baseColor, codes`title, codes`codeGIS, codes`fuelCodeID, codes`hour1, codes`hour10, codes`hour100,
          codes`ros, codes`flame, codes`slope
  {
    |codes| == |items| && forall i :: 0 <= i < |items| ==> codes[i] != null && ImportedFrom(codes[i], items[i])
  }

  /** The items a JSON text yields: none for empty text or a failed decode. */
  function DecodedItems(jsonText: string, decode: string -> Option<seq<FuelCodeItem>>): seq<FuelCodeItem> {
    if jsonText == "" || decode(jsonText).None? then [] else decode(jsonText).value
  }

  /** The wind speed and moisture the importer tunes the families with. */
  const ImportWindSpeed: real := 10.0
  const ImportMoisture: MoistureState := Medium

  /** One fuel's naming and painting in the import loop: both come from its title and code. */
  method NameAndPaint(fc: FuelCodeData)
    modifies fc`name, fc`baseColor
    ensures fc.name == DisplayName(fc.title, fc.codeGIS)
    ensures fc.baseColor == GetBaseColorForFuel(fc.title, fc.codeGIS)
  {
    fc.name := DisplayName(fc.title, fc.codeGIS);
    fc.baseColor := GetBaseColorForFuel(fc.title, fc.codeGIS);
  }

  /**
   * The import loop: every loaded fuel, in order, is named and painted and
   * appended to the catalog's (emptied) list.
   */
  method AddImported(catalog: FuelCodeSet, loaded: seq<FuelCodeData?>)
    requires catalog.fuelCodes == []
    requires forall i :: 0 <= i < |loaded| ==> loaded[i] != null
    requires forall i, j :: 0 <= i < j < |loaded| ==> loaded[i] != loaded[j]
    modifies catalog`fuelCodes, loaded`name, loaded`baseColor
    ensures catalog.fuelCodes == loaded
    ensures forall i :: 0 <= i < |loaded| ==>
              loaded[i] != null &&
              loaded[i].name == DisplayName(loaded[i].title, loaded[i].codeGIS) &&
              loaded[i].baseColor == GetBaseColorForFuel(loaded[i].title, loaded[i].codeGIS)
  {
    for k := 0 to |loaded|
      invariant catalog.fuelCodes == loaded[..k]
      invariant forall i :: 0 <= i < k ==> loaded[i].name == DisplayName(loaded[i].title, loaded[i].codeGIS)
      invariant forall i :: 0 <= i < k ==> loaded[i].baseColor == GetBaseColorForFuel(loaded[i].title, loaded[i].codeGIS)
    {
      var fc := loaded[k];
      NameAndPaint(fc);
      catalog.fuelCodes := catalog.fuelCodes + [fc];
    }
  }

  /**
   * The first part of the import: the catalog's list is emptied and then
   * holds one new fuel per decoded item, in item order, each named and
   * painted from its item.
   */
  method LoadNamed(catalog: FuelCodeSet, jsonText: string, decode: string -> Option<seq<FuelCodeItem>>)
    modifies catalog`fuelCodes
    ensures var items := DecodedItems(jsonText, decode);
            |catalog.fuelCodes| == |items| &&
            (forall i :: 0 <= i < |items| ==> catalog.fuelCodes[i] != null && fresh(catalog.fuelCodes[i]) && ImportedFrom(catalog.fuelCodes[i], items[i])) &&
            (forall i, j :: 0 <= i < j < |items| ==> catalog.fuelCodes[i] != catalog.fuelCodes[j])
  {
    catalog.fuelCodes := [];
    var temp := new FuelCodeSet();
    temp.LoadFromJsonText(jsonText, decode);
    var loaded := temp.fuelCodes;
    AddImported(catalog, loaded);
  }

  /** The family prefix of the fuel each item becomes. */
  function ItemPrefixes(items: seq<FuelCodeItem>): (ps: seq<Option<string>>)
    ensures |ps| == |items|
    ensures forall i :: 0 <= i < |items| ==> ps[i] == Some(FamilyTuning.GetFamilyPrefix(items[i].title, items[i].codeGIS))
  {
    if items == [] then []
    else
      var last := items[|items| - 1];
      ItemPrefixes(items[..|items| - 1]) + [Some(FamilyTuning.GetFamilyPrefix(last.title, last.codeGIS))]
  }

  /** The flame length of the fuel each item becomes. */
  function ItemFlames(items: seq<FuelCodeItem>, windSpeed: real, moisture: MoistureState): (xs: seq<real>)
    ensures |xs| == |items|
    ensures forall i :: 0 <= i < |items| ==> xs[i] == FlameLength(FlameCurves(items[i]), windSpeed, moisture)
  {
    if items == [] then []
    else ItemFlames(items[..|items| - 1], windSpeed, moisture) + [FlameLength(FlameCurves(items[|items| - 1]), windSpeed, moisture)]
  }

  /** The spread rate of the fuel each item becomes. */
  function ItemRates(items: seq<FuelCodeItem>, windSpeed: real, moisture: MoistureState): (xs: seq<real>)
    ensures |xs| == |items|
    ensures forall i :: 0 <= i < |items| ==> xs[i] == SpreadRate(RosCurves(items[i]), windSpeed, moisture)
  {
    if items == [] then []
    else ItemRates(items[..|items| - 1], windSpeed, moisture) + [SpreadRate(RosCurves(items[|items| - 1]), windSpeed, moisture)]
  }

  /**
   * `ImportIntoAsset`: the catalog is loaded and named as `LoadNamed` says;
   * then the families are tuned at wind 10 and Medium moisture, so each
   * fuel's shades are those of its item's flame length and spread rate
   * among the items of its family. When the text yields no items the catalog
   * ends up empty.
   */
  method ImportIntoAsset(catalog: FuelCodeSet, jsonText: string, decode: string -> Option<seq<FuelCodeItem>>)
    modifies catalog`fuelCodes
    ensures var items := DecodedItems(jsonText, decode);
            |catalog.fuelCodes| == |items| &&
            (forall i :: 0 <= i < |items| ==> catalog.fuelCodes[i] != null && fresh(catalog.fuelCodes[i]) && ImportedFrom(catalog.fuelCodes[i], items[i])) &&
            (forall i, j :: 0 <= i < j < |items| ==> catalog.fuelCodes[i] != catalog.fuelCodes[j])
    ensures var items := DecodedItems(jsonText, decode);
            forall i :: 0 <= i < |catalog.fuelCodes| && catalog.fuelCodes[i] != null ==>
              catalog.fuelCodes[i].familyBrightness == FamilyTuning.Target(ItemPrefixes(items), ItemFlames(items, ImportWindSpeed, ImportMoisture), i) &&
              catalog.fuelCodes[i].familySaturation == FamilyTuning.Target(ItemPrefixes(items), ItemRates(items, ImportWindSpeed, ImportMoisture), i)
  {
    LoadNamed(catalog, jsonText, decode);
    TuneImported(catalog, DecodedItems(jsonText, decode));
  }

  /**
   * Fuels imported from items have the family prefixes, flame lengths and
   * spread rates of those items.
   */
  lemma {:induction false} TunedInputs(codes: seq<FuelCodeData?>, items: seq<FuelCodeItem>, windSpeed: real, moisture: MoistureState)
    requires AllImportedFrom(codes, items)
    ensures FamilyTuning.Prefixes(codes) == ItemPrefixes(items)
    ensures FamilyTuning.Flames(codes, windSpeed, moisture) == ItemFlames(items, windSpeed, moisture)
    ensures FamilyTuning.Rates(codes, windSpeed, moisture) == ItemRates(items, windSpeed, moisture)
  {
    forall i | 0 <= i < |codes|
      ensures FamilyTuning.Prefixes(codes)[i] == ItemPrefixes(items)[i]
      ensures FamilyTuning.Flames(codes, windSpeed, moisture)[i] == ItemFlames(items, windSpeed, moisture)[i]
      ensures FamilyTuning.Rates(codes, windSpeed, moisture)[i] == ItemRates(items, windSpeed, moisture)[i]
    {
      FamilyTuning.PrefixesAt(codes, i);
    }
  }

  /**
   * The last step of the import: the families are tuned, which leaves every
   * imported fuel as its item made it and gives it the shades of its item's
   * flame length and spread rate.
   */
  method TuneImported(catalog: FuelCodeSet, ghost items: seq<FuelCodeItem>)
    requires AllImportedFrom(catalog.fuelCodes, items)
    modifies catalog.fuelCodes`familyBrightness, catalog.fuelCodes`familySaturation
    ensures AllImportedFrom(catalog.fuelCodes, items)
    ensures forall i :: 0 <= i < |items| ==>
              catalog.fuelCodes[i].familyBrightness == FamilyTuning.Target(ItemPrefixes(items), ItemFlames(items, ImportWindSpeed, ImportMoisture), i) &&
              catalog.fuelCodes[i].familySaturation == FamilyTuning.Target(ItemPrefixes(items), ItemRates(items, ImportWindSpeed, ImportMoisture), i)
  {
    TunedInputs(catalog.fuelCodes, items, ImportWindSpeed, ImportMoisture);
    TuneKeeping(catalog, items);
  }

  /** The tuner's call at the import's wind and moisture, which touches the shades alone. */
  method TuneKeeping(catalog: FuelCodeSet, ghost items: seq<FuelCodeItem>)
    requires AllImportedFrom(catalog.fuelCodes, items)
    modifies catalog.fuelCodes`familyBrightness, catalog.fuelCodes`familySaturation
    ensures forall i :: 0 <= i < |items| ==> catalog.fuelCodes[i] != null && ImportedFrom(catalog.fuelCodes[i], items[i])
    ensures forall i :: 0 <= i < |catalog.fuelCodes| && catalog.fuelCodes[i] != null ==>
              catalog.fuelCodes[i].familyBrightness ==
                FamilyTuning.Target(old(FamilyTuning.Prefixes(catalog.fuelCodes)), old(FamilyTuning.Flames(catalog.fuelCodes, ImportWindSpeed, ImportMoisture)), i) &&
              catalog.fuelCodes[i].familySaturation ==
                FamilyTuning.Target(old(FamilyTuning.Prefixes(catalog.fuelCodes)), old(FamilyTuning.Rates(catalog.fuelCodes, ImportWindSpeed, ImportMoisture)), i)
  {
    FamilyTuning.Apply(catalog, ImportWindSpeed, ImportMoisture);
  }

  /**
   * `ImportJson`: `fileText` stands for the file the user picked, `None`
   * when the dialog was cancelled or the file does not exist. Without a
   * selected catalog or a file nothing changes; otherwise the file is
   * imported into the catalog.
   */
  method ImportJson(selected: FuelCodeSet?, fileText: Option<string>, decode: string -> Option<seq<FuelCodeItem>>)
    modifies if selected == null then {} else {selected}
    ensures selected != null && fileText.None? ==> unchanged(selected)
    ensures selected != null && fileText.Some? ==>
              var items := DecodedItems(fileText.value, decode);
              |selected.fuelCodes| == |items| &&
              (forall i :: 0 <= i < |items| ==> selected.fuelCodes[i] != null && fresh(selected.fuelCodes[i]) && ImportedFrom(selected.fuelCodes[i], items[i])) &&
              (forall i, j :: 0 <= i < j < |items| ==> selected.fuelCodes[i] != selected.fuelCodes[j])
    ensures selected != null && fileText.Some? ==>
              var items := DecodedItems(fileText.value, decode);
              forall i :: 0 <= i < |selected.fuelCodes| && selected.fuelCodes[i] != null ==>
                selected.fuelCodes[i].familyBrightness == FamilyTuning.Target(ItemPrefixes(items), ItemFlames(items, ImportWindSpeed, ImportMoisture), i) &&
                selected.fuelCodes[i].familySaturation == FamilyTuning.Target(ItemPrefixes(items), ItemRates(items, ImportWindSpeed, ImportMoisture), i)
  {
    if selected == null || fileText.None? {
      return;
    }
    ImportIntoAsset(selected, fileText.value, decode);
  }
}
