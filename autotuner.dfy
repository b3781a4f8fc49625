/**
 * The family auto-tuner: fuels are grouped by a two-letter family prefix,
 * and inside each family a fuel's brightness follows its flame length and
 * its saturation follows its spread rate, both rescaled to [0.3, 1.0].
 */
module FamilyTuning {
  import opened Wrappers
  import opened Text
  import Mathf
  import opened FuelCatalog

  /** Below this spread the values of a family count as all equal. */
  const FlatRange: real := 0.0001
  /** The shade of the lowest value of a family. */
  const ShadeLow: real := 0.3
  /** The shade of the highest value of a family. */
  const ShadeHigh: real := 1.0

  /**
   * `GetFamilyPrefix`: the title unless it is blank, else the GIS code; "??"
   * when both are blank; otherwise its first two characters, upper-cased.
   */
  function GetFamilyPrefix(title: string, codeGIS: string): (p: string)
    ensures !IsBlank(title) ==> p == ToUpper(if |title| < 2 then title else title[..2])
    ensures IsBlank(title) && !IsBlank(codeGIS) ==> p == ToUpper(if |codeGIS| < 2 then codeGIS else codeGIS[..2])
    ensures IsBlank(title) && IsBlank(codeGIS) ==> p == "??"
    ensures 0 < |p| <= 2
  {
    var src := if !IsBlank(title) then title else codeGIS;
    if IsBlank(src) then "??"
    else if |src| < 2 then ToUpper(src)
    else ToUpper(src[..2])
  }

  /** Upper-casing is the identity on whitespace, so it keeps a string blank or not blank. */
  lemma {:induction false} ToUpperKeepsBlank(s: string)
    ensures IsBlank(ToUpper(s)) <==> IsBlank(s)
  {
    var u := ToUpper(s);
    forall i | 0 <= i < |s| && IsWhiteSpace(s[i])
      ensures u[i] == s[i]
    {
    }
    forall i | 0 <= i < |s| && IsWhiteSpace(u[i])
      ensures u[i] == s[i]
    {
    }
  }

  /** The family prefix does not depend on letter case. */
  lemma {:induction false} FamilyPrefixIgnoresCase(title: string, codeGIS: string)
    ensures GetFamilyPrefix(ToUpper(title), ToUpper(codeGIS)) == GetFamilyPrefix(title, codeGIS)
  {
    ToUpperKeepsBlank(title);
    ToUpperKeepsBlank(codeGIS);
    ToUpperIdempotent(title);
    ToUpperIdempotent(codeGIS);
    if |title| >= 2 {
      ToUpperPrefix(title, 2);
      ToUpperIdempotent(title[..2]);
    }
    if |codeGIS| >= 2 {
      ToUpperPrefix(codeGIS, 2);
      ToUpperIdempotent(codeGIS[..2]);
    }
  }

  function PrefixOf(fc: FuelCodeData): string
    reads fc`title, fc`codeGIS
  {
    GetFamilyPrefix(fc.title, fc.codeGIS)
  }

  function FlamesOf(family: seq<FuelCodeData>, windSpeed: real, moisture: MoistureState): (r: seq<real>)
    reads family`flame
    ensures |r| == |family|
    ensures forall j :: 0 <= j < |family| ==> r[j] == family[j].CalculateFlameLength(windSpeed, moisture)
  {
    if family == [] then []
    else FlamesOf(family[..|family| - 1], windSpeed, moisture) + [family[|family| - 1].CalculateFlameLength(windSpeed, moisture)]
  }

  function RatesOf(family: seq<FuelCodeData>, windSpeed: real, moisture: MoistureState): (r: seq<real>)
    reads family`ros
    ensures |r| == |family|
    ensures forall j :: 0 <= j < |family| ==> r[j] == family[j].CalculateROS(windSpeed, moisture)
  {
    if family == [] then []
    else RatesOf(family[..|family| - 1], windSpeed, moisture) + [family[|family| - 1].CalculateROS(windSpeed, moisture)]
  }

  /** The smallest value, as the running `Mathf.Min` over the list finds it. */
  function MinOf(xs: seq<real>): real
    requires |xs| > 0
  {
    if |xs| == 1 then xs[0]
    else
      Mathf.Min(MinOf(xs[..|xs| - 1]), xs[|xs| - 1])
  }

  /** The largest value, as the running `Mathf.Max` over the list finds it. */
  function MaxOf(xs: seq<real>): real
    requires |xs| > 0
  {
    if |xs| == 1 then xs[0]
    else
      Mathf.Max(MaxOf(xs[..|xs| - 1]), xs[|xs| - 1])
  }

  /** The smallest and the largest value bound every value of the list and are values of it. */
  lemma {:induction false} BoundsAttained(xs: seq<real>)
    requires |xs| > 0
    ensures forall j :: 0 <= j < |xs| ==> MinOf(xs) <= xs[j] <= MaxOf(xs)
    ensures exists j :: 0 <= j < |xs| && MinOf(xs) == xs[j]
    ensures exists j :: 0 <= j < |xs| && MaxOf(xs) == xs[j]
  {
    if |xs| > 1 {
      var init := xs[..|xs| - 1];
      BoundsAttained(init);
      assert forall j :: 0 <= j < |init| ==> init[j] == xs[j];
      var a :| 0 <= a < |init| && MinOf(init) == init[a];
      var b :| 0 <= b < |init| && MaxOf(init) == init[b];
      assert init[a] == xs[a] && init[b] == xs[b];
      var n := |xs| - 1;
      assert MinOf(xs) == xs[a] || MinOf(xs) == xs[n];
      assert MaxOf(xs) == xs[b] || MaxOf(xs) == xs[n];
    } else {
      assert MinOf(xs) == xs[0] && MaxOf(xs) == xs[0];
    }
  }

  /** A value's place in its family's range: 0.5 for a flat family, else clamped to [0, 1]. */
  function Normalize(v: real, lo: real, hi: real): (n: real)
    ensures 0.0 <= n <= 1.0
    ensures hi - lo <= FlatRange ==> n == 0.5
    ensures hi - lo > FlatRange && v <= lo ==> n == 0.0
    ensures hi - lo > FlatRange && v >= hi ==> n == 1.0
  {
    Mathf.QuotientAtLeastOne(v - lo, hi - lo);
    if hi - lo > FlatRange then Mathf.Clamp01((v - lo) / (hi - lo)) else 0.5
  }

  lemma NormalizeMonotone(v1: real, v2: real, lo: real, hi: real)
    requires v1 <= v2
    ensures Normalize(v1, lo, hi) <= Normalize(v2, lo, hi)
  {
    if hi - lo > FlatRange {
      DivideMonotone(v1 - lo, v2 - lo, hi - lo);
    }
  }

  lemma DivideMonotone(a: real, b: real, d: real)
    requires a <= b && d > 0.0
    ensures a / d <= b / d
  {
    assert b / d - a / d == (b - a) / d;
  }

  /** The shade a fuel gets from its value and its family's smallest and largest values. */
  function Shade(v: real, lo: real, hi: real): (s: real)
    ensures ShadeLow <= s <= ShadeHigh
  {
    Mathf.Lerp(ShadeLow, ShadeHigh, Normalize(v, lo, hi))
  }

  /** Shades lie in [0.3, 1.0] and never decrease as the value grows. */
  lemma {:induction false} ShadeMonotone(v1: real, v2: real, lo: real, hi: real)
    requires v1 <= v2
    ensures ShadeLow <= Shade(v1, lo, hi) <= Shade(v2, lo, hi) <= ShadeHigh
  {
    NormalizeMonotone(v1, v2, lo, hi);
    Mathf.LerpMonotone(ShadeLow, ShadeHigh, Normalize(v1, lo, hi), Normalize(v2, lo, hi));
  }

  /**
   * In a family whose values spread more than the flat range, the lowest
   * value gets the lowest shade and the highest the highest; in a flat family
   * every member gets the middle shade.
   */
  lemma {:induction false} ShadeExtremes(xs: seq<real>, v: real)
    requires |xs| > 0
    ensures MaxOf(xs) - MinOf(xs) > FlatRange && v == MinOf(xs) ==> Shade(v, MinOf(xs), MaxOf(xs)) == ShadeLow
    ensures MaxOf(xs) - MinOf(xs) > FlatRange && v == MaxOf(xs) ==> Shade(v, MinOf(xs), MaxOf(xs)) == ShadeHigh
    ensures MaxOf(xs) - MinOf(xs) <= FlatRange ==> Shade(v, MinOf(xs), MaxOf(xs)) == 0.65
  {
  }

  /** One step of a running minimum and maximum. */
  lemma RunningBounds(xs: seq<real>, j: nat)
    requires 0 < j < |xs|
    ensures MinOf(xs[..j + 1]) == Mathf.Min(MinOf(xs[..j]), xs[j])
    ensures MaxOf(xs[..j + 1]) == Mathf.Max(MaxOf(xs[..j]), xs[j])
  {
    assert xs[..j + 1][..j] == xs[..j];
  }

  /** The running `Mathf.Min` and `Mathf.Max` over a non-empty list of values. */
  method Bounds(xs: seq<real>) returns (lo: real, hi: real)
    requires |xs| > 0
    ensures lo == MinOf(xs) && hi == MaxOf(xs)
  {
    lo, hi := xs[0], xs[0];
    for j := 1 to |xs|
      invariant lo == MinOf(xs[..j]) && hi == MaxOf(xs[..j])
    {
      RunningBounds(xs, j);
      lo := Mathf.Min(lo, xs[j]);
      hi := Mathf.Max(hi, xs[j]);
    }
    assert xs[..|xs|] == xs;
  }

  /** The shading pass of one bucket, given its bounds. */
  method ShadeFamily(family: seq<FuelCodeData>, windSpeed: real, moisture: MoistureState,
                     minFlame: real, maxFlame: real, minRos: real, maxRos: real)
    modifies family`familyBrightness, family`familySaturation
    ensures forall j :: 0 <= j < |family| ==>
              family[j].familyBrightness == Shade(old(family[j].CalculateFlameLength(windSpeed, moisture)), minFlame, maxFlame) &&
              family[j].familySaturation == Shade(old(family[j].CalculateROS(windSpeed, moisture)), minRos, maxRos)
  {
    for j := 0 to |family|
      invariant forall j' :: 0 <= j' < j ==>
                  family[j'].familyBrightness == Shade(old(family[j'].CalculateFlameLength(windSpeed, moisture)), minFlame, maxFlame) &&
                  family[j'].familySaturation == Shade(old(family[j'].CalculateROS(windSpeed, moisture)), minRos, maxRos)
    {
      var fc := family[j];
      var flame := fc.CalculateFlameLength(windSpeed, moisture);
      var ros := fc.CalculateROS(windSpeed, moisture);
      fc.familyBrightness := Mathf.Lerp(ShadeLow, ShadeHigh, Normalize(flame, minFlame, maxFlame));
      fc.familySaturation := Mathf.Lerp(ShadeLow, ShadeHigh, Normalize(ros, minRos, maxRos));
    }
  }

  /**
   * The second pass of `Apply` for one bucket: the bucket's smallest and
   * largest flame lengths and spread rates, then every member's shades. The
   * source starts the scan from plus and minus infinity; starting from the
   * first member gives the same bounds on a non-empty bucket.
   */
  method TuneFamily(family: seq<FuelCodeData>, windSpeed: real, moisture: MoistureState,
                    ghost flames: seq<real>, ghost rates: seq<real>)
    requires |family| > 0 && |flames| == |family| && |rates| == |family|
    requires forall j :: 0 <= j < |family| ==>
               family[j].CalculateFlameLength(windSpeed, moisture) == flames[j] && family[j].CalculateROS(windSpeed, moisture) == rates[j]
    modifies family`familyBrightness, family`familySaturation
    ensures forall j :: 0 <= j < |family| ==>
              family[j].familyBrightness == Shade(flames[j], MinOf(flames), MaxOf(flames)) &&
              family[j].familySaturation == Shade(rates[j], MinOf(rates), MaxOf(rates))
  {
    assert FlamesOf(family, windSpeed, moisture) == flames;
    assert RatesOf(family, windSpeed, moisture) == rates;
    var minFlame, maxFlame := Bounds(FlamesOf(family, windSpeed, moisture));
    var minRos, maxRos := Bounds(RatesOf(family, windSpeed, moisture));
    ShadeFamily(family, windSpeed, moisture, minFlame, maxFlame, minRos, maxRos);
  }

  /** The family prefix of every list entry, `None` for a missing entry. */
  ghost function Prefixes(codes: seq<FuelCodeData?>): (ps: seq<Option<string>>)
    reads codes`title, codes`codeGIS
    ensures |ps| == |codes|
    ensures forall i :: 0 <= i < |codes| ==> (ps[i].Some? <==> codes[i] != null)
  {
    if codes == [] then []
    else
      var last := codes[|codes| - 1];
      Prefixes(codes[..|codes| - 1]) + [if last == null then None else Some(PrefixOf(last))]
  }

  /** Entry `i` of `Prefixes` is the prefix of list entry `i`. */
  lemma {:induction false} PrefixesAt(codes: seq<FuelCodeData?>, i: nat)
    requires i < |codes|
    ensures Prefixes(codes)[i] == if codes[i] == null then None else Some(PrefixOf(codes[i]))
  {
    var n := |codes| - 1;
    if i < n {
      assert codes[..n][i] == codes[i];
      PrefixesAt(codes[..n], i);
    }
  }

  /** The flame length of every list entry at the given wind and moisture, 0 for a missing entry. */
  ghost function Flames(codes: seq<FuelCodeData?>, windSpeed: real, moisture: MoistureState): (xs: seq<real>)
    reads codes`flame
    ensures |xs| == |codes|
    ensures forall i :: 0 <= i < |codes| && codes[i] != null ==> xs[i] == codes[i].CalculateFlameLength(windSpeed, moisture)
  {
    if codes == [] then []
    else
      var last := codes[|codes| - 1];
      Flames(codes[..|codes| - 1], windSpeed, moisture) + [if last == null then 0.0 else last.CalculateFlameLength(windSpeed, moisture)]
  }

  /** The spread rate of every list entry at the given wind and moisture, 0 for a missing entry. */
  ghost function Rates(codes: seq<FuelCodeData?>, windSpeed: real, moisture: MoistureState): (xs: seq<real>)
    reads codes`ros
    ensures |xs| == |codes|
    ensures forall i :: 0 <= i < |codes| && codes[i] != null ==> xs[i] == codes[i].CalculateROS(windSpeed, moisture)
  {
    if codes == [] then []
    else
      var last := codes[|codes| - 1];
      Rates(codes[..|codes| - 1], windSpeed, moisture) + [if last == null then 0.0 else last.CalculateROS(windSpeed, moisture)]
  }

  /**
   * The family of prefix `p` as positions in the list: exactly the positions
   * of present entries with that prefix (`MembersComplete`), in increasing
   * order (`MembersIncreasing`).
   */
  function Members(ps: seq<Option<string>>, p: string): (at: seq<nat>)
    ensures forall j :: 0 <= j < |at| ==> at[j] < |ps| && ps[at[j]] == Some(p)
  {
    if ps == [] then []
    else
      var n := |ps| - 1;
      assert forall i :: 0 <= i < n ==> ps[..n][i] == ps[i];
      Members(ps[..n], p) + (if ps[n] == Some(p) then [n] else [])
  }

  /** Every position of a present entry with prefix `p` is in the family of `p`. */
  lemma {:induction false} MembersComplete(ps: seq<Option<string>>, p: string, i: nat)
    requires i < |ps| && ps[i] == Some(p)
    ensures i in Members(ps, p)
  {
    var n := |ps| - 1;
    if i < n {
      assert ps[..n][i] == ps[i];
      MembersComplete(ps[..n], p, i);
    }
  }

  /** The family of a prefix lists its positions in increasing order. */
  lemma {:induction false} MembersIncreasing(ps: seq<Option<string>>, p: string)
    ensures forall j, j' :: 0 <= j < j' < |Members(ps, p)| ==> Members(ps, p)[j] < Members(ps, p)[j']
  {
    if ps != [] {
      var n := |ps| - 1;
      MembersIncreasing(ps[..n], p);
      var front := Members(ps[..n], p);
      var at := Members(ps, p);
      assert at == front + (if ps[n] == Some(p) then [n] else []);
      forall j, j' | 0 <= j < j' < |at|
        ensures at[j] < at[j']
      {
        if j' < |front| {
          assert at[j] == front[j] && at[j'] == front[j'];
        } else {
          assert at[j] == front[j] < n == at[j'];
        }
      }
    }
  }

  /** Extending the list by one entry extends exactly the family of that entry's prefix. */
  lemma MembersStep(ps: seq<Option<string>>, i: nat, p: string)
    requires i < |ps|
    ensures Members(ps[..i + 1], p) == Members(ps[..i], p) + (if ps[i] == Some(p) then [i] else [])
  {
    assert ps[..i + 1][..i] == ps[..i];
  }

  /** The values at the given positions, in that order. */
  function ValuesAt(xs: seq<real>, at: seq<nat>): (r: seq<real>)
    requires forall j :: 0 <= j < |at| ==> at[j] < |xs|
    ensures |r| == |at|
    ensures forall j {:trigger r[j]} :: 0 <= j < |at| ==> r[j] == xs[at[j]]
  {
    if at == [] then []
    else ValuesAt(xs, at[..|at| - 1]) + [xs[at[|at| - 1]]]
  }

  /** The values of the members of entry `i`'s family, in list order; entry `i` is one of them. */
  function FamilyValues(ps: seq<Option<string>>, xs: seq<real>, i: nat): (values: seq<real>)
    requires |ps| == |xs| && i < |ps| && ps[i].Some?
    ensures |values| > 0
  {
    MembersComplete(ps, ps[i].value, i);
    ValuesAt(xs, Members(ps, ps[i].value))
  }

  /**
   * The shade entry `i` gets: its value rescaled between the smallest and the
   * largest value of its family.
   */
  function Target(ps: seq<Option<string>>, xs: seq<real>, i: nat): (s: real)
    requires |ps| == |xs| && i < |ps| && ps[i].Some?
    ensures ShadeLow <= s <= ShadeHigh
  {
    var values := FamilyValues(ps, xs, i);
    Shade(xs[i], MinOf(values), MaxOf(values))
  }

  /** Within a family, a larger value never gets a smaller shade. */
  lemma {:induction false} TargetMonotone(ps: seq<Option<string>>, xs: seq<real>, a: nat, b: nat)
    requires |ps| == |xs| && a < |ps| && b < |ps| && ps[a].Some? && ps[a] == ps[b]
    requires xs[a] <= xs[b]
    ensures Target(ps, xs, a) <= Target(ps, xs, b)
  {
    var values := FamilyValues(ps, xs, a);
    assert FamilyValues(ps, xs, b) == values;
    ShadeMonotone(xs[a], xs[b], MinOf(values), MaxOf(values));
  }

  /**
   * An entry's value lies between the smallest and the largest of its
   * family. In a family whose values spread more than the flat range, the
   * members with the smallest value get the lowest shade and those with the
   * largest the highest; in a flat family every member gets the middle shade.
   */
  lemma {:induction false} TargetExtremes(ps: seq<Option<string>>, xs: seq<real>, i: nat)
    requires |ps| == |xs| && i < |ps| && ps[i].Some?
    ensures var values := FamilyValues(ps, xs, i);
            MinOf(values) <= xs[i] <= MaxOf(values) &&
            (MaxOf(values) - MinOf(values) > FlatRange && xs[i] == MinOf(values) ==> Target(ps, xs, i) == ShadeLow) &&
            (MaxOf(values) - MinOf(values) > FlatRange && xs[i] == MaxOf(values) ==> Target(ps, xs, i) == ShadeHigh) &&
            (MaxOf(values) - MinOf(values) <= FlatRange ==> Target(ps, xs, i) == 0.65)
  {
    var values := FamilyValues(ps, xs, i);
    var at := Members(ps, ps[i].value);
    MembersComplete(ps, ps[i].value, i);
    var j :| 0 <= j < |at| && at[j] == i;
    assert values[j] == xs[i];
    BoundsAttained(values);
    ShadeExtremes(values, xs[i]);
  }

  /** The target shade of every entry; 0 for a missing one. */
  ghost function Targets(ps: seq<Option<string>>, xs: seq<real>): (ts: seq<real>)
    requires |ps| == |xs|
    ensures |ts| == |ps|
    ensures forall i :: 0 <= i < |ps| && ps[i].Some? ==> ts[i] == Target(ps, xs, i)
  {
    seq(|ps|, i requires 0 <= i < |ps| => if ps[i].Some? then Target(ps, xs, i) else 0.0)
  }

  /** `bucket` holds the list entries at positions `at`, in that order. */
  predicate Picks(bucket: seq<FuelCodeData>, codes: seq<FuelCodeData?>, at: seq<nat>) {
    |bucket| == |at| && forall j :: 0 <= j < |at| ==> at[j] < |codes| && bucket[j] == codes[at[j]]
  }

  /** Appending the entry at position `i` to a bucket appends `i` to its positions. */
  lemma {:induction false} PicksAppend(bucket: seq<FuelCodeData>, codes: seq<FuelCodeData?>, at: seq<nat>, i: nat)
    requires Picks(bucket, codes, at) && i < |codes| && codes[i] != null
    ensures Picks(bucket + [codes[i]], codes, at + [i])
  {
    assert forall j :: 0 <= j < |at| ==> (bucket + [codes[i]])[j] == bucket[j] && (at + [i])[j] == at[j];
  }

  /**
   * The buckets after the first `n` list entries: each prefix seen so far
   * owns the non-empty bucket of its entries; an unseen prefix has no
   * entries yet.
   */
  ghost predicate Bucketed(codes: seq<FuelCodeData?>, ps: seq<Option<string>>, n: nat, buckets: map<string, seq<FuelCodeData>>)
  {
    n <= |ps| &&
    (forall p :: p in buckets ==> Picks(buckets[p], codes, Members(ps[..n], p)) && |buckets[p]| > 0) &&
    (forall p :: p !in buckets ==> Members(ps[..n], p) == [])
  }

  /** One step of the first pass: a present entry joins its prefix's bucket, opening it when new. */
  lemma {:induction false} BucketsStep(codes: seq<FuelCodeData?>, ps: seq<Option<string>>, i: nat,
                                       buckets: map<string, seq<FuelCodeData>>, buckets': map<string, seq<FuelCodeData>>)
    requires i < |ps| == |codes| && Bucketed(codes, ps, i, buckets)
    requires ps[i].Some? <==> codes[i] != null
    requires codes[i] == null ==> buckets' == buckets
    requires codes[i] != null ==>
               var p := ps[i].value;
               buckets'.Keys == buckets.Keys + {p} &&
               (forall q :: q in buckets && q != p ==> buckets'[q] == buckets[q]) &&
               buckets'[p] == (if p in buckets then buckets[p] else []) + [codes[i]]
    ensures Bucketed(codes, ps, i + 1, buckets')
  {
    forall p | p in buckets'
      ensures Picks(buckets'[p], codes, Members(ps[..i + 1], p)) && |buckets'[p]| > 0
    {
      MembersStep(ps, i, p);
      if ps[i] == Some(p) {
        PicksAppend(if p in buckets then buckets[p] else [], codes, Members(ps[..i], p), i);
      } else {
        assert buckets'[p] == buckets[p];
      }
    }
    forall p | p !in buckets'
      ensures Members(ps[..i + 1], p) == []
    {
      MembersStep(ps, i, p);
    }
  }

  /** After the whole list, every present entry's prefix has a bucket, holding exactly its family. */
  lemma {:induction false} BucketedAll(codes: seq<FuelCodeData?>, ps: seq<Option<string>>, buckets: map<string, seq<FuelCodeData>>)
    requires Bucketed(codes, ps, |ps|, buckets)
    ensures forall p :: p in buckets ==> Picks(buckets[p], codes, Members(ps, p)) && |buckets[p]| > 0
    ensures forall i :: 0 <= i < |ps| && ps[i].Some? ==> ps[i].value in buckets
  {
    assert ps[..|ps|] == ps;
    forall i | 0 <= i < |ps| && ps[i].Some?
      ensures ps[i].value in buckets
    {
      MembersComplete(ps, ps[i].value, i);
    }
  }

  /**
   * The first pass of `Apply`: the present fuels bucketed by prefix, each
   * bucket in list order.
   */
  method BuildBuckets(codes: seq<FuelCodeData?>, ghost ps: seq<Option<string>>) returns (buckets: map<string, seq<FuelCodeData>>)
    requires ps == Prefixes(codes)
    ensures forall p :: p in buckets ==> Picks(buckets[p], codes, Members(ps, p)) && |buckets[p]| > 0
    ensures forall i :: 0 <= i < |ps| && ps[i].Some? ==> ps[i].value in buckets
  {
    buckets := map[];
    for i := 0 to |codes|
      invariant Bucketed(codes, ps, i, buckets)
    {
      buckets := AddToBucket(codes, ps, i, buckets);
    }
    BucketedAll(codes, ps, buckets);
  }

  /** One step of the first pass: entry `i`, when present, is appended to its prefix's bucket. */
  method AddToBucket(codes: seq<FuelCodeData?>, ghost ps: seq<Option<string>>, i: nat, buckets: map<string, seq<FuelCodeData>>)
    returns (buckets': map<string, seq<FuelCodeData>>)
    requires ps == Prefixes(codes) && i < |codes|
    requires Bucketed(codes, ps, i, buckets)
    ensures Bucketed(codes, ps, i + 1, buckets')
  {
    var fc := codes[i];
    PrefixesAt(codes, i);
    buckets' := buckets;
    if fc != null {
      var prefix := GetFamilyPrefix(fc.title, fc.codeGIS);
      var list := if prefix in buckets then buckets[prefix] else [];
      var entry: FuelCodeData := fc;
      buckets' := buckets[prefix := list + [entry]];
    }
    BucketsStep(codes, ps, i, buckets, buckets');
  }

  /** `flames` and `rates` hold the flame length and spread rate of every present entry. */
  ghost predicate Linked(codes: seq<FuelCodeData?>, windSpeed: real, moisture: MoistureState, flames: seq<real>, rates: seq<real>)
    reads codes`flame, codes`ros
  {
    (|flames|, |rates|) == (|codes|, |codes|) &&
    forall i :: 0 <= i < |codes| && codes[i] != null ==>
      FlameLength(codes[i].flame, windSpeed, moisture) == flames[i] && SpreadRate(codes[i].ros, windSpeed, moisture) == rates[i]
  }

  /**
   * The facts the second pass of `Apply` works from: the prefix, flame
   * length and spread rate of every list entry (no prefix for a missing
   * one, and the prefix `owner` records for its object for a present one)
   * and, for every present entry, its target shades.
   */
  ghost predicate Plan(codes: seq<FuelCodeData?>, windSpeed: real, moisture: MoistureState,
                       owner: map<FuelCodeData, string>, ps: seq<Option<string>>, flames: seq<real>, rates: seq<real>, bright: seq<real>, sat: seq<real>)
    reads codes`flame, codes`ros
  {
    (|ps|, |flames|, |rates|, |bright|, |sat|) == (|codes|, |codes|, |codes|, |codes|, |codes|) &&
    forall i :: 0 <= i < |codes| ==>
      if codes[i] == null then ps[i] == None
      else
        codes[i] in owner && ps[i] == Some(owner[codes[i]]) &&
        FlameLength(codes[i].flame, windSpeed, moisture) == flames[i] &&
        SpreadRate(codes[i].ros, windSpeed, moisture) == rates[i] &&
        bright[i] == Target(ps, flames, i) && sat[i] == Target(ps, rates, i)
  }

  /** Every present entry whose prefix is not in `remaining` carries its target shades. */
  ghost predicate TunedBut(codes: seq<FuelCodeData?>, ps: seq<Option<string>>, bright: seq<real>, sat: seq<real>,
                           remaining: set<string>)
    requires |ps| == |codes| && |bright| == |codes| && |sat| == |codes|
    reads codes`familyBrightness, codes`familySaturation
  {
    forall i :: 0 <= i < |codes| && ps[i].Some? && ps[i].value !in remaining ==>
      codes[i] != null && codes[i].familyBrightness == bright[i] && codes[i].familySaturation == sat[i]
  }

  /** `family` is a non-empty list of entries whose flame lengths and spread rates are `fl` and `rt`. */
  ghost predicate BucketInputs(codes: seq<FuelCodeData?>, windSpeed: real, moisture: MoistureState,
                               family: seq<FuelCodeData>, fl: seq<real>, rt: seq<real>)
    reads family`flame, family`ros
  {
    |family| > 0 && (|fl|, |rt|) == (|family|, |family|) &&
    forall j :: 0 <= j < |family| ==>
      family[j] in codes &&
      family[j].CalculateFlameLength(windSpeed, moisture) == fl[j] && family[j].CalculateROS(windSpeed, moisture) == rt[j]
  }

  /** Every entry with prefix `prefix` is in `family`, with its target shades being its family's shades. */
  ghost predicate BucketTargets(codes: seq<FuelCodeData?>, ps: seq<Option<string>>, bright: seq<real>, sat: seq<real>,
                                prefix: string, family: seq<FuelCodeData>, fl: seq<real>, rt: seq<real>)
  {
    (|ps|, |bright|, |sat|) == (|codes|, |codes|, |codes|) && (|fl|, |rt|) == (|family|, |family|) && |family| > 0 &&
    forall i :: 0 <= i < |codes| && ps[i] == Some(prefix) ==>
      exists j :: 0 <= j < |family| && family[j] == codes[i] &&
        bright[i] == Shade(fl[j], MinOf(fl), MaxOf(fl)) && sat[i] == Shade(rt[j], MinOf(rt), MaxOf(rt))
  }

  /** No entry with a prefix other than `prefix` is in `family`. */
  ghost predicate BucketExcludes(codes: seq<FuelCodeData?>, ps: seq<Option<string>>, prefix: string, family: seq<FuelCodeData>)
    requires |ps| == |codes|
  {
    forall i :: 0 <= i < |codes| && ps[i].Some? && ps[i] != Some(prefix) ==> codes[i] !in family
  }

  /** The flame lengths and spread rates of the bucket of `prefix` are its family's values. */
  lemma FamilyInputs(codes: seq<FuelCodeData?>, windSpeed: real, moisture: MoistureState,
                     ps: seq<Option<string>>, flames: seq<real>, rates: seq<real>, prefix: string, family: seq<FuelCodeData>)
    requires Linked(codes, windSpeed, moisture, flames, rates) && |ps| == |codes|
    requires Picks(family, codes, Members(ps, prefix)) && |family| > 0
    ensures BucketInputs(codes, windSpeed, moisture, family, ValuesAt(flames, Members(ps, prefix)), ValuesAt(rates, Members(ps, prefix)))
  {
    var at := Members(ps, prefix);
    forall j | 0 <= j < |family|
      ensures family[j] in codes
      ensures family[j].CalculateFlameLength(windSpeed, moisture) == ValuesAt(flames, at)[j]
      ensures family[j].CalculateROS(windSpeed, moisture) == ValuesAt(rates, at)[j]
    {
      assert family[j] == codes[at[j]];
    }
  }

  /** Every entry with prefix `prefix` is in its bucket, where its target shades are its family's shades. */
  lemma FamilyTargets(codes: seq<FuelCodeData?>, windSpeed: real, moisture: MoistureState,
                     owner: map<FuelCodeData, string>, ps: seq<Option<string>>, flames: seq<real>, rates: seq<real>,
                     bright: seq<real>, sat: seq<real>, prefix: string, family: seq<FuelCodeData>)
    requires Plan(codes, windSpeed, moisture, owner, ps, flames, rates, bright, sat)
    requires Picks(family, codes, Members(ps, prefix)) && |family| > 0
    ensures BucketTargets(codes, ps, bright, sat, prefix, family, ValuesAt(flames, Members(ps, prefix)), ValuesAt(rates, Members(ps, prefix)))
  {
    var at := Members(ps, prefix);
    forall i | 0 <= i < |codes| && ps[i] == Some(prefix)
      ensures exists j :: 0 <= j < |family| && family[j] == codes[i] &&
                bright[i] == Shade(ValuesAt(flames, at)[j], MinOf(ValuesAt(flames, at)), MaxOf(ValuesAt(flames, at))) &&
                sat[i] == Shade(ValuesAt(rates, at)[j], MinOf(ValuesAt(rates, at)), MaxOf(ValuesAt(rates, at)))
    {
      MembersComplete(ps, prefix, i);
      var j :| 0 <= j < |at| && at[j] == i;
      assert family[j] == codes[i];
    }
  }

  /** No entry with another prefix is in the bucket of `prefix`. */
  lemma FamilyExcludes(codes: seq<FuelCodeData?>, windSpeed: real, moisture: MoistureState,
                     owner: map<FuelCodeData, string>, ps: seq<Option<string>>, flames: seq<real>, rates: seq<real>,
                     bright: seq<real>, sat: seq<real>, prefix: string, family: seq<FuelCodeData>)
    requires Plan(codes, windSpeed, moisture, owner, ps, flames, rates, bright, sat)
    requires Picks(family, codes, Members(ps, prefix))
    ensures BucketExcludes(codes, ps, prefix, family)
  {
    var at := Members(ps, prefix);
    forall i | 0 <= i < |codes| && ps[i].Some? && ps[i] != Some(prefix)
      ensures codes[i] !in family
    {
      forall j | 0 <= j < |family|
        ensures family[j] != codes[i]
      {
        assert family[j] == codes[at[j]] && ps[at[j]] == Some(prefix);
      }
    }
  }

  /**
   * One round of the second pass of `Apply`: the bucket of `prefix` is tuned
   * as one family, which gives each of its entries its target shades and
   * leaves the entries of every other prefix alone.
   */
  method TuneBucket(codes: seq<FuelCodeData?>, windSpeed: real, moisture: MoistureState,
                    ghost ps: seq<Option<string>>, ghost bright: seq<real>, ghost sat: seq<real>,
                    prefix: string, family: seq<FuelCodeData>, ghost fl: seq<real>, ghost rt: seq<real>,
                    ghost remaining: set<string>, ghost flames: seq<real>, ghost rates: seq<real>)
    requires (|ps|, |bright|, |sat|) == (|codes|, |codes|, |codes|)
    requires BucketInputs(codes, windSpeed, moisture, family, fl, rt)
    requires BucketTargets(codes, ps, bright, sat, prefix, family, fl, rt) && BucketExcludes(codes, ps, prefix, family)
    requires TunedBut(codes, ps, bright, sat, remaining)
    modifies codes`familyBrightness, codes`familySaturation
    requires Linked(codes, windSpeed, moisture, flames, rates)
    ensures Linked(codes, windSpeed, moisture, flames, rates)
    ensures TunedBut(codes, ps, bright, sat, remaining - {prefix})
  {
    TuneFamily(family, windSpeed, moisture, fl, rt);
    forall i | 0 <= i < |codes| && ps[i] == Some(prefix)
      ensures codes[i] != null && codes[i].familyBrightness == bright[i] && codes[i].familySaturation == sat[i]
    {
      var j :| 0 <= j < |family| && family[j] == codes[i] &&
                bright[i] == Shade(fl[j], MinOf(fl), MaxOf(fl)) && sat[i] == Shade(rt[j], MinOf(rt), MaxOf(rt));
    }
  }

  /** Every bucket, read off the plan, holds its prefix's entries and their target shades. */
  lemma BucketsReady(codes: seq<FuelCodeData?>, windSpeed: real, moisture: MoistureState,
                     owner: map<FuelCodeData, string>, ps: seq<Option<string>>, flames: seq<real>, rates: seq<real>,
                     bright: seq<real>, sat: seq<real>, buckets: map<string, seq<FuelCodeData>>)
    requires Plan(codes, windSpeed, moisture, owner, ps, flames, rates, bright, sat)
    requires forall p :: p in buckets ==> Picks(buckets[p], codes, Members(ps, p)) && |buckets[p]| > 0
    ensures forall p :: p in buckets ==>
              BucketTargets(codes, ps, bright, sat, p, buckets[p], ValuesAt(flames, Members(ps, p)), ValuesAt(rates, Members(ps, p))) &&
              BucketExcludes(codes, ps, p, buckets[p])
  {
    forall p | p in buckets
      ensures BucketTargets(codes, ps, bright, sat, p, buckets[p], ValuesAt(flames, Members(ps, p)), ValuesAt(rates, Members(ps, p)))
      ensures BucketExcludes(codes, ps, p, buckets[p])
    {
      FamilyTargets(codes, windSpeed, moisture, owner, ps, flames, rates, bright, sat, p, buckets[p]);
      FamilyExcludes(codes, windSpeed, moisture, owner, ps, flames, rates, bright, sat, p, buckets[p]);
    }
  }

  /**
   * The second pass of `Apply`: every bucket is tuned as one family, which
   * gives every present entry its target shades.
   */
  method TuneBuckets(codes: seq<FuelCodeData?>, windSpeed: real, moisture: MoistureState,
                     ghost ps: seq<Option<string>>, ghost flames: seq<real>, ghost rates: seq<real>,
                     ghost bright: seq<real>, ghost sat: seq<real>, buckets: map<string, seq<FuelCodeData>>)
    requires (|ps|, |bright|, |sat|) == (|codes|, |codes|, |codes|) && Linked(codes, windSpeed, moisture, flames, rates)
    requires forall i :: 0 <= i < |codes| ==> (ps[i].Some? <==> codes[i] != null)
    requires forall i :: 0 <= i < |ps| && ps[i].Some? ==> ps[i].value in buckets
    requires forall p :: p in buckets ==> Picks(buckets[p], codes, Members(ps, p)) && |buckets[p]| > 0
    requires forall p :: p in buckets ==>
               BucketTargets(codes, ps, bright, sat, p, buckets[p], ValuesAt(flames, Members(ps, p)), ValuesAt(rates, Members(ps, p))) &&
               BucketExcludes(codes, ps, p, buckets[p])
    modifies codes`familyBrightness, codes`familySaturation
    ensures forall i :: 0 <= i < |codes| && codes[i] != null ==>
              codes[i].familyBrightness == bright[i] && codes[i].familySaturation == sat[i]
  {
    var remaining := buckets.Keys;
    while remaining != {}
      invariant remaining <= buckets.Keys
      invariant Linked(codes, windSpeed, moisture, flames, rates)
      invariant TunedBut(codes, ps, bright, sat, remaining)
      decreases remaining
    {
      var prefix :| prefix in remaining;
      var family := buckets[prefix];
      FamilyInputs(codes, windSpeed, moisture, ps, flames, rates, prefix, family);
      TuneBucket(codes, windSpeed, moisture, ps, bright, sat, prefix, family,
                 ValuesAt(flames, Members(ps, prefix)), ValuesAt(rates, Members(ps, prefix)), remaining, flames, rates);
      remaining := remaining - {prefix};
    }
  }

  /**
   * `Apply`: a missing or empty catalog is left alone; otherwise every
   * present fuel gets, as brightness, its flame length's shade and, as
   * saturation, its spread rate's shade among the fuels with its prefix, all
   * read in the state `Apply` starts in.
   */
  method Apply(catalog: FuelCodeSet?, windSpeed: real, moisture: MoistureState)
    modifies if catalog == null then [] else catalog.fuelCodes`familyBrightness
    modifies if catalog == null then [] else catalog.fuelCodes`familySaturation
    ensures catalog != null ==> forall i :: 0 <= i < |catalog.fuelCodes| && catalog.fuelCodes[i] != null ==>
              catalog.fuelCodes[i].familyBrightness ==
                Target(old(Prefixes(catalog.fuelCodes)), old(Flames(catalog.fuelCodes, windSpeed, moisture)), i) &&
              catalog.fuelCodes[i].familySaturation ==
                Target(old(Prefixes(catalog.fuelCodes)), old(Rates(catalog.fuelCodes, windSpeed, moisture)), i)
  {
    if catalog == null || |catalog.fuelCodes| == 0 {
      return;
    }
    Retune(catalog.fuelCodes, windSpeed, moisture);
  }

  /** The body of `Apply` for a present list: bucket the fuels by prefix, then tune every bucket. */
  method Retune(codes: seq<FuelCodeData?>, windSpeed: real, moisture: MoistureState)
    modifies codes`familyBrightness, codes`familySaturation
    ensures forall i :: 0 <= i < |codes| && codes[i] != null ==>
              codes[i].familyBrightness == Target(old(Prefixes(codes)), old(Flames(codes, windSpeed, moisture)), i) &&
              codes[i].familySaturation == Target(old(Prefixes(codes)), old(Rates(codes, windSpeed, moisture)), i)
  {
    ghost var ps := Prefixes(codes);
    ghost var flames := Flames(codes, windSpeed, moisture);
    ghost var rates := Rates(codes, windSpeed, moisture);
    ghost var owner := map fc | fc in (set i | 0 <= i < |codes| && codes[i] != null :: codes[i]) :: PrefixOf(fc);
    forall i | 0 <= i < |codes|
      ensures if codes[i] == null then ps[i] == None else codes[i] in owner && ps[i] == Some(owner[codes[i]])
    {
      PrefixesAt(codes, i);
    }
    ghost var bright := Targets(ps, flames);
    ghost var sat := Targets(ps, rates);
    var buckets := BuildBuckets(codes, ps);
    BucketsReady(codes, windSpeed, moisture, owner, ps, flames, rates, bright, sat, buckets);
    TuneBuckets(codes, windSpeed, moisture, ps, flames, rates, bright, sat, buckets);
  }
}
