/**
 * The text side of XYZ import: a line reader (`StringReader.ReadLine`), the
 * separator-splitting of `String.Split` with empty entries removed, the
 * hand-written token reader of the import window, the parse of one
 * `x z value` line, and what a sequence of pixel writes leaves in a layer.
 * The float parse is a parameter: `None` is a failed `float.TryParse`.
 */
module XyzText {
  import opened Wrappers
  import opened Numeric
  import opened Text
  import Mathf
  import opened GeoTransform
  import opened Raster

  /** The separators of XYZ lines: space, tab and comma. */
  predicate IsSeparator(c: char) {
    c == ' ' || c == '\t' || c == ','
  }

  predicate IsLineBreak(c: char) {
    c == '\n' || c == '\r'
  }

  /** The length of the first line of `s`: everything before the first line break. */
  function LineLength(s: string): (n: nat)
    ensures n <= |s|
    ensures forall j :: 0 <= j < n ==> !IsLineBreak(s[j])
    ensures n < |s| ==> IsLineBreak(s[n])
  {
    if s == [] || IsLineBreak(s[0]) then 0 else 1 + LineLength(s[1..])
  }

  /**
   * `StringReader.ReadLine` repeated until it returns null: lines end at
   * "\n", "\r" or "\r\n", and a final line break opens no empty line.
   */
  function Lines(text: string): (lines: seq<string>)
    ensures |lines| <= |text|
    decreases |text|
  {
    if text == [] then []
    else
      var n := LineLength(text);
      var next := if n == |text| then n
                  else if text[n] == '\r' && n + 1 < |text| && text[n + 1] == '\n' then n + 2
                  else n + 1;
      [text[..n]] + Lines(text[next..])
  }

  /** No line the reader returns holds a line break. */
  lemma {:induction false} LinesHoldNoBreak(text: string)
    ensures forall i, j :: 0 <= i < |Lines(text)| && 0 <= j < |Lines(text)[i]| ==> !IsLineBreak(Lines(text)[i][j])
    decreases |text|
  {
    if text != [] {
      var n := LineLength(text);
      var next := if n == |text| then n
                  else if text[n] == '\r' && n + 1 < |text| && text[n + 1] == '\n' then n + 2
                  else n + 1;
      LinesHoldNoBreak(text[next..]);
    }
  }

  /** The number of leading non-separators of `s`. */
  function FieldLength(s: string): (n: nat)
    ensures n <= |s|
  {
    if s == [] || IsSeparator(s[0]) then 0 else 1 + FieldLength(s[1..])
  }

  /**
   * `s.Split(new[] { ' ', '\t', ',' }, StringSplitOptions.RemoveEmptyEntries)`:
   * the maximal runs of non-separators, in order.
   */
  function Split(s: string): seq<string>
    decreases |s|
  {
    if s == [] then []
    else if IsSeparator(s[0]) then Split(s[1..])
    else
      var n := FieldLength(s);
      [s[..n]] + Split(s[n..])
  }

  /** The first position at or after `i` that holds no separator, or the end of the line. */
  function TokenStart(line: string, i: nat): (s: nat)
    requires i <= |line|
    ensures i <= s <= |line|
    ensures forall j :: i <= j < s ==> IsSeparator(line[j])
    ensures s < |line| ==> !IsSeparator(line[s])
    decreases |line| - i
  {
    if i == |line| || !IsSeparator(line[i]) then i else TokenStart(line, i + 1)
  }

  /** The first position at or after `i` that holds a separator, or the end of the line. */
  function TokenStop(line: string, i: nat): (e: nat)
    requires i <= |line|
    ensures i <= e <= |line|
    ensures forall j :: i <= j < e ==> !IsSeparator(line[j])
    ensures e < |line| ==> IsSeparator(line[e])
    decreases |line| - i
  {
    if i == |line| || IsSeparator(line[i]) then i else TokenStop(line, i + 1)
  }

  /** The tokens `TryReadToken` reads one after another, starting at `i`. */
  function TokensFrom(line: string, i: nat): seq<string>
    requires i <= |line|
    decreases |line| - i
  {
    var s := TokenStart(line, i);
    if s == |line| then []
    else
      var e := TokenStop(line, s);
      [line[s..e]] + TokensFrom(line, e)
  }

  /** A field is as long as the token that starts there. */
  lemma {:induction false} FieldLengthIsTokenLength(line: string, i: nat)
    requires i <= |line|
    ensures FieldLength(line[i..]) == TokenStop(line, i) - i
    decreases |line| - i
  {
    if i < |line| && !IsSeparator(line[i]) {
      assert line[i..][1..] == line[i + 1..];
      FieldLengthIsTokenLength(line, i + 1);
    }
  }

  /**
   * The window's token reader and the parser's `String.Split` see the same
   * fields: reading tokens from `i` to the end gives the split of the rest.
   */
  lemma {:induction false} TokensFromIsSplit(line: string, i: nat)
    requires i <= |line|
    ensures TokensFrom(line, i) == Split(line[i..])
    decreases |line| - i
  {
    if i < |line| {
      var rest := line[i..];
      if IsSeparator(line[i]) {
        assert rest[1..] == line[i + 1..];
        TokensFromIsSplit(line, i + 1);
        assert TokensFrom(line, i) == TokensFrom(line, i + 1);
      } else {
        var e := TokenStop(line, i);
        FieldLengthIsTokenLength(line, i);
        assert rest[..e - i] == line[i..e];
        assert rest[e - i..] == line[e..];
        TokensFromIsSplit(line, e);
      }
    }
  }

  /**
   * `TryReadToken`: skips separators from `idx`; at the end of the line it
   * fails, otherwise it returns the run of non-separators there and leaves
   * `idx` just past it.
   */
  method TryReadToken(line: string, idx0: nat) returns (ok: bool, idx: nat, token: string)
    ensures idx0 > |line| ==> !ok && idx == idx0 && token == ""
    ensures idx0 <= |line| ==>
              var s := TokenStart(line, idx0);
              (ok <==> s < |line|) &&
              (ok ==> idx == TokenStop(line, s) && token == line[s..idx] && |token| > 0) &&
              (!ok ==> idx == |line| && token == "")
  {
    token := "";
    idx := idx0;
    var len := |line|;
    while idx < len
      invariant (idx0 > len && idx == idx0) || (idx0 <= idx <= len && TokenStart(line, idx) == TokenStart(line, idx0))
      decreases len - idx
    {
      var c := line[idx];
      if c != ' ' && c != '\t' && c != ',' {
        break;
      }
      idx := idx + 1;
    }
    if idx >= len {
      return false, idx, "";
    }
    var start := idx;
    while idx < len
      invariant start <= idx <= len
      invariant TokenStop(line, idx) == TokenStop(line, start)
      decreases len - idx
    {
      var c := line[idx];
      if c == ' ' || c == '\t' || c == ',' {
        break;
      }
      idx := idx + 1;
    }
    token := line[start..idx];
    ok := |token| > 0;
  }

  /** One point of an XYZ file: two integer metre coordinates and a value. */
  datatype XYZPoint = XYZPoint(xMeter: int, zMeter: int, value: real)

  /**
   * The fields of a line as a point: at least three fields, the first two
   * 32-bit integers and the third a float; further fields are ignored.
   */
  function FieldsToPoint(parts: seq<string>, parseFloat: string -> Option<real>): (p: Option<XYZPoint>)
    ensures p.Some? ==> |parts| >= 3 && TryParseInt32(parts[0]) == Some(p.value.xMeter) &&
                        TryParseInt32(parts[1]) == Some(p.value.zMeter) && parseFloat(parts[2]) == Some(p.value.value)
    ensures (|parts| >= 3 && TryParseInt32(parts[0]).Some? && TryParseInt32(parts[1]).Some? &&
             parseFloat(parts[2]).Some?) ==> p.Some?
  {
    if |parts| < 3 then None
    else
      match (TryParseInt32(parts[0]), TryParseInt32(parts[1]), parseFloat(parts[2]))
      case (Some(x), Some(z), Some(v)) => Some(XYZPoint(x, z, v))
      case _ => None
  }

  /** Fields beyond the third never change the point a line gives. */
  lemma ExtraFieldsIgnored(parts: seq<string>, more: seq<string>, parseFloat: string -> Option<real>)
    requires |parts| >= 3
    ensures FieldsToPoint(parts + more, parseFloat) == FieldsToPoint(parts, parseFloat)
  {
    assert (parts + more)[..3] == parts[..3];
    assert (parts + more)[0] == parts[0] && (parts + more)[1] == parts[1] && (parts + more)[2] == parts[2];
  }

  /** What `TryParseXYZLine` yields for a line: nothing for a blank line, else the point of its fields. */
  function ReadXYZLine(line: string, parseFloat: string -> Option<real>): Option<XYZPoint> {
    if IsBlank(line) then None else FieldsToPoint(Split(line), parseFloat)
  }

  /**
   * `TryParseXYZLine`: reads three tokens and parses them; it succeeds
   * exactly on the lines whose `String.Split` fields make a point, with that
   * point.
   */
  method TryParseXYZLine(line: string, parseFloat: string -> Option<real>)
    returns (ok: bool, xMeter: int, zMeter: int, value: real)
    ensures ok <==> ReadXYZLine(line, parseFloat).Some?
    ensures ok ==> ReadXYZLine(line, parseFloat) == Some(XYZPoint(xMeter, zMeter, value))
  {
    xMeter, zMeter, value := 0, 0, 0.0;
    if IsBlank(line) {
      return false, xMeter, zMeter, value;
    }
    var three, token1, token2, token3 := ReadThreeTokens(line);
    if !three {
      FewTokensNoPoint(line, parseFloat);
      return false, xMeter, zMeter, value;
    }
    PointOfFirstTokens(line, parseFloat);
    var px, pz, pv := TryParseInt32(token1), TryParseInt32(token2), parseFloat(token3);
    if px.None? || pz.None? || pv.None? {
      return false, xMeter, zMeter, value;
    }
    xMeter, zMeter, value := px.value, pz.value, pv.value;
    ok := true;
  }

  /** The three `TryReadToken` calls of `TryParseXYZLine`: they succeed exactly when the line has three tokens. */
  method ReadThreeTokens(line: string) returns (ok: bool, token1: string, token2: string, token3: string)
    ensures ok <==> |TokensFrom(line, 0)| >= 3
    ensures ok ==> TokensFrom(line, 0)[..3] == [token1, token2, token3]
  {
    token2, token3 := "", "";
    var ok1, idx1, ok2, idx2, ok3, idx3;
    ok1, idx1, token1 := TryReadToken(line, 0);
    if !ok1 {
      assert TokensFrom(line, 0) == [];
      return false, token1, token2, token3;
    }
    assert TokensFrom(line, 0) == [token1] + TokensFrom(line, idx1);
    ok2, idx2, token2 := TryReadToken(line, idx1);
    if !ok2 {
      assert TokensFrom(line, idx1) == [];
      return false, token1, token2, token3;
    }
    assert TokensFrom(line, idx1) == [token2] + TokensFrom(line, idx2);
    ok3, idx3, token3 := TryReadToken(line, idx2);
    if !ok3 {
      assert TokensFrom(line, idx2) == [];
      return false, token1, token2, token3;
    }
    assert TokensFrom(line, idx2) == [token3] + TokensFrom(line, idx3);
    assert TokensFrom(line, 0)[..3] == [token1, token2, token3];
    ok := true;
  }

  /** A non-blank line with fewer than three tokens gives no point. */
  lemma FewTokensNoPoint(line: string, parseFloat: string -> Option<real>)
    requires !IsBlank(line) && |TokensFrom(line, 0)| < 3
    ensures ReadXYZLine(line, parseFloat).None?
  {
    TokensFromIsSplit(line, 0);
    assert line[0..] == line;
  }

  /** On a non-blank line with three tokens, the point is the parse of the first three. */
  lemma PointOfFirstTokens(line: string, parseFloat: string -> Option<real>)
    requires !IsBlank(line) && |TokensFrom(line, 0)| >= 3
    ensures ReadXYZLine(line, parseFloat) == FieldsToPoint(TokensFrom(line, 0)[..3], parseFloat)
  {
    var parts := TokensFrom(line, 0);
    TokensFromIsSplit(line, 0);
    assert line[0..] == line;
    assert parts == parts[..3] + parts[3..];
    ExtraFieldsIgnored(parts[..3], parts[3..], parseFloat);
  }

  /**
   * `Convert.ToInt16(float)`: rounds half to even and fails (throws) when
   * the rounded value does not fit 16 bits.
   */
  function ConvertToInt16(v: real): (r: Option<Int16>)
    ensures r.Some? <==> -0x8000 <= Mathf.RoundToInt(v) < 0x8000
    ensures r.Some? ==> r.value as int == Mathf.RoundToInt(v)
  {
    var n := Mathf.RoundToInt(v);
    if -0x8000 <= n < 0x8000 then Some(n as Int16) else None
  }

  /** The C# `(short)Mathf.RoundToInt(v)` of the import window: rounded, then wrapped to 16 bits. */
  function RoundToShort(v: real): (r: Int16)
    ensures -0x8000 <= Mathf.RoundToInt(v) < 0x8000 ==> r as int == Mathf.RoundToInt(v)
    ensures (r as int - Mathf.RoundToInt(v)) % 0x1_0000 == 0
  {
    Wrap16(Mathf.RoundToInt(v))
  }


  /** Where XYZ points land: the grid's origin in metres, its step, its row direction and its extent. */
  datatype Grid = Grid(startLongitudeMeter: int, startLatitudeMeter: int, meterStep: int,
                       negativeLatitudeStep: bool, xWidth: int, zWidth: int)

  /**
   * The pixel of a metre position: the offsets from the origin in 32-bit
   * arithmetic, divided by the step with C#'s rounding toward zero; rows count
   * away from the origin in the direction of the latitude step. Nothing where
   * the division throws.
   */
  function PixelOf(g: Grid, xMeter: int, zMeter: int): (c: Option<Coord>)
    ensures c.None? <==> CsDiv(Wrap32(xMeter - g.startLongitudeMeter), g.meterStep).None? ||
                         CsDiv(Wrap32(if g.negativeLatitudeStep then g.startLatitudeMeter - zMeter
                                      else zMeter - g.startLatitudeMeter), g.meterStep).None?
    ensures g.meterStep > 0 ==> c.Some?
  {
    var dz := if g.negativeLatitudeStep then g.startLatitudeMeter - zMeter else zMeter - g.startLatitudeMeter;
    match (CsDiv(Wrap32(xMeter - g.startLongitudeMeter), g.meterStep), CsDiv(Wrap32(dz), g.meterStep))
    case (Some(x), Some(z)) => Some(Coord(x, z))
    case _ => None
  }

  /** The pixels of [0, xWidth) x [0, zWidth). */
  predicate InGrid(g: Grid, c: Coord) {
    0 <= c.x < g.xWidth && 0 <= c.z < g.zWidth
  }

  /** What is stored for a value: elevations below 0 become 0, fuel codes are kept. */
  function StoredValue(v: Int16, isElevation: bool): (r: Int16)
    ensures isElevation ==> r >= 0 && (v >= 0 ==> r == v)
    ensures !isElevation ==> r == v
  {
    if isElevation && v < 0 then 0 else v
  }

  /**
   * For a positive step and offsets that do not wrap, a point lands in the
   * pixel whose step-wide band holds it, counted from the origin; a point less
   * than a step before the origin lands in pixel 0, because the division
   * rounds toward zero.
   */
  lemma PixelBand(g: Grid, xMeter: int, zMeter: int)
    requires g.meterStep > 0 && IsInt32(xMeter - g.startLongitudeMeter)
    ensures var x := PixelOf(g, xMeter, zMeter).value.x;
            var d := xMeter - g.startLongitudeMeter;
            (d >= 0 ==> x * g.meterStep <= d < (x + 1) * g.meterStep) &&
            (-g.meterStep < d < 0 ==> x == 0) &&
            (d <= -g.meterStep ==> x < 0)
  {
    var d := xMeter - g.startLongitudeMeter;
    var s := g.meterStep;
    var x := TruncDiv(d, s);
    assert PixelOf(g, xMeter, zMeter).value.x == x;
    var r := d - x * s;
    assert Abs(r) < s && (r == 0 || ((r < 0) <==> (d < 0)));
    if d >= 0 {
      assert (x + 1) * s == x * s + s;
    } else if d > -s {
      assert (-1) * s < x * s < 1 * s;
      MulLess(-1, x, s);
      MulLess(x, 1, s);
    } else {
      assert x * s < 0 * s;
      MulLess(x, 0, s);
    }
  }
}
