/**
 * The .NET text rules the importers rely on: the two whitespace classes
 * (the one `int.TryParse` skips and the wider Unicode one behind
 * `string.IsNullOrWhiteSpace`), the integer grammar of `int.TryParse` and
 * `short.TryParse` under the default number style, and ASCII upper-casing.
 * A C# `null` string is the empty string here.
 */
module Text {
  import opened Numeric
  import opened Wrappers

  /** The whitespace `int.TryParse` accepts around a number: tab, LF, VT, FF, CR and space. */
  predicate IsNumberWhite(c: char) {
    c == ' ' || ('\t' <= c <= '\r')
  }

  /** `char.IsWhiteSpace`: the Unicode White_Space characters. */
  predicate IsWhiteSpace(c: char) {
    IsNumberWhite(c) || c == '\U{85}' || c == '\U{A0}' || c == '\U{1680}' ||
    ('\U{2000}' <= c <= '\U{200A}') || c == '\U{2028}' || c == '\U{2029}' ||
    c == '\U{202F}' || c == '\U{205F}' || c == '\U{3000}'
  }

  /** `string.IsNullOrWhiteSpace`. */
  predicate IsBlank(s: string) {
    forall i :: 0 <= i < |s| ==> IsWhiteSpace(s[i])
  }

  predicate IsDigit(c: char) {
    '0' <= c <= '9'
  }

  predicate AllDigits(s: string) {
    forall i :: 0 <= i < |s| ==> IsDigit(s[i])
  }

  function DigitValue(c: char): nat
    requires IsDigit(c)
  {
    (c as int - '0' as int) as nat
  }

  /** The value of a decimal digit string, most significant digit first. */
  function DigitsValue(s: string): nat
    requires AllDigits(s)
  {
    if s == [] then 0 else DigitsValue(s[..|s| - 1]) * 10 + DigitValue(s[|s| - 1])
  }

  /** `s` without its leading number whitespace. */
  function TrimStart(s: string): string {
    if |s| > 0 && IsNumberWhite(s[0]) then TrimStart(s[1..]) else s
  }

  /** `s` without its trailing number whitespace. */
  function TrimEnd(s: string): string {
    if |s| > 0 && IsNumberWhite(s[|s| - 1]) then TrimEnd(s[..|s| - 1]) else s
  }

  /** Trimming the start leaves a suffix that starts with no whitespace, and drops only whitespace. */
  lemma {:induction false} TrimStartShape(s: string)
    ensures var t := TrimStart(s);
      |t| <= |s| && t == s[|s| - |t|..] &&
      (|t| > 0 ==> !IsNumberWhite(t[0])) &&
      (forall i :: 0 <= i < |s| - |t| ==> IsNumberWhite(s[i]))
    decreases |s|
  {
    if |s| > 0 && IsNumberWhite(s[0]) {
      TrimStartShape(s[1..]);
    }
  }

  /** Trimming the end leaves a prefix that ends with no whitespace, and drops only whitespace. */
  lemma {:induction false} TrimEndShape(s: string)
    ensures var t := TrimEnd(s);
      |t| <= |s| && t == s[..|t|] &&
      (|t| > 0 ==> !IsNumberWhite(t[|t| - 1])) &&
      (forall i :: |t| <= i < |s| ==> IsNumberWhite(s[i]))
    decreases |s|
  {
    if |s| > 0 && IsNumberWhite(s[|s| - 1]) {
      TrimEndShape(s[..|s| - 1]);
    }
  }

  /**
   * The integer grammar of `int.TryParse` with the default style: optional
   * surrounding whitespace, an optional `+` or `-`, and at least one ASCII
   * digit. The value is unbounded here; the typed parsers check the range.
   */
  function ParseInteger(s: string): Option<int> {
    ParseSignedDigits(TrimEnd(TrimStart(s)))
  }

  /** An optional sign followed by one or more digits, and nothing else. */
  function ParseSignedDigits(t: string): Option<int> {
    var negative := |t| > 0 && t[0] == '-';
    var body := if |t| > 0 && (t[0] == '-' || t[0] == '+') then t[1..] else t;
    if |body| > 0 && AllDigits(body) then
      Some(if negative then -(DigitsValue(body) as int) else DigitsValue(body))
    else None
  }

  /** `int.TryParse`: the value when the text is an integer that fits 32 bits. */
  function TryParseInt32(s: string): (r: Option<int>)
    ensures r.Some? ==> IsInt32(r.value) && ParseInteger(s) == r
    ensures r.None? ==> ParseInteger(s).None? || !IsInt32(ParseInteger(s).value)
  {
    match ParseInteger(s)
    case Some(n) => if IsInt32(n) then Some(n) else None
    case None => None
  }

  /** `short.TryParse`: the value when the text is an integer that fits 16 bits. */
  function TryParseInt16(s: string): (r: Option<Int16>)
    ensures r.Some? ==> ParseInteger(s) == Some(r.value as int)
    ensures r.None? ==> ParseInteger(s).None? || !(-0x8000 <= ParseInteger(s).value < 0x8000)
  {
    match ParseInteger(s)
    case Some(n) => if -0x8000 <= n < 0x8000 then Some(n as Int16) else None
    case None => None
  }

  /** Decimal digits of a natural number, without leading zeros. */
  function NatToString(n: nat): (s: string)
    ensures |s| > 0 && AllDigits(s)
  {
    if n < 10 then [('0' as int + n) as char]
    else NatToString(n / 10) + [('0' as int + n % 10) as char]
  }

  /** `int.ToString()` under the invariant culture. */
  function IntToString(n: int): (s: string)
    ensures |s| > 0
  {
    if n < 0 then "-" + NatToString(-n) else NatToString(n)
  }

  lemma {:induction false} NatToStringValue(n: nat)
    ensures DigitsValue(NatToString(n)) == n
  {
    var s := NatToString(n);
    if n >= 10 {
      NatToStringValue(n / 10);
      assert s[..|s| - 1] == NatToString(n / 10);
    }
  }

  /** Printing an integer and parsing it back gives the integer. */
  lemma {:induction false} ParseIntegerInvertsIntToString(n: int)
    ensures ParseInteger(IntToString(n)) == Some(n)
  {
    var s := IntToString(n);
    var d := NatToString(if n < 0 then -n else n);
    NatToStringValue(if n < 0 then -n else n);
    assert !IsNumberWhite(s[0]);
    assert TrimStart(s) == s;
    assert !IsNumberWhite(s[|s| - 1]) by {
      assert s[|s| - 1] == d[|d| - 1];
      assert IsDigit(d[|d| - 1]);
    }
    assert TrimEnd(s) == s;
    if n < 0 {
      assert s[1..] == d;
    } else {
      assert IsDigit(s[0]);
    }
  }

  /** Leading and trailing number whitespace never changes what parses. */
  lemma {:induction false} ParseIntegerIgnoresPadding(pre: string, s: string, post: string)
    requires forall i :: 0 <= i < |pre| ==> IsNumberWhite(pre[i])
    requires forall i :: 0 <= i < |post| ==> IsNumberWhite(post[i])
    requires |s| > 0 && !IsNumberWhite(s[0]) && !IsNumberWhite(s[|s| - 1])
    ensures ParseInteger(pre + s + post) == ParseInteger(s)
  {
    assert pre + s + post == pre + (s + post);
    TrimStartSkips(pre, s + post);
    TrimEndSkips(s, post);
    assert TrimEnd(TrimStart(pre + s + post)) == s;
    assert TrimStart(s) == s;
    assert TrimEnd(s) == s;
  }

  lemma {:induction false} TrimStartSkips(pre: string, s: string)
    requires forall i :: 0 <= i < |pre| ==> IsNumberWhite(pre[i])
    requires |s| > 0 && !IsNumberWhite(s[0])
    ensures TrimStart(pre + s) == s
    decreases |pre|
  {
    if pre != [] {
      assert (pre + s)[1..] == pre[1..] + s;
      TrimStartSkips(pre[1..], s);
    } else {
      assert pre + s == s;
    }
  }

  lemma {:induction false} TrimEndSkips(s: string, post: string)
    requires forall i :: 0 <= i < |post| ==> IsNumberWhite(post[i])
    requires |s| > 0 && !IsNumberWhite(s[|s| - 1])
    ensures TrimEnd(s + post) == s
    decreases |post|
  {
    if post != [] {
      assert (s + post)[..|s + post| - 1] == s + post[..|post| - 1];
      TrimEndSkips(s, post[..|post| - 1]);
    } else {
      assert s + post == s;
    }
  }

  /**
   * `char.ToUpperInvariant` restricted to ASCII: 'a'..'z' move to 'A'..'Z'
   * and every other character is kept. The invariant culture's other
   * mappings ('é' to 'É', 'ſ' to 'S', ...) are not part of this model.
   */
  function ToUpperChar(c: char): (u: char)
    ensures 'a' <= c <= 'z' ==> u as int == c as int - 32
    ensures !('a' <= c <= 'z') ==> u == c
    ensures !('a' <= u <= 'z')
  {
    if 'a' <= c <= 'z' then (c as int - 32) as char else c
  }

  /** `string.ToUpperInvariant()`, one character at a time through the ASCII-only `ToUpperChar`. */
  function ToUpper(s: string): (u: string)
    ensures |u| == |s|
    ensures forall i :: 0 <= i < |s| ==> u[i] == ToUpperChar(s[i])
  {
    if s == [] then [] else [ToUpperChar(s[0])] + ToUpper(s[1..])
  }

  /** Upper-casing twice is upper-casing once. */
  lemma {:induction false} ToUpperIdempotent(s: string)
    ensures ToUpper(ToUpper(s)) == ToUpper(s)
  {
    var u := ToUpper(s);
    assert forall i :: 0 <= i < |u| ==> ToUpperChar(u[i]) == u[i];
  }

  /** Upper-casing commutes with taking a prefix. */
  lemma {:induction false} ToUpperPrefix(s: string, n: nat)
    requires n <= |s|
    ensures ToUpper(s)[..n] == ToUpper(s[..n])
  {
  }
}
