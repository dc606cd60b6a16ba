/**
 * The JavaScript string built-ins the components call, restricted to what
 * their inputs can hold: `trim`, `toLowerCase` (ASCII letters), `includes`,
 * `parseInt` and `parseFloat` on decimal text, and `String(n)` for integers.
 */
module JsText {
  import opened Wrappers

  /** The characters `trim` removes: ECMAScript WhiteSpace and LineTerminator code points. */
  predicate IsJsWhiteSpace(c: char) {
    || c in {'\t', '\U{000B}', '\U{000C}', ' ', '\U{00A0}', '\U{FEFF}', '\U{1680}',
             '\U{202F}', '\U{205F}', '\U{3000}', '\n', '\r', '\U{2028}', '\U{2029}'}
    || '\U{2000}' <= c <= '\U{200A}'
  }

  /** `s.trimStart()` */
  function TrimStart(s: string): (r: string)
    ensures |r| <= |s| && r == s[|s| - |r|..]
    ensures r == [] || !IsJsWhiteSpace(r[0])
    decreases |s|
  {
    if |s| > 0 && IsJsWhiteSpace(s[0]) then TrimStart(s[1..]) else s
  }

  /** `s.trimEnd()` */
  function TrimEnd(s: string): (r: string)
    ensures |r| <= |s| && r == s[..|r|]
    ensures r == [] || !IsJsWhiteSpace(r[|r| - 1])
    decreases |s|
  {
    if |s| > 0 && IsJsWhiteSpace(s[|s| - 1]) then TrimEnd(s[..|s| - 1]) else s
  }

  /** `s.trim()` */
  function Trim(s: string): string {
    TrimEnd(TrimStart(s))
  }

  /** `!s.trim()`: the trimmed text is the empty, falsy string. */
  predicate IsBlank(s: string) {
    Trim(s) == ""
  }

  lemma {:induction false} TrimStartEmptyIff(s: string)
    ensures TrimStart(s) == [] <==> forall i :: 0 <= i < |s| ==> IsJsWhiteSpace(s[i])
    decreases |s|
  {
    if |s| > 0 && IsJsWhiteSpace(s[0]) {
      TrimStartEmptyIff(s[1..]);
      assert forall i :: 1 <= i < |s| ==> s[i] == s[1..][i - 1];
    }
  }

  lemma {:induction false} TrimEndNonEmpty(s: string)
    requires |s| > 0 && !IsJsWhiteSpace(s[0])
    ensures TrimEnd(s) != []
    decreases |s|
  {
    if IsJsWhiteSpace(s[|s| - 1]) {
      TrimEndNonEmpty(s[..|s| - 1]);
    }
  }

  /** A string is blank exactly when every one of its characters is white space. */
  lemma BlankIffAllWhiteSpace(s: string)
    ensures IsBlank(s) <==> forall i :: 0 <= i < |s| ==> IsJsWhiteSpace(s[i])
  {
    TrimStartEmptyIff(s);
    var t := TrimStart(s);
    if t != [] {
      TrimEndNonEmpty(t);
    }
  }

  /** `c.toLowerCase()` for the ASCII letters; every other character is left as it is. */
  function LowerChar(c: char): char {
    if 'A' <= c <= 'Z' then (c as int + 32) as char else c
  }

  /** `s.toLowerCase()`, character by character. */
  function ToLowerCase(s: string): (r: string)
    ensures |r| == |s|
    ensures forall i :: 0 <= i < |s| ==> r[i] == LowerChar(s[i])
  {
    seq(|s|, i requires 0 <= i < |s| => LowerChar(s[i]))
  }

  /** `s.includes(part)`: `part` occurs somewhere in `s` as a contiguous piece. */
  predicate Includes(s: string, part: string) {
    exists i | 0 <= i <= |s| - |part| :: OccursAt(s, part, i)
  }

  /** `part` is the piece of `s` that starts at position `i`. */
  predicate OccursAt(s: string, part: string, i: int) {
    0 <= i <= |s| - |part| && s[i..i + |part|] == part
  }

  predicate IsDigit(c: char) {
    '0' <= c <= '9'
  }

  predicate AllDigits(s: string) {
    forall i :: 0 <= i < |s| ==> IsDigit(s[i])
  }

  /** The longest prefix of `s` made of decimal digits. */
  function LeadingDigits(s: string): (r: string)
    ensures |r| <= |s| && r == s[..|r|]
    ensures AllDigits(r)
    ensures |r| == |s| || !IsDigit(s[|r|])
    decreases |s|
  {
    if |s| > 0 && IsDigit(s[0]) then [s[0]] + LeadingDigits(s[1..]) else []
  }

  /** The number a string of decimal digits spells, most significant digit first. */
  function DecimalValue(ds: string): (n: nat)
    requires AllDigits(ds)
    decreases |ds|
  {
    if |ds| == 0 then 0
    else DecimalValue(ds[..|ds| - 1]) * 10 + (ds[|ds| - 1] as int - '0' as int)
  }

  function Pow10(k: nat): (p: nat)
    ensures p >= 1
  {
    if k == 0 then 1 else 10 * Pow10(k - 1)
  }

  /** Splits an optional leading `-` or `+` off `t`, as both parsers do after skipping white space. */
  function SplitSign(t: string): (bool, string) {
    if |t| > 0 && t[0] == '-' then (true, t[1..])
    else if |t| > 0 && t[0] == '+' then (false, t[1..])
    else (false, t)
  }

  /**
   * `parseInt(s)` with no radix, on decimal text: skip white space, an optional
   * sign, then as many digits as follow; `NaN` (None) when there are none.
   */
  function ParseInt(s: string): (r: Option<int>)
    ensures r.Some? <==> LeadingDigits(SplitSign(TrimStart(s)).1) != []
  {
    var (negative, rest) := SplitSign(TrimStart(s));
    var ds := LeadingDigits(rest);
    if ds == [] then None
    else if negative then Some(-(DecimalValue(ds) as int))
    else Some(DecimalValue(ds))
  }

  /** Digits, then an optional `.` and more digits: the unsigned number `parseFloat` reads, if any. */
  function DecimalMagnitude(t: string): (r: Option<real>)
    ensures r.Some? <==> LeadingDigits(t) != [] || (|t| > 0 && t[0] == '.' && LeadingDigits(t[1..]) != [])
  {
    var whole := LeadingDigits(t);
    var after := t[|whole|..];
    var frac := if |after| > 0 && after[0] == '.' then LeadingDigits(after[1..]) else [];
    if whole == [] && frac == [] then None
    else Some(DecimalValue(whole) as real + DecimalValue(frac) as real / Pow10(|frac|) as real)
  }

  /**
   * `parseFloat(s)` on decimal text: skip white space, an optional sign, digits,
   * then an optional `.` and more digits; `NaN` (None) when no digit is read.
   */
  function ParseFloat(s: string): (r: Option<real>)
  {
    var (negative, rest) := SplitSign(TrimStart(s));
    match DecimalMagnitude(rest)
    case None => None
    case Some(v) => if negative then Some(-v) else Some(v)
  }

  function DigitChar(d: nat): (c: char)
    requires d < 10
    ensures IsDigit(c) && c as int - '0' as int == d
  {
    ('0' as int + d) as char
  }

  /** `String(n)` for a natural number: its decimal digits without leading zeros. */
  function NatToString(n: nat): (s: string)
    ensures |s| > 0 && AllDigits(s)
  {
    if n < 10 then [DigitChar(n)] else NatToString(n / 10) + [DigitChar(n % 10)]
  }

  /** `String(n)` for an integer. */
  function IntToString(n: int): string {
    if n < 0 then "-" + NatToString(-n) else NatToString(n)
  }

  lemma {:induction false} DecimalValueOfNatToString(n: nat)
    ensures DecimalValue(NatToString(n)) == n
  {
    var s := NatToString(n);
    if n >= 10 {
      DecimalValueOfNatToString(n / 10);
      assert s[..|s| - 1] == NatToString(n / 10);
    }
  }

  lemma {:induction false} LeadingDigitsOfDigits(s: string)
    requires AllDigits(s)
    ensures LeadingDigits(s) == s
    decreases |s|
  {
    if |s| > 0 {
      LeadingDigitsOfDigits(s[1..]);
    }
  }

  /** The text `String(n)` produces starts with a sign or a digit and carries the digits of `|n|`. */
  lemma IntToStringShape(n: int)
    ensures TrimStart(IntToString(n)) == IntToString(n)
    ensures SplitSign(IntToString(n)).0 == (n < 0)
    ensures SplitSign(IntToString(n)).1 == NatToString(if n < 0 then -n else n)
  {
    var text := IntToString(n);
    var digits := NatToString(if n < 0 then -n else n);
    assert IsDigit(digits[0]);
    assert text[0] == (if n < 0 then '-' else digits[0]);
    assert !IsJsWhiteSpace(text[0]);
    if n < 0 {
      assert text[1..] == digits;
    }
  }

  /** Reading back the text `String(n)` produces gives `n`. */
  lemma ParseIntOfIntToString(n: int)
    ensures ParseInt(IntToString(n)) == Some(n)
  {
    var m: nat := if n < 0 then -n else n;
    DecimalValueOfNatToString(m);
    LeadingDigitsOfDigits(NatToString(m));
    IntToStringShape(n);
  }

  lemma DecimalMagnitudeOfDigits(ds: string)
    requires |ds| > 0 && AllDigits(ds)
    ensures DecimalMagnitude(ds) == Some(DecimalValue(ds) as real)
  {
    LeadingDigitsOfDigits(ds);
    var after := ds[|ds|..];
    assert after == [];
    var empty: string := [];
    assert DecimalValue(empty) == 0 && Pow10(|empty|) == 1;
    assert DecimalValue(empty) as real / Pow10(|empty|) as real == 0.0;
  }

  /** `parseFloat` reads the text of an integer as that integer. */
  lemma ParseFloatOfIntToString(n: int)
    ensures ParseFloat(IntToString(n)) == Some(n as real)
  {
    var m: nat := if n < 0 then -n else n;
    DecimalValueOfNatToString(m);
    IntToStringShape(n);
    DecimalMagnitudeOfDigits(NatToString(m));
  }
}
