/** The parts of the host's globalization and parsing library that the
    converters call: cultures (only their sign symbols), number styles (only
    the flags that `NumberStyles.Integer` combines), whitespace trimming,
    case-insensitive comparison, and the grammars of integer and boolean
    parsing, with the integer formatting they invert. */
module Globalization {
  import opened Runtime

  /** The number-format part of a CultureInfo that integer parsing reads. */
  datatype Culture = Culture(name: string, positiveSign: char, negativeSign: char)

  const InvariantCulture: Culture := Culture("", '+', '-')

  /** A culture whose sign symbols are two distinct characters that cannot be
      mistaken for a digit, whitespace or a letter. */
  predicate WellFormed(c: Culture) {
    && c.positiveSign != c.negativeSign
    && !IsDigit(c.positiveSign) && !IsWhite(c.positiveSign) && !IsAsciiLetter(c.positiveSign)
    && !IsDigit(c.negativeSign) && !IsWhite(c.negativeSign) && !IsAsciiLetter(c.negativeSign)
  }

  /** The three NumberStyles flags that make up `NumberStyles.Integer`. */
  datatype NumberStyles = NumberStyles(allowLeadingWhite: bool, allowTrailingWhite: bool, allowLeadingSign: bool)

  const Integer: NumberStyles := NumberStyles(true, true, true)
  const NoStyle: NumberStyles := NumberStyles(false, false, false)

  // ---------------------------------------------------------------- characters

  predicate IsWhite(c: char) {
    c == ' ' || '\t' <= c <= '\r'
  }

  predicate IsDigit(c: char) {
    '0' <= c <= '9'
  }

  predicate IsAsciiLetter(c: char) {
    'A' <= c <= 'Z' || 'a' <= c <= 'z'
  }

  function ToLower(c: char): (r: char)
    ensures IsAsciiLetter(c) <==> IsAsciiLetter(r)
    ensures 'a' <= r <= 'z' ==> r == c || r as int == c as int + 32
  {
    if 'A' <= c <= 'Z' then (c as int + 32) as char else c
  }

  function ToLowerString(s: string): (r: string)
    ensures |r| == |s|
    ensures forall i :: 0 <= i < |s| ==> r[i] == ToLower(s[i])
  {
    seq(|s|, i requires 0 <= i < |s| => ToLower(s[i]))
  }

  /** Case-insensitive equality, folding ASCII letters only. */
  predicate EqualsIgnoreCase(a: string, b: string) {
    ToLowerString(a) == ToLowerString(b)
  }

  // ---------------------------------------------------------------- trimming

  /** `string.TrimStart()`: the longest whitespace prefix removed. */
  function TrimStart(s: string): (r: string)
    ensures |r| <= |s| && r == s[|s| - |r|..]
    ensures forall k :: 0 <= k < |s| - |r| ==> IsWhite(s[k])
    ensures r == [] || !IsWhite(r[0])
  {
    if |s| > 0 && IsWhite(s[0]) then TrimStart(s[1..]) else s
  }

  /** `string.TrimEnd()`: the longest whitespace suffix removed. */
  function TrimEnd(s: string): (r: string)
    ensures |r| <= |s| && r == s[..|r|]
    ensures forall k :: |r| <= k < |s| ==> IsWhite(s[k])
    ensures r == [] || !IsWhite(r[|r| - 1])
  {
    if |s| > 0 && IsWhite(s[|s| - 1]) then TrimEnd(s[..|s| - 1]) else s
  }

  /** `string.Trim()`: the text is a run of whitespace, the result, and
      another run of whitespace, and the result neither starts nor ends with
      whitespace. */
  function Trim(s: string): (r: string)
    ensures exists i :: WhiteAround(s, i, r)
    ensures r == [] || (!IsWhite(r[0]) && !IsWhite(r[|r| - 1]))
  {
    var t := TrimStart(s);
    var r := TrimEnd(t);
    assert WhiteAround(s, |s| - |t|, r);
    r
  }

  /** `s` is `i` whitespace characters, then `r`, then only whitespace. */
  predicate WhiteAround(s: string, i: int, r: string) {
    && 0 <= i && i + |r| <= |s| && s[i..i + |r|] == r
    && (forall k :: 0 <= k < i ==> IsWhite(s[k]))
    && (forall k :: i + |r| <= k < |s| ==> IsWhite(s[k]))
  }

  // ---------------------------------------------------------------- digits

  predicate AllDigits(s: string) {
    forall i :: 0 <= i < |s| ==> IsDigit(s[i])
  }

  /** The value of a string of decimal digits, most significant first. */
  function DigitsValue(s: string): (v: nat)
    requires AllDigits(s)
  {
    if s == [] then 0 else DigitsValue(s[..|s| - 1]) * 10 + (s[|s| - 1] as int - '0' as int)
  }

  function DigitChar(d: nat): (c: char)
    requires d < 10
    ensures IsDigit(c)
  {
    ('0' as int + d) as char
  }

  /** The decimal digits of `n`, without leading zeros. */
  function DigitString(n: nat): (s: string)
    ensures |s| > 0 && AllDigits(s)
    ensures s[0] == '0' ==> n == 0
  {
    if n < 10 then [DigitChar(n)] else DigitString(n / 10) + [DigitChar(n % 10)]
  }

  /** A non-empty run of decimal digits and its value. */
  function ParseDigits(s: string): (r: Option<int>)
    ensures r.Some? <==> (|s| > 0 && AllDigits(s))
    ensures r.Some? ==> r.value >= 0
  {
    if |s| > 0 && AllDigits(s) then Some(DigitsValue(s)) else None
  }

  // ---------------------------------------------------------------- integers

  /** The integer grammar of the library's `TryParse(string, NumberStyles, IFormatProvider)`
      under the modelled flags: leading whitespace if allowed, the culture's
      positive or negative sign if allowed, one or more decimal digits, trailing
      whitespace if allowed, and nothing else. The value is not range-checked. */
  function ParseNumber(s: string, style: NumberStyles, c: Culture): (r: Option<int>)
    ensures r.Some? && r.value < 0 ==> style.allowLeadingSign
    ensures !style.allowLeadingSign ==> r == ParseDigits(StripWhite(s, style))
    ensures style == NoStyle ==> r == ParseDigits(s)
  {
    ParseSigned(StripWhite(s, style), style, c)
  }

  /** The text with the whitespace the style allows removed from its ends. */
  function StripWhite(s: string, style: NumberStyles): string
  {
    var a := if style.allowLeadingWhite then TrimStart(s) else s;
    if style.allowTrailingWhite then TrimEnd(a) else a
  }

  /** An optional sign (when the style allows one) followed by digits. The
      positive sign is matched first, as the library's number parser does. */
  function ParseSigned(b: string, style: NumberStyles, c: Culture): Option<int>
  {
    if style.allowLeadingSign && |b| > 0 && b[0] == c.positiveSign then
      ParseDigits(b[1..])
    else if style.allowLeadingSign && |b| > 0 && b[0] == c.negativeSign then
      match ParseDigits(b[1..])
      case Some(v) => Some(-v)
      case None => None
    else
      ParseDigits(b)
  }

  /** The text is non-null and spells, under the style and culture, a number
      in `lo..hi`. */
  predicate ParsesWithin(text: Option<string>, style: NumberStyles, c: Culture, lo: int, hi: int) {
    && text.Some?
    && ParseNumber(text.value, style, c).Some?
    && lo <= ParseNumber(text.value, style, c).value <= hi
  }

  /** When the culture's two signs are the same character, a leading sign
      reads as positive, because the positive sign is matched first. */
  lemma PositiveSignMatchedFirst(c: Culture, d: nat)
    requires c.positiveSign == c.negativeSign
    ensures ParseSigned([c.positiveSign] + DigitString(d), Integer, c) == Some(d)
  {
    DigitStringValue(d);
    assert ([c.positiveSign] + DigitString(d))[1..] == DigitString(d);
  }

  /** The range-checked `TryParse` of an integral type whose values are
      `lo..hi`: it succeeds exactly on non-null text that spells an in-range
      number, and returns that number. */
  function TryParseIntegral(text: Option<string>, style: NumberStyles, c: Culture, lo: int, hi: int): (r: Option<int>)
    ensures r.Some? <==> ParsesWithin(text, style, c, lo, hi)
    ensures r.Some? ==> lo <= r.value <= hi
    ensures r.Some? ==> text.Some? && ParseNumber(text.value, style, c) == r
  {
    if text.None? then None
    else match ParseNumber(text.value, style, c)
      case Some(v) => if lo <= v <= hi then Some(v) else None
      case None => None
  }

  /** `short.TryParse(text, out sh)`: Integer style, the thread's current
      culture; it succeeds exactly when the text spells a number in the short
      range, and returns that number. */
  function ParseShort(text: Option<string>, current: Culture): (r: Option<int>)
    ensures r.Some? <==> ParsesWithin(text, Integer, current, -32768, 32767)
    ensures r.Some? ==> text.Some? && ParseNumber(text.value, Integer, current) == r
    ensures r.Some? ==> -32768 <= r.value <= 32767
  {
    TryParseIntegral(text, Integer, current, -32768, 32767)
  }

  /** The library's `ToString(IFormatProvider)` of an integer: the culture's
      negative sign for a negative value, then the decimal digits. */
  function FormatInteger(n: int, c: Culture): (r: string)
    ensures n >= 0 ==> |r| > 0 && AllDigits(r) && (r[0] == '0' ==> n == 0)
    ensures n < 0 ==> |r| > 1 && r[0] == c.negativeSign && AllDigits(r[1..]) && r[1] != '0'
  {
    if n < 0 then [c.negativeSign] + DigitString(-n) else DigitString(n)
  }

  lemma {:induction false} DigitStringValue(n: nat)
    ensures |DigitString(n)| > 0 && AllDigits(DigitString(n))
    ensures DigitsValue(DigitString(n)) == n
  {
    if n >= 10 {
      DigitStringValue(n / 10);
      var p := DigitString(n / 10);
      var s := p + [DigitChar(n % 10)];
      assert s[..|s| - 1] == p;
    }
  }

  /** Parsing what FormatInteger printed gives back the number, under any
      style that admits a sign when the number is negative. */
  lemma ParseFormatRoundTrip(n: int, style: NumberStyles, c: Culture)
    requires WellFormed(c)
    requires n >= 0 || style.allowLeadingSign
    ensures ParseNumber(FormatInteger(n, c), style, c) == Some(n)
  {
    var s := FormatInteger(n, c);
    var m := if n < 0 then -n else n;
    DigitStringValue(m);
    var ds := DigitString(m);
    if n < 0 {
      assert s[1..] == ds;
      assert s[|s| - 1] == ds[|ds| - 1];
    }
    assert !IsWhite(s[0]) && !IsWhite(s[|s| - 1]);
    assert StripWhite(s, style) == s;
  }

  // ---------------------------------------------------------------- booleans

  /** `bool.TryParse`: it succeeds exactly when the trimmed text equals
      "True" or "False" ignoring case, with the value the word names. */
  function ParseBoolean(text: Option<string>): (r: Option<bool>)
    ensures r.Some? ==> text.Some? && EqualsIgnoreCase(Trim(text.value), if r.value then "True" else "False")
    ensures text.Some? && EqualsIgnoreCase(Trim(text.value), "True") ==> r == Some(true)
    ensures text.Some? && EqualsIgnoreCase(Trim(text.value), "False") ==> r == Some(false)
  {
    if text.None? then None
    else if EqualsIgnoreCase(Trim(text.value), "True") then Some(true)
    else if EqualsIgnoreCase(Trim(text.value), "False") then Some(false)
    else None
  }

  /** `bool.ToString()`. */
  function BooleanText(b: bool): (r: string)
    ensures ParseBoolean(Some(r)) == Some(b)
  {
    if b then CanonicalTrueParses(); "True" else CanonicalFalseParses(); "False"
  }

  lemma CanonicalTrueParses()
    ensures ParseBoolean(Some("True")) == Some(true)
  {
    assert TrimStart("True") == "True" && TrimEnd("True") == "True";
  }

  lemma CanonicalFalseParses()
    ensures ParseBoolean(Some("False")) == Some(false)
  {
    assert TrimStart("False") == "False" && TrimEnd("False") == "False";
    assert |ToLowerString("False")| != |ToLowerString("True")|;
  }
}
