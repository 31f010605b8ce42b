/** What every converter's `ConvertFromString` can produce, and the one
    decision the four integer converters share: a range-checked parse under
    an effective style and culture, else the base converter. */
module TypeConversion {
  import opened Runtime
  import opened Globalization

  /** The outcome of `ConvertFromString`. `DelegatedToBase` stands for the call
      `base.ConvertFromString(culture, text)` of DefaultTypeConverter, which is
      not part of this model: it records the arguments the converter passed on. */
  datatype Conversion<+T> =
    | Converted(value: T)
    | DelegatedToBase(culture: Culture, text: Option<string>)
    | Threw(error: Exception)

  /** `if (T.TryParse(text, style, culture, out v)) return v; return base.ConvertFromString(culture, text);`
      for an integral type T whose values are `lo..hi`. */
  function ConvertIntegral(text: Option<string>, style: NumberStyles, culture: Culture, lo: int, hi: int): (r: Conversion<int>)
    ensures r.Converted? <==> ParsesWithin(text, style, culture, lo, hi)
    ensures r.Converted? ==> lo <= r.value <= hi
    ensures r.Converted? ==> text.Some? && ParseNumber(text.value, style, culture) == Some(r.value)
    ensures !r.Converted? ==> r == DelegatedToBase(culture, text)
  {
    match TryParseIntegral(text, style, culture, lo, hi)
    case Some(v) => Converted(v)
    case None => DelegatedToBase(culture, text)
  }

  /** The text a value of the type prints as, in the culture that parses it,
      converts back to that value. */
  lemma ConvertIntegralRoundTrip(n: int, style: NumberStyles, culture: Culture, lo: int, hi: int)
    requires WellFormed(culture)
    requires lo <= n <= hi
    requires n >= 0 || style.allowLeadingSign
    ensures ConvertIntegral(Some(FormatInteger(n, culture)), style, culture, lo, hi) == Converted(n)
  {
    ParseFormatRoundTrip(n, style, culture);
  }

  /** A well-formed number outside the type's range is not clipped or wrapped:
      it goes to the base converter unchanged. */
  lemma ConvertIntegralOutOfRange(n: int, style: NumberStyles, culture: Culture, lo: int, hi: int)
    requires WellFormed(culture)
    requires n < lo || hi < n
    requires n >= 0 || style.allowLeadingSign
    ensures ConvertIntegral(Some(FormatInteger(n, culture)), style, culture, lo, hi)
         == DelegatedToBase(culture, Some(FormatInteger(n, culture)))
  {
    ParseFormatRoundTrip(n, style, culture);
  }

  /** Text that no formatter prints still converts when the grammar reads it:
      surrounding whitespace, an explicit positive sign and leading zeros. */
  lemma PaddedSignedTextConverts(lo: int, hi: int)
    requires lo <= 7 <= hi
    ensures ConvertIntegral(Some(" +007 "), Integer, InvariantCulture, lo, hi) == Converted(7)
  {
    assert TrimStart(" +007 ") == "+007 ";
    assert TrimEnd("+007 ") == "+007";
    assert "+007"[1..] == "007";
    assert DigitsValue("007") == 7 by {
      assert "007"[..2] == "00" && "00"[..1] == "0" && "0"[..0] == [];
    }
  }
}
