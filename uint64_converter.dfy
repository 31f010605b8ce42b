/** The UInt64 converter (TypeConversion/UInt64Converter.cs): one range-checked
    `ulong.TryParse` under `NumberStyles.Integer` and the effective culture,
    else the base converter. Unlike the other integer converters it passes the
    literal `NumberStyles.Integer` to the parse, so the style its constructors
    store has no effect. The style and the culture override are set only by
    the constructors, so the converter is a value. */
module UInt64Conversion {
  import opened Runtime
  import opened Globalization
  import opened TypeConversion

  const MinValue: int := 0
  const MaxValue: int := 18446744073709551615

  /** `UsingNumberStyles` and `UsingCultureInfo` (null when absent). */
  datatype UInt64Converter = UInt64Converter(usingNumberStyles: NumberStyles, usingCultureInfo: Option<Culture>) {

    /** `UsingCultureInfo ?? culture`: the configured culture when there is
        one, else the culture of the call. */
    function EffectiveCulture(culture: Culture): (r: Culture)
      ensures usingCultureInfo.Some? ==> r == usingCultureInfo.value
      ensures usingCultureInfo.None? ==> r == culture
    {
      usingCultureInfo.GetOr(culture)
    }

    /** A conversion yields a ulong parsed from the text under
        `NumberStyles.Integer` (whatever style was configured) and the
        effective culture, or hands the text, with the effective culture, to
        the base converter. */
    function ConvertFromString(culture: Culture, text: Option<string>): (r: Conversion<int>)
      ensures r.Converted? <==> ParsesWithin(text, Integer, EffectiveCulture(culture), MinValue, MaxValue)
      ensures r.Converted? ==> MinValue <= r.value <= MaxValue
      ensures r.Converted? ==> text.Some? && ParseNumber(text.value, Integer, EffectiveCulture(culture)) == Some(r.value)
      ensures !r.Converted? ==> r == DelegatedToBase(EffectiveCulture(culture), text)
    {
      ConvertIntegral(text, Integer, EffectiveCulture(culture), MinValue, MaxValue)
    }

    /** The conversion as the other integer converters do it: the parse uses
        the configured style. */
    function ConvertFromStringWithConfiguredStyle(culture: Culture, text: Option<string>): (r: Conversion<int>)
      ensures r.Converted? <==> ParsesWithin(text, usingNumberStyles, EffectiveCulture(culture), MinValue, MaxValue)
      ensures r.Converted? ==> MinValue <= r.value <= MaxValue
      ensures r.Converted? ==> text.Some? && ParseNumber(text.value, usingNumberStyles, EffectiveCulture(culture)) == Some(r.value)
      ensures !r.Converted? ==> r == DelegatedToBase(EffectiveCulture(culture), text)
    {
      ConvertIntegral(text, usingNumberStyles, EffectiveCulture(culture), MinValue, MaxValue)
    }

    /** Only strings are accepted as a source. */
    function CanConvertFrom(sourceType: Option<TypeHandle>): (r: bool)
      ensures r <==> sourceType == Some(StringType)
    {
      sourceType == Some(StringType)
    }
  }

  /** `UInt64Converter()`. */
  function Default(): (r: UInt64Converter)
    ensures r.usingNumberStyles == Integer
    ensures forall culture :: r.EffectiveCulture(culture) == culture
  {
    UInt64Converter(Integer, None)
  }

  /** `UInt64Converter(NumberStyles)`. */
  function WithStyle(style: NumberStyles): (r: UInt64Converter)
    ensures r.usingNumberStyles == style
    ensures forall culture :: r.EffectiveCulture(culture) == culture
  {
    UInt64Converter(style, None)
  }

  /** `UInt64Converter(CultureInfo, NumberStyles)`. */
  function WithCultureAndStyle(culture: Culture, style: NumberStyles): (r: UInt64Converter)
    ensures r.usingNumberStyles == style
    ensures forall other :: r.EffectiveCulture(other) == culture
  {
    UInt64Converter(style, Some(culture))
  }

  /** `UInt64Converter(CultureInfo)`. */
  function WithCulture(culture: Culture): (r: UInt64Converter)
    ensures r.usingNumberStyles == Integer
    ensures forall other :: r.EffectiveCulture(other) == culture
  {
    UInt64Converter(Integer, Some(culture))
  }

  /** The default converter parses with `NumberStyles.Integer` in the culture of the call. */
  lemma DefaultUsesIntegerStyleAndCallCulture(culture: Culture, text: Option<string>)
    ensures Default().ConvertFromString(culture, text) == ConvertIntegral(text, Integer, culture, MinValue, MaxValue)
  {
  }

  /** The style given to a constructor is stored but never read: converters
      that differ only in their style convert every text alike. */
  lemma ConfiguredStyleIgnored(conv: UInt64Converter, style: NumberStyles, culture: Culture, text: Option<string>)
    ensures UInt64Converter(style, conv.usingCultureInfo).ConvertFromString(culture, text) == conv.ConvertFromString(culture, text)
    ensures WithStyle(style).ConvertFromString(culture, text) == ConvertIntegral(text, Integer, culture, MinValue, MaxValue)
  {
  }

  /** A converter configured with `NumberStyles.None` still accepts a number
      with leading whitespace. */
  lemma NoStyleStillAcceptsPadding(culture: Culture)
    requires WellFormed(culture)
    ensures WithStyle(NoStyle).ConvertFromString(culture, Some(" 7")) == Converted(7)
  {
    assert TrimStart(" 7") == "7";
    assert StripWhite(" 7", Integer) == "7";
    assert "7"[..0] == "";
    assert ParseDigits("7") == Some(7);
  }

  /** With the configured style honoured, a style given to a constructor is
      the style the parse uses, and `NumberStyles.None` rejects the padding. */
  lemma WithConfiguredStyleHonoursStyle(style: NumberStyles, culture: Culture, text: Option<string>)
    ensures WithStyle(style).ConvertFromStringWithConfiguredStyle(culture, text) == ConvertIntegral(text, style, culture, MinValue, MaxValue)
    ensures WithStyle(NoStyle).ConvertFromStringWithConfiguredStyle(culture, Some(" 7")) == DelegatedToBase(culture, Some(" 7"))
  {
    assert !IsDigit(" 7"[0]);
  }

  /** A culture given to a constructor replaces the culture of every call,
      in the parse and in the hand-off to the base converter. */
  lemma ConstructorCultureOverrides(own: Culture, style: NumberStyles, culture: Culture, text: Option<string>)
    ensures WithCultureAndStyle(own, style).ConvertFromString(culture, text) == ConvertIntegral(text, Integer, own, MinValue, MaxValue)
    ensures WithCulture(own).ConvertFromString(culture, text) == ConvertIntegral(text, Integer, own, MinValue, MaxValue)
  {
  }

  /** Every ulong value, printed in the effective culture, converts back to itself. */
  lemma RoundTrip(conv: UInt64Converter, culture: Culture, n: int)
    requires WellFormed(conv.EffectiveCulture(culture))
    requires MinValue <= n <= MaxValue
    ensures conv.ConvertFromString(culture, Some(FormatInteger(n, conv.EffectiveCulture(culture)))) == Converted(n)
  {
    ConvertIntegralRoundTrip(n, Integer, conv.EffectiveCulture(culture), MinValue, MaxValue);
  }

  /** A well-formed number outside the ulong range, negative ones included,
      goes to the base converter. */
  lemma OutOfRangeDelegates(conv: UInt64Converter, culture: Culture, n: int)
    requires WellFormed(conv.EffectiveCulture(culture))
    requires n < MinValue || MaxValue < n
    ensures var text := Some(FormatInteger(n, conv.EffectiveCulture(culture)));
            conv.ConvertFromString(culture, text) == DelegatedToBase(conv.EffectiveCulture(culture), text)
  {
    ConvertIntegralOutOfRange(n, Integer, conv.EffectiveCulture(culture), MinValue, MaxValue);
  }
}
