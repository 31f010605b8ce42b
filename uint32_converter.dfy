/** The UInt32 converter (TypeConversion/UInt32Converter.cs): one range-checked
    `uint.TryParse` under the configured style and the effective culture,
    else the base converter. The style and the culture override are set only
    by the constructors, so the converter is a value. */
module UInt32Conversion {
  import opened Runtime
  import opened Globalization
  import opened TypeConversion

  const MinValue: int := 0
  const MaxValue: int := 4294967295

  /** `UsingNumberStyles` and `UsingCultureInfo` (null when absent). */
  datatype UInt32Converter = UInt32Converter(usingNumberStyles: NumberStyles, usingCultureInfo: Option<Culture>) {

    /** `UsingCultureInfo ?? culture`: the configured culture when there is
        one, else the culture of the call. */
    function EffectiveCulture(culture: Culture): (r: Culture)
      ensures usingCultureInfo.Some? ==> r == usingCultureInfo.value
      ensures usingCultureInfo.None? ==> r == culture
    {
      usingCultureInfo.GetOr(culture)
    }

    /** A conversion yields a uint parsed from the text under the configured
        style and effective culture, or hands the text, with the effective
        culture, to the base converter. */
    function ConvertFromString(culture: Culture, text: Option<string>): (r: Conversion<int>)
      ensures r.Converted? <==> ParsesWithin(text, usingNumberStyles, EffectiveCulture(culture), MinValue, MaxValue)
      ensures r.Converted? ==> MinValue <= r.value <= MaxValue
      ensures r.Converted? ==> text.Some? && ParseNumber(text.value, usingNumberStyles, EffectiveCulture(culture)) == Some(r.value)
      ensures !r.Converted? ==> r == DelegatedToBase(EffectiveCulture(culture), text)
    {
      ConvertIntegral(text, usingNumberStyles, EffectiveCulture(culture), MinValue, MaxValue)
    }

    /** Only strings are accepted as a source. */
    function CanConvertFrom(sourceType: Option<TypeHandle>): (r: bool)
      ensures r <==> sourceType == Some(StringType)
    {
      sourceType == Some(StringType)
    }
  }

  /** `UInt32Converter()`. */
  function Default(): (r: UInt32Converter)
    ensures r.usingNumberStyles == Integer
    ensures forall culture :: r.EffectiveCulture(culture) == culture
  {
    UInt32Converter(Integer, None)
  }

  /** `UInt32Converter(NumberStyles)`. */
  function WithStyle(style: NumberStyles): (r: UInt32Converter)
    ensures r.usingNumberStyles == style
    ensures forall culture :: r.EffectiveCulture(culture) == culture
  {
    UInt32Converter(style, None)
  }

  /** `UInt32Converter(CultureInfo, NumberStyles)`. */
  function WithCultureAndStyle(culture: Culture, style: NumberStyles): (r: UInt32Converter)
    ensures r.usingNumberStyles == style
    ensures forall other :: r.EffectiveCulture(other) == culture
  {
    UInt32Converter(style, Some(culture))
  }

  /** `UInt32Converter(CultureInfo)`. */
  function WithCulture(culture: Culture): (r: UInt32Converter)
    ensures r.usingNumberStyles == Integer
    ensures forall other :: r.EffectiveCulture(other) == culture
  {
    UInt32Converter(Integer, Some(culture))
  }

  /** The default converter parses with `NumberStyles.Integer` in the culture of the call. */
  lemma DefaultUsesIntegerStyleAndCallCulture(culture: Culture, text: Option<string>)
    ensures Default().ConvertFromString(culture, text) == ConvertIntegral(text, Integer, culture, MinValue, MaxValue)
  {
  }

  /** A style given to a constructor is the style the parse uses; without a
      culture argument the culture of the call is used. */
  lemma ConstructorStyleIsUsed(style: NumberStyles, culture: Culture, text: Option<string>)
    ensures WithStyle(style).ConvertFromString(culture, text) == ConvertIntegral(text, style, culture, MinValue, MaxValue)
  {
  }

  /** A culture given to a constructor replaces the culture of every call,
      in the parse and in the hand-off to the base converter. */
  lemma ConstructorCultureOverrides(own: Culture, style: NumberStyles, culture: Culture, text: Option<string>)
    ensures WithCultureAndStyle(own, style).ConvertFromString(culture, text) == ConvertIntegral(text, style, own, MinValue, MaxValue)
    ensures WithCulture(own).ConvertFromString(culture, text) == ConvertIntegral(text, Integer, own, MinValue, MaxValue)
  {
  }

  /** Every uint value, printed in the effective culture, converts back to itself. */
  lemma RoundTrip(conv: UInt32Converter, culture: Culture, n: int)
    requires WellFormed(conv.EffectiveCulture(culture))
    requires MinValue <= n <= MaxValue
    requires n >= 0 || conv.usingNumberStyles.allowLeadingSign
    ensures conv.ConvertFromString(culture, Some(FormatInteger(n, conv.EffectiveCulture(culture)))) == Converted(n)
  {
    ConvertIntegralRoundTrip(n, conv.usingNumberStyles, conv.EffectiveCulture(culture), MinValue, MaxValue);
  }

  /** A well-formed number outside the uint range goes to the base converter. */
  lemma OutOfRangeDelegates(conv: UInt32Converter, culture: Culture, n: int)
    requires WellFormed(conv.EffectiveCulture(culture))
    requires n < MinValue || MaxValue < n
    requires n >= 0 || conv.usingNumberStyles.allowLeadingSign
    ensures var text := Some(FormatInteger(n, conv.EffectiveCulture(culture)));
            conv.ConvertFromString(culture, text) == DelegatedToBase(conv.EffectiveCulture(culture), text)
  {
    ConvertIntegralOutOfRange(n, conv.usingNumberStyles, conv.EffectiveCulture(culture), MinValue, MaxValue);
  }
}
