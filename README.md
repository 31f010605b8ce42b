# CsvHelper type conversion and class-map configuration, in Dafny

This project models two parts of CsvHelper, the CSV library that turns CSV
fields into typed objects.

- **Type conversion decisions.** `BooleanConverter` turns a field's text into a
  boolean through a fixed chain: the canonical `True`/`False` parse, then the
  shorts 0 and 1, then trimmed, case-insensitive lookups in a configurable
  true-alias list and then a false-alias list, then the base converter. The
  `SByte`, `Int64`, `UInt32` and `UInt64` converters each try one range-checked
  integer parse under an effective number style and culture. If that parse
  fails, they hand the text to the base converter.
- **Class-map configuration objects.**
  - `CsvClassMap` holds property maps, reference maps and a constructor slot.
  - `CsvPropertyReferenceMap` binds a property to a nested class map that it
    creates. Its constructor is guarded by a strict-subclass check.
    `IsCollectionOf` marks the reference as a collection.
  - `TypeConverterAttribute` names a converter type (checked) or a converter
    instance (unchecked).

The converters and the attribute are written as values (datatypes and
functions), because their constructors are the only code that assigns their
configuration fields. The
class maps and reference maps are classes whose methods change their fields in
place.

The host library is modelled as specification functions in `Globalization`:

- `TryParse` for integers: optional whitespace, optional culture sign, decimal
  digits, a range check.
- `bool.TryParse`, `string.Trim` and case-insensitive comparison.
- Integer `ToString`, which the parse inverts.

Reflection becomes a given `TypeHierarchy` relation in `Runtime`. The base
`DefaultTypeConverter.ConvertFromString` is an opaque outcome,
`DelegatedToBase(culture, text)`, which records what was handed on. C# `null`
is `None` wherever the code's behaviour depends on it, except the culture (see
Left out).

Behaviour of the code worth noting:

- The boolean converter's 0/1 rule is a `short.TryParse`, so " +01 " also
  converts to true.
- That `short.TryParse` reads the thread's current culture, not the culture
  passed to the call. The model takes it as the parameter `current`.
- `UInt64Converter` ignores the number style that its constructors store (see
  Findings).

## Model

| member | source | states |
|---|---|---|
| `Globalization.Trim` | src/CsvHelper/TypeConversion/BooleanConverter.cs:81 | the text is a whitespace run, the result, and another whitespace run, and the result neither starts nor ends with whitespace, so exactly the surrounding whitespace is removed |
| `Globalization.ParseBoolean` | src/CsvHelper/TypeConversion/BooleanConverter.cs:62-63 | a canonical parse succeeds exactly when the trimmed text equals "True" or "False" ignoring case, and gives the value that word names |
| `Globalization.BooleanText` | src/CsvHelper/TypeConversion/BooleanConverter.cs:62-63 | the text `bool.ToString()` prints parses back to the same boolean |
| `Globalization.ParseShort` | src/CsvHelper/TypeConversion/BooleanConverter.cs:68-69 | a short parse succeeds exactly when the text spells, under `NumberStyles.Integer` and the current culture, a number in [-32768, 32767], and yields that number |
| `Globalization.TryParseIntegral` | src/CsvHelper/TypeConversion/SByteConverter.cs:63-64 | a range-checked parse succeeds exactly when the text is non-null and spells a number inside the target range under the style and culture, and yields that number |
| `Globalization.ParseNumber` | src/CsvHelper/TypeConversion/SByteConverter.cs:64 | the integer grammar: a negative result needs a style that admits a sign; without a sign it is the digits of the text stripped of the whitespace the style allows; with no style flags at all it is the digits of the text as given |
| `Globalization.FormatInteger` | src/CsvHelper/TypeConversion/Int64Converter.cs:64 | the printed form of a non-negative integer is decimal digits without a leading zero (except 0 itself); a negative one is the culture's negative sign followed by such digits |
| `Globalization.ParseFormatRoundTrip` | src/CsvHelper/TypeConversion/Int64Converter.cs:63-66 | parsing the culture's printed form of any integer gives that integer back, under every style that admits a sign when the integer is negative |
| `Globalization.PositiveSignMatchedFirst` | src/CsvHelper/TypeConversion/SByteConverter.cs:63-64 | when a culture's positive and negative signs are the same character, a signed number reads as positive, because the parser matches the positive sign first |
| `TypeConversion.ConvertIntegral` | src/CsvHelper/TypeConversion/Int64Converter.cs:61-70 | the shared integer conversion converts exactly when the text spells an in-range number, and then yields that number; otherwise it hands the untouched text with the given culture to the base converter |
| `TypeConversion.ConvertIntegralRoundTrip` | src/CsvHelper/TypeConversion/UInt32Converter.cs:63-66 | every in-range integer, printed in the parsing culture, converts back to itself |
| `TypeConversion.ConvertIntegralOutOfRange` | src/CsvHelper/TypeConversion/UInt32Converter.cs:64-69 | a well-formed number outside the range is neither clipped nor wrapped; it goes to the base converter |
| `TypeConversion.PaddedSignedTextConverts` | src/CsvHelper/TypeConversion/Int64Converter.cs:63-66 | " +007 " converts to 7 under `NumberStyles.Integer`: whitespace, an explicit positive sign and leading zeros are accepted, not only printed forms |
| `BooleanConversion.BooleanConverter.LookupAliases` | src/CsvHelper/TypeConversion/BooleanConverter.cs:82-90 | the lookup answers true exactly when a true alias matches; it answers false exactly when no true alias matches and a false alias does; the true list must be non-null for either answer and the false list only for the false answer, so a null false list does not stop a true alias from matching |
| `BooleanConversion.BooleanConverter.ConvertFromString` | src/CsvHelper/TypeConversion/BooleanConverter.cs:60-93 | each boolean produced is backed by the canonical parse, the short 0/1, or an alias of the same value; the base converter gets the call's culture and the original text; the only exception is the null-list dereference |
| `BooleanConversion.BooleanConverter.CanConvertFrom` | src/CsvHelper/TypeConversion/BooleanConverter.cs:102-106 | holds exactly for the string type |
| `BooleanConversion.MatchesAlias` | src/CsvHelper/TypeConversion/BooleanConverter.cs:82 | a text equal to a list entry matches it, and an empty list matches nothing (ASCII case folding; see Left out) |
| `BooleanConversion.Default` | src/CsvHelper/TypeConversion/BooleanConverter.cs:40-44 | the default converter's true aliases are "yes", "y" and its false aliases "no", "n" |
| `BooleanConversion.Custom` | src/CsvHelper/TypeConversion/BooleanConverter.cs:48-52 | the caller's lists are stored as given, null ones included |
| `BooleanConversion.CanonicalTakesPrecedence` | src/CsvHelper/TypeConversion/BooleanConverter.cs:62-66 | a canonical boolean text converts to its value whatever the alias lists contain |
| `BooleanConversion.CanonicalRoundTrip` | src/CsvHelper/TypeConversion/BooleanConverter.cs:62-66 | "True" and "False", as printed by `bool.ToString`, convert back to their value under every converter |
| `BooleanConversion.ShortZeroAndOne` | src/CsvHelper/TypeConversion/BooleanConverter.cs:68-79 | a non-canonical text whose short value is 0 gives false, and one whose short value is 1 gives true, before any alias is consulted |
| `BooleanConversion.ZeroAndOneText` | src/CsvHelper/TypeConversion/BooleanConverter.cs:68-79 | "0" converts to false and "1" to true under every converter |
| `BooleanConversion.OtherShortFallsThrough` | src/CsvHelper/TypeConversion/BooleanConverter.cs:68-82 | a short value other than 0 and 1 falls through, and the alias lookup on the trimmed text decides |
| `BooleanConversion.ShortTwoAsAlias` | src/CsvHelper/TypeConversion/BooleanConverter.cs:68-85 | with "2" as a true alias, the text "2" converts to true although it parses as a short |
| `BooleanConversion.AliasesDecide` | src/CsvHelper/TypeConversion/BooleanConverter.cs:81-92 | once the canonical and 0/1 rules do not apply, the result is the alias lookup's verdict on the trimmed text |
| `BooleanConversion.TrueAliasesFirst` | src/CsvHelper/TypeConversion/BooleanConverter.cs:82-90 | a token in both alias lists converts to true |
| `BooleanConversion.LookupIgnoresCase` | src/CsvHelper/TypeConversion/BooleanConverter.cs:82-87 | two texts that differ only in letter case get the same lookup verdict |
| `BooleanConversion.NullTextLooksUpEmpty` | src/CsvHelper/TypeConversion/BooleanConverter.cs:81 | null text skips the canonical and short rules and is looked up as the empty string; if nothing matches, the base converter still gets null |
| `BooleanConversion.DelegatesExactlyWhenNoRuleApplies` | src/CsvHelper/TypeConversion/BooleanConverter.cs:62-92 | the base converter is reached if and only if no rule applies and both lists are non-null |
| `BooleanConversion.DefaultTrueAliases` | src/CsvHelper/TypeConversion/BooleanConverter.cs:40-43 | with the default converter, "yes" and "y" in any case and with any surrounding whitespace convert to true |
| `BooleanConversion.DefaultFalseAliases` | src/CsvHelper/TypeConversion/BooleanConverter.cs:40-43 | with the default converter, "no" and "n" in any case and with any surrounding whitespace convert to false |
| `BooleanConversion.CustomTrueAlias` | src/CsvHelper/TypeConversion/BooleanConverter.cs:48-52 | a list given to the customizable constructor is the one used: any trimmed token of it that no earlier rule claims converts to true |
| `BooleanConversion.CustomFalseAlias` | src/CsvHelper/TypeConversion/BooleanConverter.cs:48-52 | a token that is only in the custom false list converts to false |
| `BooleanConversion.NullTrueListThrows` | src/CsvHelper/TypeConversion/BooleanConverter.cs:48-52 | a null true list, which the constructor accepts unchecked, makes every text that reaches the lookup throw |
| `SByteConversion.SByteConverter.ConvertFromString` | src/CsvHelper/TypeConversion/SByteConverter.cs:61-70 | a conversion succeeds exactly when the text spells a number in [-128, 127] under the configured style and effective culture, and yields that number; otherwise it hands the text with the effective culture to the base converter |
| `SByteConversion.SByteConverter.CanConvertFrom` | src/CsvHelper/TypeConversion/SByteConverter.cs:79-83 | holds exactly for the string type |
| `SByteConversion.SByteConverter.EffectiveCulture` | src/CsvHelper/TypeConversion/SByteConverter.cs:64 | `UsingCultureInfo ?? culture`: the configured culture when there is one, else the call's |
| `SByteConversion.Default` | src/CsvHelper/TypeConversion/SByteConverter.cs:20-28 | the parameterless constructor keeps the field initialiser's `NumberStyles.Integer` and no culture, so every call's culture is used |
| `SByteConversion.WithStyle` | src/CsvHelper/TypeConversion/SByteConverter.cs:33-36 | the style constructor stores the given style and no culture |
| `SByteConversion.WithCultureAndStyle` | src/CsvHelper/TypeConversion/SByteConverter.cs:41-45 | the culture-and-style constructor stores both, so its culture replaces every call's |
| `SByteConversion.WithCulture` | src/CsvHelper/TypeConversion/SByteConverter.cs:50-53 | the culture constructor stores the culture and keeps `NumberStyles.Integer` |
| `SByteConversion.DefaultUsesIntegerStyleAndCallCulture` | src/CsvHelper/TypeConversion/SByteConverter.cs:20-28 | the default converter parses with NumberStyles.Integer in the call's culture |
| `SByteConversion.ConstructorStyleIsUsed` | src/CsvHelper/TypeConversion/SByteConverter.cs:33-36 | the style given to the constructor is the style the parse uses |
| `SByteConversion.ConstructorCultureOverrides` | src/CsvHelper/TypeConversion/SByteConverter.cs:41-53 | a constructor culture replaces the call's culture in the parse and in the fallback |
| `SByteConversion.RoundTrip` | src/CsvHelper/TypeConversion/SByteConverter.cs:63-66 | every sbyte, printed in the effective culture, converts back to itself (negative ones when the style allows a sign) |
| `SByteConversion.OutOfRangeDelegates` | src/CsvHelper/TypeConversion/SByteConverter.cs:64-69 | a number outside [-128, 127] goes to the base converter with the effective culture |
| `Int64Conversion.Int64Converter.ConvertFromString` | src/CsvHelper/TypeConversion/Int64Converter.cs:61-70 | a conversion succeeds exactly when the text spells a number in [-2^63, 2^63-1] under the configured style and effective culture, and yields that number; otherwise it hands the text with `UsingCultureInfo ?? culture` to the base converter |
| `Int64Conversion.Int64Converter.CanConvertFrom` | src/CsvHelper/TypeConversion/Int64Converter.cs:79-83 | holds exactly for the string type |
| `Int64Conversion.Int64Converter.EffectiveCulture` | src/CsvHelper/TypeConversion/Int64Converter.cs:64 | `UsingCultureInfo ?? culture`: the configured culture when there is one, else the call's |
| `Int64Conversion.Default` | src/CsvHelper/TypeConversion/Int64Converter.cs:20-28 | the parameterless constructor keeps the field initialiser's `NumberStyles.Integer` and no culture, so every call's culture is used |
| `Int64Conversion.WithStyle` | src/CsvHelper/TypeConversion/Int64Converter.cs:33-36 | the style constructor stores the given style and no culture |
| `Int64Conversion.WithCultureAndStyle` | src/CsvHelper/TypeConversion/Int64Converter.cs:41-45 | the culture-and-style constructor stores both, so its culture replaces every call's |
| `Int64Conversion.WithCulture` | src/CsvHelper/TypeConversion/Int64Converter.cs:50-53 | the culture constructor stores the culture and keeps `NumberStyles.Integer` |
| `Int64Conversion.DefaultUsesIntegerStyleAndCallCulture` | src/CsvHelper/TypeConversion/Int64Converter.cs:20-28 | the default converter parses with NumberStyles.Integer in the call's culture |
| `Int64Conversion.ConstructorStyleIsUsed` | src/CsvHelper/TypeConversion/Int64Converter.cs:33-36 | the style given to the constructor is the style the parse uses |
| `Int64Conversion.ConstructorCultureOverrides` | src/CsvHelper/TypeConversion/Int64Converter.cs:41-53 | a constructor culture and style are the ones the parse and the fallback use |
| `Int64Conversion.RoundTrip` | src/CsvHelper/TypeConversion/Int64Converter.cs:63-66 | every long, printed in the effective culture, converts back to itself |
| `Int64Conversion.OutOfRangeDelegates` | src/CsvHelper/TypeConversion/Int64Converter.cs:64-69 | a number outside the long range goes to the base converter with the effective culture |
| `UInt32Conversion.UInt32Converter.ConvertFromString` | src/CsvHelper/TypeConversion/UInt32Converter.cs:61-70 | a conversion succeeds exactly when the text spells a number in [0, 2^32-1] under the configured style and effective culture, and yields that number; otherwise it hands the text with the effective culture to the base converter |
| `UInt32Conversion.UInt32Converter.CanConvertFrom` | src/CsvHelper/TypeConversion/UInt32Converter.cs:79-83 | holds exactly for the string type |
| `UInt32Conversion.UInt32Converter.EffectiveCulture` | src/CsvHelper/TypeConversion/UInt32Converter.cs:64 | `UsingCultureInfo ?? culture`: the configured culture when there is one, else the call's |
| `UInt32Conversion.Default` | src/CsvHelper/TypeConversion/UInt32Converter.cs:20-28 | the parameterless constructor keeps the field initialiser's `NumberStyles.Integer` and no culture, so every call's culture is used |
| `UInt32Conversion.WithStyle` | src/CsvHelper/TypeConversion/UInt32Converter.cs:33-36 | the style constructor stores the given style and no culture |
| `UInt32Conversion.WithCultureAndStyle` | src/CsvHelper/TypeConversion/UInt32Converter.cs:41-45 | the culture-and-style constructor stores both, so its culture replaces every call's |
| `UInt32Conversion.WithCulture` | src/CsvHelper/TypeConversion/UInt32Converter.cs:50-53 | the culture constructor stores the culture and keeps `NumberStyles.Integer` |
| `UInt32Conversion.DefaultUsesIntegerStyleAndCallCulture` | src/CsvHelper/TypeConversion/UInt32Converter.cs:20-28 | the default converter parses with NumberStyles.Integer in the call's culture |
| `UInt32Conversion.ConstructorStyleIsUsed` | src/CsvHelper/TypeConversion/UInt32Converter.cs:33-36 | the style given to the constructor is the style the parse uses |
| `UInt32Conversion.ConstructorCultureOverrides` | src/CsvHelper/TypeConversion/UInt32Converter.cs:41-53 | a constructor culture and style are the ones the parse and the fallback use |
| `UInt32Conversion.RoundTrip` | src/CsvHelper/TypeConversion/UInt32Converter.cs:63-66 | every uint, printed in the effective culture, converts back to itself |
| `UInt32Conversion.OutOfRangeDelegates` | src/CsvHelper/TypeConversion/UInt32Converter.cs:64-69 | a number outside [0, 2^32-1] goes to the base converter, negative numbers included |
| `UInt64Conversion.UInt64Converter.ConvertFromString` | src/CsvHelper/TypeConversion/UInt64Converter.cs:61-70 | a conversion succeeds exactly when the text spells a number in [0, 2^64-1] under NumberStyles.Integer and the effective culture, and yields that number; otherwise it hands the text with the effective culture to the base converter |
| `UInt64Conversion.UInt64Converter.ConvertFromStringWithConfiguredStyle` | src/CsvHelper/TypeConversion/UInt64Converter.cs:33-45 | the conversion as the sibling converters do it (corrected definition, see Findings): it succeeds exactly when the text spells a number in [0, 2^64-1] under the configured style and effective culture, and yields that number; otherwise it hands the text with the effective culture to the base converter |
| `UInt64Conversion.UInt64Converter.CanConvertFrom` | src/CsvHelper/TypeConversion/UInt64Converter.cs:79-83 | holds exactly for the string type |
| `UInt64Conversion.UInt64Converter.EffectiveCulture` | src/CsvHelper/TypeConversion/UInt64Converter.cs:64 | `UsingCultureInfo ?? culture`: the configured culture when there is one, else the call's |
| `UInt64Conversion.Default` | src/CsvHelper/TypeConversion/UInt64Converter.cs:20-28 | the parameterless constructor keeps the field initialiser's `NumberStyles.Integer` and no culture, so every call's culture is used |
| `UInt64Conversion.WithStyle` | src/CsvHelper/TypeConversion/UInt64Converter.cs:33-36 | the style constructor stores the given style and no culture |
| `UInt64Conversion.WithCultureAndStyle` | src/CsvHelper/TypeConversion/UInt64Converter.cs:41-45 | the culture-and-style constructor stores both, so its culture replaces every call's |
| `UInt64Conversion.WithCulture` | src/CsvHelper/TypeConversion/UInt64Converter.cs:50-53 | the culture constructor stores the culture and keeps `NumberStyles.Integer` |
| `UInt64Conversion.DefaultUsesIntegerStyleAndCallCulture` | src/CsvHelper/TypeConversion/UInt64Converter.cs:20-28 | the default converter parses with NumberStyles.Integer in the call's culture |
| `UInt64Conversion.ConfiguredStyleIgnored` | src/CsvHelper/TypeConversion/UInt64Converter.cs:33-45 | converters that differ only in their stored style convert every text alike; the style constructor parses with NumberStyles.Integer |
| `UInt64Conversion.NoStyleStillAcceptsPadding` | src/CsvHelper/TypeConversion/UInt64Converter.cs:64 | a converter built with NumberStyles.None still converts " 7" to 7 |
| `UInt64Conversion.WithConfiguredStyleHonoursStyle` | src/CsvHelper/TypeConversion/UInt64Converter.cs:33-36 | with the configured style honoured, the constructor's style is the one the parse uses, and NumberStyles.None rejects " 7" |
| `UInt64Conversion.ConstructorCultureOverrides` | src/CsvHelper/TypeConversion/UInt64Converter.cs:41-53 | a constructor culture replaces the call's culture in the parse and in the fallback |
| `UInt64Conversion.RoundTrip` | src/CsvHelper/TypeConversion/UInt64Converter.cs:63-67 | every ulong, printed in the effective culture, converts back to itself, whatever style is configured |
| `UInt64Conversion.OutOfRangeDelegates` | src/CsvHelper/TypeConversion/UInt64Converter.cs:64-69 | a number outside [0, 2^64-1] goes to the base converter |
| `TypeConverterAttributes.FromType` | src/CsvHelper/TypeConversion/TypeConverterAttribute.cs:44-52 | the type constructor succeeds exactly for types assignable to ITypeConverter, and then stores the type and leaves Instance null; otherwise it raises an ArgumentException on parameter "type"; a null type raises a NullReferenceException |
| `TypeConverterAttributes.FromInstance` | src/CsvHelper/TypeConversion/TypeConverterAttribute.cs:58-61 | the instance constructor stores the instance unchecked and leaves Type null |
| `TypeConverterAttributes.ConverterTypesAccepted` | src/CsvHelper/TypeConversion/TypeConverterAttribute.cs:46-51 | the interface itself and every implementing type are accepted |
| `TypeConverterAttributes.StringTypeRefused` | src/CsvHelper/TypeConversion/TypeConverterAttribute.cs:46-49 | a non-converter type such as System.String is refused with the message naming it |
| `TypeConverterAttributes.ConstructorsDisjoint` | src/CsvHelper/TypeConversion/TypeConverterAttribute.cs:30-38 | no attribute built by the type constructor equals one built by the instance constructor |
| `Configuration.PropertyMapCollection.Add` | src/CsvHelper/Configuration/CsvClassMap.cs:34-37 | adding to the exposed property-map collection appends in place |
| `Configuration.ReferenceMapList.Add` | src/CsvHelper/Configuration/CsvClassMap.cs:42-45 | adding to the exposed reference-map list appends in place |
| `Configuration.CsvClassMap.constructor` | src/CsvHelper/Configuration/CsvClassMap.cs:23-29 | a new class map has fresh, empty property-map and reference-map collections, held in readonly fields, and no constructor expression |
| `Configuration.CsvClassMap.SetConstructor` | src/CsvHelper/Configuration/CsvClassMap.cs:29 | the protected setter sets the constructor slot and leaves the collections untouched |
| `Configuration.CsvPropertyReferenceMap.Init` | src/CsvHelper/Configuration/CsvPropertyReferenceMap.cs:22-25 | after the guard, the property and nested map are stored; the map is not a collection and has no collection type |
| `Configuration.CsvPropertyReferenceMap.IsCollectionOf` | src/CsvHelper/Configuration/CsvPropertyReferenceMap.cs:106-111 | sets IsCollection and CollectionType and returns the same object; leaves Property and Mapping unchanged |
| `Configuration.CsvPropertyReferenceMap.SetMapping` | src/CsvHelper/Configuration/CsvPropertyReferenceMap.cs:57-61 | replaces the nested map and leaves the collection flag and type unchanged |
| `Configuration.CheckMapType` | src/CsvHelper/Configuration/CsvPropertyReferenceMap.cs:90-93 | the guard passes exactly for strict subclasses of CsvClassMap; otherwise it raises an ArgumentException, or a NullReferenceException for a null type |
| `Configuration.ReferenceMapWithArguments` | src/CsvHelper/Configuration/CsvPropertyReferenceMap.cs:88-97 | construction succeeds exactly when the guard passes and the type can be instantiated; then Property is the given property and Mapping is a fresh class map of the given type |
| `Configuration.Instantiate` | src/CsvHelper/Configuration/CsvPropertyReferenceMap.cs:95-96 | after the guard, construction fails with MemberAccessException exactly for an abstract type; otherwise the property is stored, the reference is not a collection, and Mapping is a fresh class map of the type with fresh collections, empty when the type is CsvClassMap itself; what a subclass constructor maps is not modelled |
| `Configuration.ReferenceMapOfType` | src/CsvHelper/Configuration/CsvPropertyReferenceMap.cs:77-80 | the two-argument constructor passes the same guard: the guard's error for a refused type, MemberAccessException for an abstract type, and otherwise a fresh reference map holding the property and a fresh nested map of the type |
| `Configuration.ReferenceMapForProperty` | src/CsvHelper/Configuration/CsvPropertyReferenceMap.cs:67-70 | the one-argument constructor always fails with "The type is not a CsvClassMap." |
| `Configuration.ClassMapItselfRefused` | src/CsvHelper/Configuration/CsvPropertyReferenceMap.cs:67-68 | under every type hierarchy, the guard refuses CsvClassMap itself |
| `Configuration.IntendedCheckMapType` | src/CsvHelper/Configuration/CsvPropertyReferenceMap.cs:90 | the corrected guard passes exactly for CsvClassMap and its strict subclasses |
| `Configuration.IntendedCheckDiffersOnlyOnClassMap` | src/CsvHelper/Configuration/CsvPropertyReferenceMap.cs:88-93 | the corrected guard accepts CsvClassMap and agrees with the written guard on every other type |
| `Configuration.ReferenceMapWithIntendedCheck` | src/CsvHelper/Configuration/CsvPropertyReferenceMap.cs:88-97 | construction with the corrected guard: it succeeds exactly when that guard passes and the type can be instantiated, with the guard's error for a refused type, MemberAccessException for an abstract one, and an empty nested map for CsvClassMap itself |
| `Configuration.ReferenceMapForPropertyAsIntended` | src/CsvHelper/Configuration/CsvPropertyReferenceMap.cs:67-70 | with the corrected guard, the one-argument constructor succeeds whenever CsvClassMap can be instantiated, and nests a fresh, empty plain class map |
| `Configuration.ConfigureAsCollection` | src/CsvHelper/Configuration/CsvPropertyReferenceMap.cs:106-111 | calling IsCollectionOf twice keeps the flag set, keeps the second element type, and keeps the construction-time property and nested map |

## Left out

- Culture-aware comparison: `CompareInfo.Compare(..., IgnoreCase)` is modelled as ASCII case folding, and the culture does not affect it.
- Whitespace: `Trim` and the parsers use one whitespace set (tab through carriage return, and space). Other Unicode whitespace is not modelled, and neither are NUL characters: `bool.TryParse` also strips leading and trailing NULs (so "\0True" is canonical there, while the model sends it on to the alias lookup), and the integer parse accepts trailing NULs.
- Number styles: only the three flags that make up `NumberStyles.Integer` are modelled. Hex, thousands separators, parentheses, trailing sign, decimal point, exponent and currency are not.
- Culture signs are single characters here; .NET uses strings. The round-trip lemmas assume a well-formed culture: distinct signs that are not digits, whitespace or letters.
- The base `DefaultTypeConverter.ConvertFromString` is not part of this model. Its call is recorded as an outcome holding the culture and text it receives. The same holds for `ConvertToString`; the round trips use the library's integer and boolean `ToString` instead.
- A null culture is not modelled: `Culture` is always a value. In the source, a null `culture` makes the alias lookup (BooleanConverter.cs lines 82 and 87) throw a NullReferenceException once a non-empty list is searched, and the integer converters pass `UsingCultureInfo ?? culture` to `TryParse`, where null means the thread's culture.
- Shared alias lists are not modelled: the converter holds its alias lists as immutable sequences. In the source they are the caller's `List<string>` objects, stored by reference (BooleanConverter.cs lines 50-51) and returned by the public getters, so a later change made through them changes the converter's answers.
- Alias lists holding null elements are not modelled. In the source such an element never matches, because the trimmed text is never null.
- The boxed `object` results are modelled as `Conversion<int>` and `Conversion<bool>`. Integers are unbounded, and each converter's range check is explicit.
- Reflection: `IsSubclassOf` and `IsAssignableFrom` read a given `TypeHierarchy` relation. `Activator.CreateInstance` builds a fresh class map that records its runtime type. The subclass constructor's body and its arguments are not run. Only the abstract-type failure is modelled; a constructor-argument mismatch is not.
- Configuration.Instantiate: says nothing about the contents of a nested map whose type is a strict subclass of CsvClassMap, because the subclass constructor that `Activator.CreateInstance` runs (typically `Map` and `References` calls) is not part of this model; only a plain CsvClassMap is promised empty.
- `CsvPropertyMap` and `CsvPropertyMapCollection` are not part of this model beyond the bound property and appending. A `NewExpression` is only the type it instantiates.
- The generic `CsvClassMap<T>` and `CsvPropertyReferenceMap<TClassMap>`, the date-time and decimal converters, the benchmark program and the tests are not modelled.
- The CSV tokenizer, reader, writer and record materializer are not part of this model.

## Findings

| source | as written | input that shows it | evidently intended | confidence | as-written member | corrected member |
|---|---|---|---|---|---|---|
| src/CsvHelper/TypeConversion/UInt64Converter.cs:64 | `ulong.TryParse` gets the literal `NumberStyles.Integer`, so the style stored by the constructors (lines 33-45) has no effect | `new UInt64Converter(NumberStyles.None)` converts " 7" to 7 | parse with `UsingNumberStyles`, as the SByte, Int64 and UInt32 converters do | medium, not executed | `UInt64Conversion.NoStyleStillAcceptsPadding` | `UInt64Conversion.UInt64Converter.ConvertFromStringWithConfiguredStyle` |
| src/CsvHelper/Configuration/CsvPropertyReferenceMap.cs:67-68 | the one-argument constructor passes `typeof(CsvClassMap)` to the guard at line 90, and `IsSubclassOf` is strict | any property: the constructor always throws ArgumentException | accept `CsvClassMap` itself and nest a plain class map | high, not executed | `Configuration.ReferenceMapForProperty` | `Configuration.ReferenceMapForPropertyAsIntended` |
