/** The Boolean converter (TypeConversion/BooleanConverter.cs). Its two alias
    lists are set once by a constructor, so the converter is a value; a list
    may be null, as the customizable constructor does not check its
    arguments. `ConvertFromString` tries, in this order: the canonical
    `bool.TryParse`; `short.TryParse` giving 0 or 1; the trimmed text against
    the true aliases, then the false aliases; and finally the base converter. */
module BooleanConversion {
  import opened Runtime
  import opened Globalization
  import opened TypeConversion

  /** `aliases.Exists(m => culture.CompareInfo.Compare(m, t, CompareOptions.IgnoreCase) == 0)`. */
  predicate MatchesAlias(aliases: seq<string>, culture: Culture, t: string)
    ensures t in aliases ==> MatchesAlias(aliases, culture, t)
    ensures aliases == [] ==> !MatchesAlias(aliases, culture, t)
  {
    exists i :: 0 <= i < |aliases| && EqualsIgnoreCase(aliases[i], t)
  }

  /** The outcome of the alias lookup on the trimmed text. */
  datatype AliasLookup = Alias(value: bool) | NoAlias | NullList

  /** What the converter returns once the alias lookup has decided. */
  function AliasOutcome(lookup: AliasLookup, culture: Culture, text: Option<string>): Conversion<bool> {
    match lookup
    case Alias(b) => Converted(b)
    case NullList => Threw(NullReferenceException)
    case NoAlias => DelegatedToBase(culture, text)
  }

  /** `TrueRepresentation` and `FalseRepresentation` (null when absent). */
  datatype BooleanConverter = BooleanConverter(trueRepresentation: Option<seq<string>>, falseRepresentation: Option<seq<string>>) {

    /** The alias lookup on an already trimmed text: the true list is asked
        first, and a null list throws when it is reached. */
    function LookupAliases(culture: Culture, t: string): (r: AliasLookup)
      ensures r == Alias(true) <==> trueRepresentation.Some? && MatchesAlias(trueRepresentation.value, culture, t)
      ensures r == Alias(false) <==>
        && trueRepresentation.Some? && !MatchesAlias(trueRepresentation.value, culture, t)
        && falseRepresentation.Some? && MatchesAlias(falseRepresentation.value, culture, t)
    {
      if trueRepresentation.None? then NullList
      else if MatchesAlias(trueRepresentation.value, culture, t) then Alias(true)
      else if falseRepresentation.None? then NullList
      else if MatchesAlias(falseRepresentation.value, culture, t) then Alias(false)
      else NoAlias
    }

    /** Every boolean produced is justified by one of the rules; the base
        converter receives the culture and the text of the call untouched;
        the only exception is the null-list dereference. `current` is the
        thread's culture, which `short.TryParse` reads. */
    function ConvertFromString(culture: Culture, current: Culture, text: Option<string>): (r: Conversion<bool>)
      ensures r == Converted(true) ==>
        || ParseBoolean(text) == Some(true)
        || ParseShort(text, current) == Some(1)
        || (trueRepresentation.Some? && MatchesAlias(trueRepresentation.value, culture, Trim(text.GetOr(""))))
      ensures r == Converted(false) ==>
        || ParseBoolean(text) == Some(false)
        || ParseShort(text, current) == Some(0)
        || (falseRepresentation.Some? && MatchesAlias(falseRepresentation.value, culture, Trim(text.GetOr(""))))
      ensures r.DelegatedToBase? ==> r == DelegatedToBase(culture, text)
      ensures r.Threw? ==> r.error == NullReferenceException && (trueRepresentation.None? || falseRepresentation.None?)
    {
      match ParseBoolean(text)
      case Some(b) => Converted(b)
      case None =>
        var sh := ParseShort(text, current);
        if sh == Some(0) then Converted(false)
        else if sh == Some(1) then Converted(true)
        else AliasOutcome(LookupAliases(culture, Trim(text.GetOr(""))), culture, text)
    }

    /** Only strings are accepted as a source. */
    function CanConvertFrom(sourceType: Option<TypeHandle>): (r: bool)
      ensures r <==> sourceType == Some(StringType)
    {
      sourceType == Some(StringType)
    }
  }

  /** `BooleanConverter()`: true aliases "yes", "y"; false aliases "no", "n". */
  function Default(): (r: BooleanConverter)
    ensures r.trueRepresentation == Some(["yes", "y"]) && r.falseRepresentation == Some(["no", "n"])
  {
    BooleanConverter(Some(["yes", "y"]), Some(["no", "n"]))
  }

  /** `BooleanConverter(trueStrings, falseStrings)`: the lists are kept as
      given, without a check, so either may be null. */
  function Custom(trueStrings: Option<seq<string>>, falseStrings: Option<seq<string>>): (r: BooleanConverter)
    ensures r.trueRepresentation == trueStrings && r.falseRepresentation == falseStrings
  {
    BooleanConverter(trueStrings, falseStrings)
  }

  /** Neither the canonical nor the 0/1 rule applies, so the alias lookup decides. */
  predicate ReachesAliases(current: Culture, text: Option<string>) {
    ParseBoolean(text).None? && ParseShort(text, current) != Some(0) && ParseShort(text, current) != Some(1)
  }

  // ---------------------------------------------------------------- precedence

  /** A canonical boolean is returned before any other rule is tried, whatever
      the alias lists say. */
  lemma CanonicalTakesPrecedence(conv: BooleanConverter, culture: Culture, current: Culture, text: Option<string>)
    requires ParseBoolean(text).Some?
    ensures conv.ConvertFromString(culture, current, text) == Converted(ParseBoolean(text).value)
  {
  }

  /** What `bool.ToString()` prints converts back, with any alias lists. */
  lemma CanonicalRoundTrip(conv: BooleanConverter, culture: Culture, current: Culture, b: bool)
    ensures conv.ConvertFromString(culture, current, Some(BooleanText(b))) == Converted(b)
  {
    CanonicalTakesPrecedence(conv, culture, current, Some(BooleanText(b)));
  }


  /** Helper: a one-character text is no canonical boolean. */
  lemma NotCanonical(s: string)
    requires |s| == 1
    ensures ParseBoolean(Some(s)) == None
  {
    assert |ToLowerString(Trim(s))| <= 1;
  }

  /** A non-canonical text that parses as the short 0 or 1 gives false or true,
      before the alias lists are consulted. */
  lemma ShortZeroAndOne(conv: BooleanConverter, culture: Culture, current: Culture, text: Option<string>)
    requires ParseBoolean(text).None?
    ensures ParseShort(text, current) == Some(0) ==> conv.ConvertFromString(culture, current, text) == Converted(false)
    ensures ParseShort(text, current) == Some(1) ==> conv.ConvertFromString(culture, current, text) == Converted(true)
  {
  }

  /** "0" and "1" convert to false and true with any alias lists. */
  lemma ZeroAndOneText(conv: BooleanConverter, culture: Culture, current: Culture, b: bool)
    requires WellFormed(current)
    ensures conv.ConvertFromString(culture, current, Some(if b then "1" else "0")) == Converted(b)
  {
    var d := if b then 1 else 0;
    SingleDigitText(d, current);
    assert [DigitChar(d)] == if b then "1" else "0";
    ShortZeroAndOne(conv, culture, current, Some([DigitChar(d)]));
  }

  /** Helper: a one-digit text is no canonical boolean and parses as a short. */
  lemma SingleDigitText(d: nat, current: Culture)
    requires d < 10 && WellFormed(current)
    ensures ParseBoolean(Some([DigitChar(d)])).None?
    ensures ParseShort(Some([DigitChar(d)]), current) == Some(d)
  {
    NotCanonical([DigitChar(d)]);
    ParseFormatRoundTrip(d, Integer, current);
  }

  /** Any other short value, such as 2, falls through to the alias lookup. */
  lemma OtherShortFallsThrough(conv: BooleanConverter, culture: Culture, current: Culture, text: Option<string>)
    requires ParseBoolean(text).None?
    requires ParseShort(text, current).Some?
    requires ParseShort(text, current) != Some(0) && ParseShort(text, current) != Some(1)
    ensures ReachesAliases(current, text)
    ensures conv.ConvertFromString(culture, current, text) ==
              AliasOutcome(conv.LookupAliases(culture, Trim(text.GetOr(""))), culture, text)
  {
  }

  /** With "2" among the true aliases, the text "2" converts to true although
      it parses as a short. */
  lemma ShortTwoAsAlias(culture: Culture, current: Culture)
    requires WellFormed(current)
    ensures Custom(Some(["2"]), Some([])).ConvertFromString(culture, current, Some("2")) == Converted(true)
  {
    var s := "2";
    SingleDigitText(2, current);
    assert [DigitChar(2)] == s;
    assert Trim(s) == s;
    assert MatchesAlias(["2"], culture, s) by {
      assert EqualsIgnoreCase(["2"][0], s);
    }
  }

  // ---------------------------------------------------------------- alias lookup

  /** Once neither the canonical nor the 0/1 rule applies, the alias lookup
      on the trimmed text decides. */
  lemma AliasesDecide(conv: BooleanConverter, culture: Culture, current: Culture, text: Option<string>)
    requires ReachesAliases(current, text)
    ensures conv.ConvertFromString(culture, current, text) ==
              AliasOutcome(conv.LookupAliases(culture, Trim(text.GetOr(""))), culture, text)
  {
  }

  /** A token in both alias lists converts to true: the true list is asked first. */
  lemma TrueAliasesFirst(conv: BooleanConverter, culture: Culture, current: Culture, text: Option<string>)
    requires ReachesAliases(current, text)
    requires conv.trueRepresentation.Some? && conv.falseRepresentation.Some?
    requires MatchesAlias(conv.trueRepresentation.value, culture, Trim(text.GetOr("")))
    requires MatchesAlias(conv.falseRepresentation.value, culture, Trim(text.GetOr("")))
    ensures conv.ConvertFromString(culture, current, text) == Converted(true)
  {
  }

  /** The lookup ignores the case of the text. */
  lemma LookupIgnoresCase(conv: BooleanConverter, culture: Culture, t: string, u: string)
    requires EqualsIgnoreCase(t, u)
    ensures conv.LookupAliases(culture, t) == conv.LookupAliases(culture, u)
  {
    forall aliases: seq<string> ensures MatchesAlias(aliases, culture, t) == MatchesAlias(aliases, culture, u) {
      if MatchesAlias(aliases, culture, t) {
        var i :| 0 <= i < |aliases| && EqualsIgnoreCase(aliases[i], t);
        assert EqualsIgnoreCase(aliases[i], u);
      }
      if MatchesAlias(aliases, culture, u) {
        var i :| 0 <= i < |aliases| && EqualsIgnoreCase(aliases[i], u);
        assert EqualsIgnoreCase(aliases[i], t);
      }
    }
  }

  /** A null text is looked up as the empty string. */
  lemma NullTextLooksUpEmpty(conv: BooleanConverter, culture: Culture, current: Culture)
    ensures ReachesAliases(current, None)
    ensures conv.ConvertFromString(culture, current, None) == AliasOutcome(conv.LookupAliases(culture, ""), culture, None)
  {
    assert Trim("") == "";
  }

  /** The base converter is reached exactly when no rule applies. */
  lemma DelegatesExactlyWhenNoRuleApplies(conv: BooleanConverter, culture: Culture, current: Culture, text: Option<string>)
    ensures conv.ConvertFromString(culture, current, text).DelegatedToBase? <==>
      && ReachesAliases(current, text)
      && conv.trueRepresentation.Some? && !MatchesAlias(conv.trueRepresentation.value, culture, Trim(text.GetOr("")))
      && conv.falseRepresentation.Some? && !MatchesAlias(conv.falseRepresentation.value, culture, Trim(text.GetOr("")))
  {
  }

  // ---------------------------------------------------------------- constructors

  /** Helper: a text whose trimmed form is a lower-case letter word of one to
      three letters is neither canonical nor a number. */
  lemma WordIsNoCanonicalOrShort(s: string, word: string, current: Culture)
    requires WellFormed(current)
    requires 0 < |word| < 4 && forall i :: 0 <= i < |word| ==> 'a' <= word[i] <= 'z'
    requires EqualsIgnoreCase(Trim(s), word)
    ensures ReachesAliases(current, Some(s))
  {
    var t := Trim(s);
    assert |t| == |word|;
    assert ParseBoolean(Some(s)) == None by {
      assert |ToLowerString(t)| != |ToLowerString("True")|;
      assert |ToLowerString(t)| != |ToLowerString("False")|;
    }
    assert ToLower(t[0]) == ToLowerString(word)[0];
    assert IsAsciiLetter(t[0]);
    assert StripWhite(s, Integer) == t;
    assert ParseShort(Some(s), current) == None;
  }

  lemma LowerOfLowerWord(word: string)
    requires forall i :: 0 <= i < |word| ==> 'a' <= word[i] <= 'z'
    ensures ToLowerString(word) == word
  {
  }

  /** With the default converter, "yes" and "y" in any case and with any
      surrounding whitespace convert to true. */
  lemma DefaultTrueAliases(culture: Culture, current: Culture, s: string)
    requires WellFormed(current)
    requires EqualsIgnoreCase(Trim(s), "yes") || EqualsIgnoreCase(Trim(s), "y")
    ensures Default().ConvertFromString(culture, current, Some(s)) == Converted(true)
  {
    var w := if EqualsIgnoreCase(Trim(s), "yes") then "yes" else "y";
    LowerOfLowerWord(w);
    WordIsNoCanonicalOrShort(s, w, current);
    var aliases := ["yes", "y"];
    assert EqualsIgnoreCase(aliases[if w == "yes" then 0 else 1], Trim(s));
  }

  /** With the default converter, "no" and "n" in any case and with any
      surrounding whitespace convert to false. */
  lemma DefaultFalseAliases(culture: Culture, current: Culture, s: string)
    requires WellFormed(current)
    requires EqualsIgnoreCase(Trim(s), "no") || EqualsIgnoreCase(Trim(s), "n")
    ensures Default().ConvertFromString(culture, current, Some(s)) == Converted(false)
  {
    var w := if EqualsIgnoreCase(Trim(s), "no") then "no" else "n";
    LowerOfLowerWord(w);
    LowerOfLowerWord("yes");
    LowerOfLowerWord("y");
    WordIsNoCanonicalOrShort(s, w, current);
    var t := Trim(s);
    assert !MatchesAlias(["yes", "y"], culture, t) by {
      assert ToLowerString(t) == w;
      assert !EqualsIgnoreCase("yes", t);
      assert !EqualsIgnoreCase("y", t) by {
        assert ToLowerString("y")[0] != ToLowerString(t)[0] || |t| != 1;
      }
    }
    var aliases := ["no", "n"];
    assert EqualsIgnoreCase(aliases[if w == "no" then 0 else 1], t);
    assert MatchesAlias(aliases, culture, t);
    assert Default().LookupAliases(culture, t) == Alias(false);
  }

  /** The customizable constructor's lists decide the lookup: a trimmed token
      of the true list that no earlier rule claims converts to true. */
  lemma CustomTrueAlias(trueStrings: seq<string>, falseStrings: Option<seq<string>>, culture: Culture, current: Culture, w: string)
    requires Trim(w) == w && ReachesAliases(current, Some(w))
    requires w in trueStrings
    ensures Custom(Some(trueStrings), falseStrings).ConvertFromString(culture, current, Some(w)) == Converted(true)
  {
    var conv := Custom(Some(trueStrings), falseStrings);
    var i :| 0 <= i < |trueStrings| && trueStrings[i] == w;
    assert EqualsIgnoreCase(trueStrings[i], w);
    assert conv.LookupAliases(culture, w) == Alias(true);
    AliasesDecide(conv, culture, current, Some(w));
  }

  /** A trimmed token of the false list that matches no true alias, and that
      no earlier rule claims, converts to false. */
  lemma CustomFalseAlias(trueStrings: seq<string>, falseStrings: seq<string>, culture: Culture, current: Culture, w: string)
    requires Trim(w) == w && ReachesAliases(current, Some(w))
    requires !MatchesAlias(trueStrings, culture, w) && w in falseStrings
    ensures Custom(Some(trueStrings), Some(falseStrings)).ConvertFromString(culture, current, Some(w)) == Converted(false)
  {
    var conv := Custom(Some(trueStrings), Some(falseStrings));
    var i :| 0 <= i < |falseStrings| && falseStrings[i] == w;
    assert EqualsIgnoreCase(falseStrings[i], w);
    assert conv.LookupAliases(culture, w) == Alias(false);
    AliasesDecide(conv, culture, current, Some(w));
  }

  /** A null true list makes every text that reaches the lookup throw. */
  lemma NullTrueListThrows(falseStrings: Option<seq<string>>, culture: Culture, current: Culture, text: Option<string>)
    requires ReachesAliases(current, text)
    ensures Custom(None, falseStrings).ConvertFromString(culture, current, text) == Threw(NullReferenceException)
  {
  }
}
