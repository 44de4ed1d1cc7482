/** updatePassword (index.js:18-35): the password generated with some flags is
    classified with the same includeSymbols flag. These lemmas say what the
    classifier reports about passwords the generator can produce. */
module UpdatePassword {
  import opened Wrappers
  import opened Alphabets
  import opened Generator
  import opened Strength

  /** Every character of a generated password belongs to a class whose flag is set. */
  lemma GeneratedCharsFromSelectedClasses(includeUpper: bool, includeLower: bool, includeNumbers: bool,
                                          includeSymbols: bool, draws: seq<nat>)
    requires IndicesBelow(draws, |Charset(includeUpper, includeLower, includeNumbers, includeSymbols)|)
    ensures forall c | c in Pick(Charset(includeUpper, includeLower, includeNumbers, includeSymbols), draws) ::
      (includeLower && IsLower(c)) || (includeUpper && IsUpper(c)) ||
      (includeNumbers && IsDigit(c)) || (includeSymbols && c in Symbols)
  {
    var cs := Charset(includeUpper, includeLower, includeNumbers, includeSymbols);
    var pw := Pick(cs, draws);
    DrawnFromWithin(pw, cs, draws);
    forall c | c in pw
      ensures (includeLower && IsLower(c)) || (includeUpper && IsUpper(c)) ||
              (includeNumbers && IsDigit(c)) || (includeSymbols && c in Symbols)
    {
      CharsetMembers(includeUpper, includeLower, includeNumbers, includeSymbols, c);
    }
  }

  /** Every letter or digit of the charset comes from a selected flag of its own class. */
  lemma CharsetCharClass(includeUpper: bool, includeLower: bool, includeNumbers: bool, includeSymbols: bool)
    ensures forall c | c in Charset(includeUpper, includeLower, includeNumbers, includeSymbols) ::
      (IsLower(c) ==> includeLower) && (IsUpper(c) ==> includeUpper) && (IsDigit(c) ==> includeNumbers)
  {
    forall c | c in Charset(includeUpper, includeLower, includeNumbers, includeSymbols)
      ensures (IsLower(c) ==> includeLower) && (IsUpper(c) ==> includeUpper) && (IsDigit(c) ==> includeNumbers)
    {
      CharsetMembers(includeUpper, includeLower, includeNumbers, includeSymbols, c);
      if c in Symbols {
        SymbolsAreNotAlphanumeric(c);
      }
    }
  }

  /** A password picked from a charset without lowercase letters (uppercase
      letters, digits) when `lower` (`upper`, `numbers`) is false meets at most
      as many criteria as the four flags allow. */
  lemma PickedCriteriaBounded(cs: string, draws: seq<nat>, upper: bool, lower: bool, numbers: bool, symbols: bool,
                              symbolPattern: Pattern)
    requires IndicesBelow(draws, |cs|)
    requires forall c | c in cs :: (IsLower(c) ==> lower) && (IsUpper(c) ==> upper) && (IsDigit(c) ==> numbers)
    ensures CriteriaMet(Pick(cs, draws), symbols, symbolPattern) <= Flag(upper) + Flag(lower) + Flag(numbers) + Flag(symbols)
  {
    var pw := Pick(cs, draws);
    if Test(LowerLetters, pw) {
      var i :| 0 <= i < |pw| && Matches(pw[i], LowerLetters);
      assert pw[i] in cs;
    }
    if Test(UpperLetters, pw) {
      var i :| 0 <= i < |pw| && Matches(pw[i], UpperLetters);
      assert pw[i] in cs;
    }
    if Test(DecimalDigits, pw) {
      var i :| 0 <= i < |pw| && Matches(pw[i], DecimalDigits);
      assert pw[i] in cs;
    }
  }

  /** A generated password meets at most as many criteria as classes were
      selected, whichever symbol test is used. */
  lemma GeneratedCriteriaAtMostSelected(includeUpper: bool, includeLower: bool, includeNumbers: bool, includeSymbols: bool,
                                        draws: seq<nat>, symbolPattern: Pattern)
    requires IndicesBelow(draws, |Charset(includeUpper, includeLower, includeNumbers, includeSymbols)|)
    ensures CriteriaMet(Pick(Charset(includeUpper, includeLower, includeNumbers, includeSymbols), draws), includeSymbols, symbolPattern)
      <= Flag(includeUpper) + Flag(includeLower) + Flag(includeNumbers) + Flag(includeSymbols)
  {
    CharsetCharClass(includeUpper, includeLower, includeNumbers, includeSymbols);
    PickedCriteriaBounded(Charset(includeUpper, includeLower, includeNumbers, includeSymbols), draws,
                          includeUpper, includeLower, includeNumbers, includeSymbols, symbolPattern);
  }

  /** A nonempty all-lowercase password is "weak", whatever includeSymbols is. */
  lemma AllLowercaseIsWeak(pw: string, includeSymbols: bool)
    requires |pw| > 0 && forall i | 0 <= i < |pw| :: IsLower(pw[i])
    ensures CheckPasswordStrength(pw, includeSymbols) == Some(Weak)
  {
    assert Matches(pw[0], LowerLetters);
    assert !Test(SymbolsAsWritten, pw) by {
      forall i | 0 <= i < |pw| ensures !Matches(pw[i], SymbolsAsWritten) {
        SymbolClassAsWritten(pw[i]);
      }
    }
    RankInjective(CheckPasswordStrength(pw, includeSymbols), Some(Weak));
  }

  /** A nonempty all-uppercase password classified with includeSymbols scores
      "medium" as written, but "weak" with the intended symbol test. */
  lemma AllUppercaseWithSymbols(pw: string)
    requires |pw| > 0 && forall i | 0 <= i < |pw| :: IsUpper(pw[i])
    ensures CheckPasswordStrength(pw, true) == Some(Medium)
    ensures CheckPasswordStrengthIntended(pw, true) == Some(Weak)
  {
    assert Matches(pw[0], UpperLetters) && Matches(pw[0], SymbolsAsWritten);
    assert !Test(SymbolsIntended, pw) by {
      forall i | 0 <= i < |pw| ensures !Matches(pw[i], SymbolsIntended) {
        if pw[i] in Symbols { SymbolsAreNotAlphanumeric(pw[i]); }
      }
    }
    RankInjective(CheckPasswordStrength(pw, true), Some(Medium));
    RankInjective(CheckPasswordStrengthIntended(pw, true), Some(Weak));
  }

  /** Picking from a charset of lowercase letters only gives a "weak" password. */
  lemma PickedLowercaseIsWeak(cs: string, draws: seq<nat>, includeSymbols: bool)
    requires |draws| > 0 && IndicesBelow(draws, |cs|)
    requires forall c | c in cs :: IsLower(c)
    ensures CheckPasswordStrength(Pick(cs, draws), includeSymbols) == Some(Weak)
  {
    var pw := Pick(cs, draws);
    forall i | 0 <= i < |pw| ensures IsLower(pw[i]) {
      assert pw[i] in cs;
    }
    AllLowercaseIsWeak(pw, includeSymbols);
  }

  /** A nonempty password generated with only the lowercase flag is "weak",
      whatever includeSymbols the classifier is given. */
  lemma OnlyLowercaseIsWeak(draws: seq<nat>, includeSymbols: bool)
    requires |draws| > 0 && IndicesBelow(draws, |Charset(false, true, false, false)|)
    ensures CheckPasswordStrength(Pick(Charset(false, true, false, false), draws), includeSymbols) == Some(Weak)
  {
    CharsetOnlyLower();
    forall c | c in Lower ensures IsLower(c) {
      LowerIsRange(c);
    }
    PickedLowercaseIsWeak(Lower, draws, includeSymbols);
  }

  /** Picking from a charset of uppercase letters only scores "medium" as
      written and "weak" with the intended test, when classified with symbols. */
  lemma PickedUppercaseWithSymbols(cs: string, draws: seq<nat>)
    requires |draws| > 0 && IndicesBelow(draws, |cs|)
    requires forall c | c in cs :: IsUpper(c)
    ensures CheckPasswordStrength(Pick(cs, draws), true) == Some(Medium)
    ensures CheckPasswordStrengthIntended(Pick(cs, draws), true) == Some(Weak)
  {
    var pw := Pick(cs, draws);
    forall i | 0 <= i < |pw| ensures IsUpper(pw[i]) {
      assert pw[i] in cs;
    }
    AllUppercaseWithSymbols(pw);
  }

  /** With the uppercase and symbol flags, a password whose draws all hit the
      uppercase part of the charset scores "medium" as written, but "weak" with
      the intended symbol test. */
  lemma UppercaseDrawsWithSymbolsFlag(draws: seq<nat>)
    requires |draws| > 0 && IndicesBelow(draws, 26)
    ensures IndicesBelow(draws, |Charset(true, false, false, true)|)
    ensures CheckPasswordStrength(Pick(Charset(true, false, false, true), draws), true) == Some(Medium)
    ensures CheckPasswordStrengthIntended(Pick(Charset(true, false, false, true), draws), true) == Some(Weak)
  {
    CharsetUpperAndSymbols();
    PickPrefix(Upper, Symbols, draws);
    forall c | c in Upper ensures IsUpper(c) {
      UpperIsRange(c);
    }
    PickedUppercaseWithSymbols(Upper, draws);
  }

  /** As written, the symbols-only password "-" is classified `null`. */
  lemma HyphenOnlyPasswordIsUnrated()
    ensures IndicesBelow([11], |Charset(false, false, false, true)|)
    ensures Pick(Charset(false, false, false, true), [11]) == "-"
    ensures CheckPasswordStrength("-", true) == None
  {
    assert !Test(SymbolsAsWritten, "-") by {
      forall i | 0 <= i < 1 ensures !Matches("-"[i], SymbolsAsWritten) {
      }
    }
  }

  /** With the intended test, a password whose first character belongs to a
      selected class is rated at least "weak". */
  lemma IntendedRatesSelectedClass(pw: string, includeUpper: bool, includeLower: bool, includeNumbers: bool, includeSymbols: bool)
    requires |pw| > 0
    requires (includeLower && IsLower(pw[0])) || (includeUpper && IsUpper(pw[0])) ||
             (includeNumbers && IsDigit(pw[0])) || (includeSymbols && pw[0] in Symbols)
    ensures CheckPasswordStrengthIntended(pw, includeSymbols) != None
  {
    if IsLower(pw[0]) {
      assert Matches(pw[0], LowerLetters);
    } else if IsUpper(pw[0]) {
      assert Matches(pw[0], UpperLetters);
    } else if IsDigit(pw[0]) {
      assert Matches(pw[0], DecimalDigits);
    } else {
      assert Matches(pw[0], SymbolsIntended);
    }
  }

  /** With the intended test, every nonempty generated password is rated at
      least "weak". */
  lemma GeneratedIntendedIsRated(includeUpper: bool, includeLower: bool, includeNumbers: bool, includeSymbols: bool,
                                 draws: seq<nat>)
    requires |draws| > 0
    requires IndicesBelow(draws, |Charset(includeUpper, includeLower, includeNumbers, includeSymbols)|)
    ensures CheckPasswordStrengthIntended(Pick(Charset(includeUpper, includeLower, includeNumbers, includeSymbols), draws), includeSymbols) != None
  {
    var pw := Pick(Charset(includeUpper, includeLower, includeNumbers, includeSymbols), draws);
    CharsetMembers(includeUpper, includeLower, includeNumbers, includeSymbols, pw[0]);
    IntendedRatesSelectedClass(pw, includeUpper, includeLower, includeNumbers, includeSymbols);
  }
}
