/** checkPasswordStrength (index.js:146-165): four presence tests are
    counted and the count is mapped to a strength tier. */
module Strength {
  import opened Wrappers
  import opened Alphabets

  /** The non-null results "weak", "medium", "good" and "great"; `None`
      stands for the `null` returned when no test succeeds. */
  datatype Tier = Weak | Medium | Good | Great

  /** The position of a result in the order null < weak < medium < good < great. */
  function Rank(t: Option<Tier>): (n: nat)
    ensures n <= 4
    ensures n == 0 <==> t.None?
  {
    match t
    case None => 0
    case Some(Weak) => 1
    case Some(Medium) => 2
    case Some(Good) => 3
    case Some(Great) => 4
  }

  /** The rank determines the result: no two results share a rank. */
  lemma RankInjective(a: Option<Tier>, b: Option<Tier>)
    ensures Rank(a) == Rank(b) <==> a == b
  {
    match a
    case None =>
    case Some(x) => match b { case None => case Some(y) => }
  }

  /** The character classes of the four regular expressions of index.js:148-151.
      `SymbolsAsWritten` is the class `[+!?@#%&().:-_]` as the source writes it,
      where `:-_` is the range U+003A..U+005F; `SymbolsIntended` is the
      13-character symbol alphabet of index.js:129 (see `CheckPasswordStrengthIntended`). */
  datatype Pattern = LowerLetters | UpperLetters | DecimalDigits | SymbolsAsWritten | SymbolsIntended

  predicate Matches(c: char, pat: Pattern) {
    match pat
    case LowerLetters => IsLower(c)
    case UpperLetters => IsUpper(c)
    case DecimalDigits => IsDigit(c)
    case SymbolsAsWritten => c in "+!?@#%&()." || ':' <= c <= '_'
    case SymbolsIntended => c in Symbols
  }

  /** `pat.test(password)`: some character of the password matches. */
  predicate Test(pat: Pattern, password: string) {
    exists i | 0 <= i < |password| :: Matches(password[i], pat)
  }

  /** The number of `true` entries, as `array.filter(Boolean).length`. */
  function CountTrue(bs: seq<bool>): (n: nat)
    ensures n <= |bs|
    ensures n == 0 <==> forall i | 0 <= i < |bs| :: !bs[i]
    ensures n == |bs| <==> forall i | 0 <= i < |bs| :: bs[i]
    decreases |bs|
  {
    if bs == [] then 0 else (if bs[0] then 1 else 0) + CountTrue(bs[1..])
  }

  /** The four criteria of index.js:147-151; the last is gated by includeSymbols. */
  function Criteria(password: string, includeSymbols: bool, symbolPattern: Pattern): seq<bool> {
    [Test(LowerLetters, password), Test(UpperLetters, password), Test(DecimalDigits, password),
     Test(symbolPattern, password) && includeSymbols]
  }

  /** Counting four flags adds their indicators. */
  lemma CountTrueOfFour(bs: seq<bool>)
    requires |bs| == 4
    ensures CountTrue(bs) == Flag(bs[0]) + Flag(bs[1]) + Flag(bs[2]) + Flag(bs[3])
  {
    assert CountTrue(bs[3..]) == Flag(bs[3]) + CountTrue(bs[4..]);
    assert bs[2..][1..] == bs[3..];
    assert bs[1..][1..] == bs[2..];
  }

  /** `criteriaMet`: how many of the four criteria hold. */
  function CriteriaMet(password: string, includeSymbols: bool, symbolPattern: Pattern): (n: nat)
    ensures n == Flag(Test(LowerLetters, password)) + Flag(Test(UpperLetters, password)) +
                Flag(Test(DecimalDigits, password)) + Flag(Test(symbolPattern, password) && includeSymbols)
    ensures n <= 4
    ensures !includeSymbols ==> n <= 3
  {
    var bs := Criteria(password, includeSymbols, symbolPattern);
    CountTrueOfFour(bs);
    CountTrue(bs)
  }

  /** The if-chain of index.js:154-164. */
  function TierOf(criteriaMet: nat): (t: Option<Tier>)
    ensures criteriaMet <= 4 ==> Rank(t) == criteriaMet
    ensures criteriaMet >= 4 ==> t == Some(Great)
  {
    if criteriaMet == 0 then None
    else if criteriaMet == 1 then Some(Weak)
    else if criteriaMet == 2 then Some(Medium)
    else if criteriaMet == 3 then Some(Good)
    else Some(Great)
  }

  /** checkPasswordStrength, with the symbol test as the source writes it. */
  function CheckPasswordStrength(password: string, includeSymbols: bool): (t: Option<Tier>)
    ensures Rank(t) == CriteriaMet(password, includeSymbols, SymbolsAsWritten)
  {
    TierOf(CriteriaMet(password, includeSymbols, SymbolsAsWritten))
  }

  /** checkPasswordStrength with the symbol test the source evidently intends:
      a character of the symbol alphabet the generator uses. */
  function CheckPasswordStrengthIntended(password: string, includeSymbols: bool): (t: Option<Tier>)
    ensures Rank(t) == CriteriaMet(password, includeSymbols, SymbolsIntended)
  {
    TierOf(CriteriaMet(password, includeSymbols, SymbolsIntended))
  }

  /** The tier table of index.js:154-164 read back from the count: null for 0,
      "weak" for 1, "medium" for 2, "good" for 3, "great" for 4. */
  lemma TierTable(password: string, includeSymbols: bool)
    ensures var n := CriteriaMet(password, includeSymbols, SymbolsAsWritten);
      var t := CheckPasswordStrength(password, includeSymbols);
      (t == None <==> n == 0) && (t == Some(Weak) <==> n == 1) && (t == Some(Medium) <==> n == 2) &&
      (t == Some(Good) <==> n == 3) && (t == Some(Great) <==> n == 4)
  {
    var t := CheckPasswordStrength(password, includeSymbols);
    RankInjective(t, None);
    RankInjective(t, Some(Weak));
    RankInjective(t, Some(Medium));
    RankInjective(t, Some(Good));
    RankInjective(t, Some(Great));
  }

  /** Without includeSymbols the fourth criterion is false, so no password is "great". */
  lemma NeverGreatWithoutSymbols(password: string)
    ensures CheckPasswordStrength(password, false) != Some(Great)
  {
  }

  /** Setting includeSymbols never lowers the strength. */
  lemma SymbolFlagMonotone(password: string)
    ensures Rank(CheckPasswordStrength(password, false)) <= Rank(CheckPasswordStrength(password, true))
  {
  }

  /** The class `[+!?@#%&().:-_]` as written: the ten listed characters and the
      range ':'..'_', which holds ";<=>?@", every uppercase letter and "[\]^". */
  lemma SymbolClassAsWritten(c: char)
    ensures Matches(c, SymbolsAsWritten) <==>
      c in "+!?@#%&()." || c in ":;<=>?@" || IsUpper(c) || c in "[\\]^_"
  {
    if ':' <= c <= '@' {
      var k := c as int - ':' as int;
      assert ":;<=>?@"[k] == c;
    } else if '[' <= c <= '_' {
      var k := c as int - '[' as int;
      assert "[\\]^_"[k] == c;
    }
  }

  /** Of the generator's 13 symbols, the as-written class accepts all but '-'. */
  lemma SymbolAlphabetAgainstClass(c: char)
    requires c in Symbols
    ensures Matches(c, SymbolsAsWritten) <==> c != '-'
  {
  }

  /** With includeSymbols, any uppercase letter also passes the symbol test. */
  lemma UppercasePassesSymbolTest(password: string)
    requires Test(UpperLetters, password)
    ensures Test(SymbolsAsWritten, password)
    ensures CriteriaMet(password, true, SymbolsAsWritten) >= 2
  {
    var i :| 0 <= i < |password| && Matches(password[i], UpperLetters);
    assert Matches(password[i], SymbolsAsWritten);
  }

  /** A presence test that holds of a part holds of the whole. */
  lemma TestConcat(pat: Pattern, p: string, q: string)
    ensures Test(pat, p) ==> Test(pat, p + q)
    ensures Test(pat, q) ==> Test(pat, p + q)
  {
    if Test(pat, p) {
      var i :| 0 <= i < |p| && Matches(p[i], pat);
      assert (p + q)[i] == p[i];
    }
    if Test(pat, q) {
      var i :| 0 <= i < |q| && Matches(q[i], pat);
      assert (p + q)[|p| + i] == q[i];
    }
  }

  /** Adding characters, before or after, never lowers the count. */
  lemma CriteriaMonotone(p: string, q: string, includeSymbols: bool, symbolPattern: Pattern)
    ensures CriteriaMet(p, includeSymbols, symbolPattern) <= CriteriaMet(p + q, includeSymbols, symbolPattern)
    ensures CriteriaMet(q, includeSymbols, symbolPattern) <= CriteriaMet(p + q, includeSymbols, symbolPattern)
  {
    TestConcat(LowerLetters, p, q);
    TestConcat(UpperLetters, p, q);
    TestConcat(DecimalDigits, p, q);
    TestConcat(symbolPattern, p, q);
  }

  /** Adding characters never lowers the strength tier. */
  lemma StrengthMonotone(p: string, q: string, includeSymbols: bool)
    ensures Rank(CheckPasswordStrength(p, includeSymbols)) <= Rank(CheckPasswordStrength(p + q, includeSymbols))
    ensures Rank(CheckPasswordStrength(q, includeSymbols)) <= Rank(CheckPasswordStrength(p + q, includeSymbols))
  {
    CriteriaMonotone(p, q, includeSymbols, SymbolsAsWritten);
  }

  /** Worked examples: "abc" without symbols is "weak". */
  lemma ExampleLowercaseOnly()
    ensures CheckPasswordStrength("abc", false) == Some(Weak)
  {
    var p := "abc";
    assert Matches(p[0], LowerLetters);
    assert !Test(UpperLetters, p) && !Test(DecimalDigits, p);
    TierTable(p, false);
  }

  /** "abcABC12" without symbols meets three criteria: "good". */
  lemma ExampleMixedNoSymbols()
    ensures CheckPasswordStrength("abcABC12", false) == Some(Good)
  {
    var p := "abcABC12";
    assert Matches(p[0], LowerLetters);
    assert Matches(p[3], UpperLetters);
    assert Matches(p[6], DecimalDigits);
    TierTable(p, false);
  }

  /** "ABC" with symbols is "medium": its letters also pass the symbol test. */
  lemma ExampleUppercaseWithSymbols()
    ensures CheckPasswordStrength("ABC", true) == Some(Medium)
  {
    var p := "ABC";
    assert Matches(p[0], UpperLetters);
    assert Matches(p[0], SymbolsAsWritten);
    assert !Test(LowerLetters, p) && !Test(DecimalDigits, p);
    TierTable(p, true);
  }

  /** "aB1" with symbols meets all four criteria: "great". */
  lemma ExampleGreatWithoutSymbolCharacter()
    ensures CheckPasswordStrength("aB1", true) == Some(Great)
  {
    var p := "aB1";
    assert Matches(p[0], LowerLetters);
    assert Matches(p[1], UpperLetters);
    assert Matches(p[1], SymbolsAsWritten);
    assert Matches(p[2], DecimalDigits);
    TierTable(p, true);
  }

  /** Some character of the password is a character of the alphabet. */
  predicate UsesAlphabet(password: string, alphabet: string) {
    exists i | 0 <= i < |password| :: password[i] in alphabet
  }

  /** How many of the generator's four alphabets the password draws on. */
  function AlphabetsUsed(password: string): (n: nat)
    ensures n <= 4
  {
    Flag(UsesAlphabet(password, Lower)) + Flag(UsesAlphabet(password, Upper)) +
    Flag(UsesAlphabet(password, Digits)) + Flag(UsesAlphabet(password, Symbols))
  }

  /** A test whose class is exactly an alphabet is the same as using that alphabet. */
  lemma TestIsUse(pat: Pattern, alphabet: string, password: string)
    requires forall c :: Matches(c, pat) <==> c in alphabet
    ensures Test(pat, password) <==> UsesAlphabet(password, alphabet)
  {
    if Test(pat, password) {
      var i :| 0 <= i < |password| && Matches(password[i], pat);
      assert password[i] in alphabet;
    }
    if UsesAlphabet(password, alphabet) {
      var i :| 0 <= i < |password| && password[i] in alphabet;
      assert Matches(password[i], pat);
    }
  }

  /** With the intended symbol test and includeSymbols set, the count is the
      number of the generator's alphabets the password draws on. */
  lemma IntendedCountsAlphabetsUsed(password: string)
    ensures CriteriaMet(password, true, SymbolsIntended) == AlphabetsUsed(password)
  {
    forall c ensures Matches(c, LowerLetters) <==> c in Lower { LowerIsRange(c); }
    forall c ensures Matches(c, UpperLetters) <==> c in Upper { UpperIsRange(c); }
    forall c ensures Matches(c, DecimalDigits) <==> c in Digits { DigitsIsRange(c); }
    TestIsUse(LowerLetters, Lower, password);
    TestIsUse(UpperLetters, Upper, password);
    TestIsUse(DecimalDigits, Digits, password);
    TestIsUse(SymbolsIntended, Symbols, password);
  }

  /** As written, "ABC" scores 2 while the intended test scores it 1 (it draws
      on the uppercase alphabet only). */
  lemma AsWrittenCreditsUppercaseTwice()
    ensures CriteriaMet("ABC", true, SymbolsAsWritten) == 2
    ensures CriteriaMet("ABC", true, SymbolsIntended) == 1
  {
    var p := "ABC";
    assert Matches(p[0], UpperLetters) && Matches(p[0], SymbolsAsWritten);
    assert !Test(LowerLetters, p) && !Test(DecimalDigits, p);
    assert !Test(SymbolsIntended, p) by {
      forall i | 0 <= i < |p| ensures !Matches(p[i], SymbolsIntended) {
        assert IsUpper(p[i]);
        if p[i] in Symbols { SymbolsAreNotAlphanumeric(p[i]); }
      }
    }
  }

  /** As written, "a-" scores 1 while the intended test scores it 2 (it draws
      on the lowercase and the symbol alphabets): '-' fails the class as written. */
  lemma AsWrittenMissesHyphen()
    ensures CriteriaMet("a-", true, SymbolsAsWritten) == 1
    ensures CriteriaMet("a-", true, SymbolsIntended) == 2
  {
    var q := "a-";
    assert Matches(q[0], LowerLetters) && Matches(q[1], SymbolsIntended);
    assert !Test(UpperLetters, q) && !Test(DecimalDigits, q);
    assert !Test(SymbolsAsWritten, q) by {
      forall i | 0 <= i < |q| ensures !Matches(q[i], SymbolsAsWritten) {
        assert q[i] == 'a' || q[i] == '-';
      }
    }
  }
}
