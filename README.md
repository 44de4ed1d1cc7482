# pwgen: password generation and strength classification in Dafny

This project models the two routines of the `pwgen` page that hold its
password logic, both in `index.js`:

- `generatePassword(length, includeUpper, includeLower, includeNumbers, includeSymbols)`
  concatenates the selected alphabets into a charset, in the order lowercase,
  uppercase, the digits `1234567890`, then the symbols `+!?@#%&().:-_`. It
  returns `null` when no flag is set. Otherwise it appends `length` random
  characters of the charset to an initially empty password.
- `checkPasswordStrength(password, includeSymbols)` counts four presence tests
  (`/[a-z]/`, `/[A-Z]/`, `/\d/`, and `/[+!?@#%&().:-_]/` only when
  `includeSymbols`) and maps the count 0..4 to `null`, "weak", "medium",
  "good" and "great".

Files and modules:

- `alphabets.dfy`: `Wrappers` (the `Option` type that stands for `null`) and
  `Alphabets` (the four alphabet literals, the ranges `[a-z]`, `[A-Z]` and
  `\d`, and lemmas saying that each literal holds exactly its range).
- `generator.dfy`: `Generator`. `Charset` is the charset as a value.
  `BuildCharset` builds it imperatively with `+=`, as the source does.
  `DrawPassword` is the draw loop, and `Pick` is its specification
  function. `GeneratePassword` puts the two together.
- `strength.dfy`: `Strength`. The regular-expression classes are a
  `Pattern`, and `Test` is `RegExp.prototype.test`. `CriteriaMet` is the
  `filter(Boolean).length` count, and `CheckPasswordStrength` is the
  classifier.
- `update_password.dfy`: `UpdatePassword`, named after `updatePassword`
  (index.js:18-35), which classifies the generated password with the same
  `includeSymbols`. It holds lemmas about what the classifier says of
  passwords the generator can produce.

Randomness: each `Math.floor(Math.random() * charset.length)` is an
arbitrary index below the charset's length. In the method it is a `:|`
choice. `DrawPassword` returns the password together with the indices it
drew, as a `Drawn(password, draws)` value, so its contract can say that
character `i` of the password is `charset[draws[i]]`. `GeneratePassword`
returns `None` for `null` and otherwise `Some` of that value. The
lemmas about generated passwords range over every index sequence whose
indices are below the charset's length, so they hold whatever the random
source returns.

Two points where the code decides what the model does:

- The fourth test is evidently meant to find a character of the symbol
  alphabet of index.js:129, but the class `[+!?@#%&().:-_]` reads `:-_` as
  the range U+003A..U+005F, so it accepts every uppercase letter and
  `;<=>[\]^`, and it rejects `-`. `CheckPasswordStrength` uses the class as
  written; `CheckPasswordStrengthIntended` uses the 13 symbols. See
  "## Findings".
- `length` is `parseInt` of the `charLength` input's value (index.js:20).
  The code accepts any number, and a non-positive length gives `""`, so
  `GeneratePassword` takes any `int`.

Both routines are deterministic once the random indices are fixed. The
classifier is a Dafny function, so calling it twice on the same arguments
gives the same tier by construction.

## Model

| member | source | states |
|---|---|---|
| `Alphabets.LowerIsRange` | index.js:117 | the lowercase alphabet literal contains exactly the characters matched by `[a-z]` |
| `Alphabets.UpperIsRange` | index.js:121 | the uppercase alphabet literal contains exactly the characters matched by `[A-Z]` |
| `Alphabets.DigitsIsRange` | index.js:125 | the digit literal `1234567890` contains exactly the characters matched by `\d` |
| `Alphabets.SymbolsAreNotAlphanumeric` | index.js:129 | no character of the symbol alphabet is a lowercase letter, an uppercase letter or a digit |
| `Generator.Charset` | index.js:114-130 | the charset has 26·lower + 26·upper + 10·numbers + 13·symbols characters, and it is empty exactly when no flag is set |
| `Generator.CharsetMembers` | index.js:114-130 | a character is in the charset exactly when it belongs to a selected class |
| `Generator.CharsetOrder` | index.js:114-130 | the charset is the selected alphabets placed back to back, in the order lowercase, uppercase, digits, symbols |
| `Generator.CharsetOnlyLower` | index.js:114-130 | with only the lowercase flag set, the charset is the lowercase alphabet |
| `Generator.CharsetUpperAndSymbols` | index.js:114-130 | with only the uppercase and symbol flags set, the charset is the uppercase alphabet followed by the symbols |
| `Generator.BuildCharset` | index.js:114-130 | appending the selected alphabets with `+=` to an empty string produces exactly `Charset` |
| `Generator.Pick` | index.js:138-141 | appending `charset.charAt(r)` once for each drawn index `r` gives a password with one character per draw, and character `i` is `charset[r_i]` |
| `Generator.PickPrefix` | index.js:138-141 | drawing from `a + b` only indices that fall inside `a` picks the same password as drawing them from `a` |
| `Generator.DrawnFromWithin` | index.js:138-141 | a password that matches its draws position by position uses only characters of the charset |
| `Generator.DrawPassword` | index.js:136-143 | for a nonempty charset, the loop draws `max(length, 0)` in-range indices and returns the password with `charset[draws[i]]` at position `i`. That password is `Pick(charset, draws)` |
| `Generator.GeneratePassword` | index.js:113-144 | the result is `null` (`None`) exactly when all four flags are false. Otherwise the password has `max(length, 0)` characters, one per in-range draw, and character `i` is `charset[draws[i]]` for the charset of the selected flags |
| `Strength.Rank` | index.js:154-164 | the five results are ranked 0..4 in the order null < weak < medium < good < great, and rank 0 is exactly `null` |
| `Strength.RankInjective` | index.js:154-164 | two results are equal exactly when their ranks are equal |
| `Strength.CountTrue` | index.js:147-152 | the number of true criteria is at most the number of criteria. It is 0 exactly when none holds and is the full length exactly when all hold |
| `Strength.CountTrueOfFour` | index.js:147-152 | counting four criteria sums their 0/1 indicators |
| `Strength.CriteriaMet` | index.js:147-152 | `criteriaMet` is the sum of the four presence indicators, the fourth gated by `includeSymbols`. It lies in 0..4 and is at most 3 without `includeSymbols` |
| `Strength.TierOf` | index.js:154-164 | for a count in 0..4 the if-chain returns the result whose rank is that count, and any larger count gives "great" |
| `Strength.CheckPasswordStrength` | index.js:146-165 | the rank of the returned tier equals the number of criteria met, with the symbol class as written |
| `Strength.CheckPasswordStrengthIntended` | index.js:151 | the corrected classifier: its rank equals the number of criteria met when the symbol test is membership in the 13-character symbol alphabet |
| `Strength.TierTable` | index.js:154-164 | the result is null, "weak", "medium", "good" or "great" exactly when 0, 1, 2, 3 or 4 criteria are met, respectively |
| `Strength.NeverGreatWithoutSymbols` | index.js:151-163 | with `includeSymbols` false no password is ever "great" |
| `Strength.SymbolFlagMonotone` | index.js:151 | turning `includeSymbols` on never lowers the tier of a password |
| `Strength.SymbolClassAsWritten` | index.js:151 | the symbol class accepts exactly the ten listed characters, `:;<=>?@`, every uppercase letter and `[\]^_` |
| `Strength.SymbolAlphabetAgainstClass` | index.js:129-151 | of the 13 generator symbols, the class as written accepts every one except `-` |
| `Strength.UppercasePassesSymbolTest` | index.js:149-151 | a password with an uppercase letter passes the symbol test, so with `includeSymbols` it meets at least two criteria |
| `Strength.TestConcat` | index.js:148-151 | a presence test that holds of a string still holds after characters are added before or after it |
| `Strength.CriteriaMonotone` | index.js:147-152 | adding characters before or after a password never lowers its criteria count |
| `Strength.StrengthMonotone` | index.js:146-165 | adding characters before or after a password never lowers its tier |
| `Strength.ExampleLowercaseOnly` | index.js:146-165 | "abc" without symbols is "weak" |
| `Strength.ExampleMixedNoSymbols` | index.js:146-165 | "abcABC12" without symbols is "good" |
| `Strength.ExampleUppercaseWithSymbols` | index.js:146-165 | "ABC" with symbols is "medium", because its letters also pass the symbol test |
| `Strength.ExampleGreatWithoutSymbolCharacter` | index.js:146-165 | "aB1" with symbols is "great", although it holds none of the 13 symbols |
| `Strength.AlphabetsUsed` | index.js:114-130 | reference count for the corrected classifier: how many of the four generator alphabets the password draws on (at most 4); `IntendedCountsAlphabetsUsed` ties the classifier to it |
| `Strength.TestIsUse` | index.js:148-151 | a test whose class is exactly an alphabet holds exactly when the password uses that alphabet |
| `Strength.IntendedCountsAlphabetsUsed` | index.js:147-152 | with the intended symbol test and `includeSymbols`, the count is exactly the number of generator alphabets the password draws on |
| `Strength.AsWrittenCreditsUppercaseTwice` | index.js:151 | "ABC" meets 2 criteria as written but 1 with the intended test |
| `Strength.AsWrittenMissesHyphen` | index.js:151 | "a-" meets 1 criterion as written but 2 with the intended test |
| `UpdatePassword.GeneratedCharsFromSelectedClasses` | index.js:113-144 | every character of a password generated with some flags lies in a class whose flag is set |
| `UpdatePassword.CharsetCharClass` | index.js:114-130 | every letter or digit in the charset comes from a selected flag of its own class |
| `UpdatePassword.PickedCriteriaBounded` | index.js:138-152 | a password picked from a charset with no lowercase (uppercase, digit) characters while that flag is off meets at most as many criteria as flags are set |
| `UpdatePassword.GeneratedCriteriaAtMostSelected` | index.js:19-30 | a generated password, classified with the same `includeSymbols`, meets at most as many criteria as flags were set, under either symbol test |
| `UpdatePassword.AllLowercaseIsWeak` | index.js:146-165 | a nonempty all-lowercase password is "weak" whatever `includeSymbols` is |
| `UpdatePassword.AllUppercaseWithSymbols` | index.js:146-165 | a nonempty all-uppercase password classified with symbols is "medium" as written and "weak" with the intended test |
| `UpdatePassword.PickedLowercaseIsWeak` | index.js:138-165 | a nonempty password picked from a lowercase-only charset is "weak" |
| `UpdatePassword.OnlyLowercaseIsWeak` | index.js:113-165 | a nonempty password generated with only the lowercase flag is classified "weak" |
| `UpdatePassword.PickedUppercaseWithSymbols` | index.js:138-165 | a nonempty password picked from an uppercase-only charset, classified with symbols, is "medium" as written and "weak" with the intended test |
| `UpdatePassword.UppercaseDrawsWithSymbolsFlag` | index.js:113-165 | with the uppercase and symbol flags set, a password whose draws all land in the uppercase part is "medium" as written and "weak" with the intended test |
| `UpdatePassword.HyphenOnlyPasswordIsUnrated` | index.js:113-165 | the symbols-only flag can generate "-", which the classifier as written rates `null` |
| `UpdatePassword.IntendedRatesSelectedClass` | index.js:147-156 | with the intended test, a password whose first character is in a selected class is never rated `null` |
| `UpdatePassword.GeneratedIntendedIsRated` | index.js:113-165 | with the intended test, every nonempty generated password is rated at least "weak" |

## Left out

- DOM lookups, `initializePage`, `updatePassword`, the click and input listeners and `updateCharLength` (index.js:1-55): UI glue. The one call order they fix, classifying a generated password with the same `includeSymbols` flag, is what `UpdatePassword` assumes. The UI's own guard, which skips classification for an empty password, is not modelled.
- The clipboard copy through `document.execCommand("copy")` and `alert` (index.js:57-80): browser I/O.
- `updateStrengthIndicators` (index.js:82-111): it only sets styles and text.
- `Math.random()` and `Math.floor` (index.js:139): each draw is an arbitrary index below the charset's length. Floating point and the uniformity and independence of the draws are not modelled.
- `parseInt` of the slider value (index.js:20): `length` is an `int` parameter, so a `NaN` length is not modelled. `NaN` would give `""`, as a non-positive length does.
- JavaScript strings are UTF-16 code units and Dafny `char`s are Unicode scalar values. No character of the four character classes is a surrogate, so the presence tests agree on every string both can represent.
- The single JavaScript function generatePassword is three Dafny methods here, so the model does not keep it as one body. `BuildCharset` (lines 114-130) and `DrawPassword` (lines 136-143) are separate methods, and `GeneratePassword` calls them around the `null` check (lines 132-134). Verifying the charset assembly and the draw loop in one method body exceeds the solver's resource limit.

## Findings

| source | as written | input that shows it | evidently intended | confidence | as-written member | corrected member |
|---|---|---|---|---|---|---|
| index.js:151 | the class `[+!?@#%&().:-_]` reads `:-_` as the range U+003A..U+005F, so every uppercase letter (and `;<=>[\]^`) passes the symbol test | `checkPasswordStrength("ABC", true)` returns "medium" though "ABC" holds no symbol | the symbol test matches the 13 symbols the generator appends at index.js:129 | not executed | `Strength.AsWrittenCreditsUppercaseTwice` | `Strength.IntendedCountsAlphabetsUsed` |
| index.js:151 | the same class does not contain `-`, one of the generator's own symbols | `checkPasswordStrength("-", true)` returns `null` although "-" can be generated with the symbol flag | `-` counts as a symbol | not executed | `UpdatePassword.HyphenOnlyPasswordIsUnrated` | `UpdatePassword.GeneratedIntendedIsRated` |

`CheckPasswordStrength` keeps the class as written, because that is what the
page computes. `CheckPasswordStrengthIntended` is the corrected classifier.
The generator-side bound `GeneratedCriteriaAtMostSelected` is proved for
both symbol tests.
