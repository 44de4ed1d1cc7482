/** Option type standing for the source's `null` returns. */
module Wrappers {
  datatype Option<+T> = None | Some(value: T)
}

/** The four fixed alphabets that generatePassword appends to its charset
    (index.js:117, 121, 125, 129), and the character ranges used by the
    strength regular expressions (index.js:148-150). */
module Alphabets {
  const Lower: string := "abcdefghijklmnopqrstuvwxyz"
  const Upper: string := "ABCDEFGHIJKLMNOPQRSTUVWXYZ"
  const Digits: string := "1234567890"
  const Symbols: string := "+!?@#%&().:-_"

  /** `[a-z]` */
  predicate IsLower(c: char) { 'a' <= c <= 'z' }
  /** `[A-Z]` */
  predicate IsUpper(c: char) { 'A' <= c <= 'Z' }
  /** `\d` */
  predicate IsDigit(c: char) { '0' <= c <= '9' }

  /** 1 for a set flag or a passed test, 0 otherwise. */
  function Flag(b: bool): nat { if b then 1 else 0 }

  /** Each alphabet literal holds exactly the characters of its range. */
  lemma LowerIsRange(c: char)
    ensures c in Lower <==> IsLower(c)
  {
    if IsLower(c) {
      var k := c as int - 'a' as int;
      assert Lower[k] == c;
    }
  }

  lemma UpperIsRange(c: char)
    ensures c in Upper <==> IsUpper(c)
  {
    if IsUpper(c) {
      var k := c as int - 'A' as int;
      assert Upper[k] == c;
    }
  }

  lemma DigitsIsRange(c: char)
    ensures c in Digits <==> IsDigit(c)
  {
    if IsDigit(c) {
      var k := if c == '0' then 9 else c as int - '1' as int;
      assert Digits[k] == c;
    }
  }

  /** No symbol of the generator's symbol alphabet is a letter or a digit. */
  lemma SymbolsAreNotAlphanumeric(c: char)
    requires c in Symbols
    ensures !IsLower(c) && !IsUpper(c) && !IsDigit(c)
  {
  }
}
