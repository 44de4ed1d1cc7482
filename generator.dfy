/** generatePassword (index.js:113-144): a charset is assembled from the
    selected alphabets, then `length` characters are drawn from it. */
module Generator {
  import opened Wrappers
  import opened Alphabets

  /** `if (flag) { charset += alphabet; }` */
  function AppendIf(charset: string, flag: bool, alphabet: string): (r: string)
    ensures |r| == |charset| + Flag(flag) * |alphabet|
  {
    if flag then charset + alphabet else charset
  }

  /** The charset of index.js:114-130: the selected alphabets, in the order
      lowercase, uppercase, digits, symbols (the parameters keep the source's
      order, which puts uppercase first). */
  function Charset(includeUpper: bool, includeLower: bool, includeNumbers: bool, includeSymbols: bool): (cs: string)
    ensures |cs| == 26 * Flag(includeLower) + 26 * Flag(includeUpper) + 10 * Flag(includeNumbers) + 13 * Flag(includeSymbols)
    ensures cs == [] <==> !(includeUpper || includeLower || includeNumbers || includeSymbols)
  {
    AppendIf(AppendIf(AppendIf(AppendIf("", includeLower, Lower), includeUpper, Upper), includeNumbers, Digits), includeSymbols, Symbols)
  }

  /** A character is in the charset exactly when it belongs to a selected class. */
  lemma CharsetMembers(includeUpper: bool, includeLower: bool, includeNumbers: bool, includeSymbols: bool, c: char)
    ensures c in Charset(includeUpper, includeLower, includeNumbers, includeSymbols) <==>
      (includeLower && IsLower(c)) || (includeUpper && IsUpper(c)) ||
      (includeNumbers && IsDigit(c)) || (includeSymbols && c in Symbols)
  {
    LowerIsRange(c);
    UpperIsRange(c);
    DigitsIsRange(c);
  }

  /** The selected alphabets sit in the charset one after the other, in the
      order lowercase, uppercase, digits, symbols. */
  lemma CharsetOrder(includeUpper: bool, includeLower: bool, includeNumbers: bool, includeSymbols: bool)
    ensures Charset(includeUpper, includeLower, includeNumbers, includeSymbols) ==
      (if includeLower then Lower else "") + (if includeUpper then Upper else "") +
      (if includeNumbers then Digits else "") + (if includeSymbols then Symbols else "")
  {
    var l := if includeLower then Lower else "";
    assert AppendIf("", includeLower, Lower) == l;
  }

  /** Drawing only indices below |a| from `a + b` picks from `a` alone. */
  lemma PickPrefix(a: string, b: string, idx: seq<nat>)
    requires IndicesBelow(idx, |a|)
    ensures IndicesBelow(idx, |a + b|)
    ensures Pick(a + b, idx) == Pick(a, idx)
  {
    var p, q := Pick(a + b, idx), Pick(a, idx);
    forall i | 0 <= i < |idx| ensures p[i] == q[i] {
      assert (a + b)[idx[i]] == a[idx[i]];
    }
  }

  /** Every index lies in [0, n). */
  predicate IndicesBelow(idx: seq<nat>, n: nat) {
    forall i | 0 <= i < |idx| :: idx[i] < n
  }

  /** The password built by appending `cs.charAt(idx[i])` for each drawn index
      in turn (index.js:138-141). */
  function Pick(cs: string, idx: seq<nat>): (pw: string)
    requires IndicesBelow(idx, |cs|)
    ensures |pw| == |idx|
    ensures forall i | 0 <= i < |idx| :: pw[i] == cs[idx[i]]
    decreases |idx|
  {
    if idx == [] then "" else Pick(cs, idx[..|idx| - 1]) + [cs[idx[|idx| - 1]]]
  }

  /** `pw` holds, position by position, the characters of `cs` at the drawn
      indices. */
  predicate DrawnFrom(pw: string, cs: string, draws: seq<nat>) {
    |pw| == |draws| &&
    forall i | 0 <= i < |draws| :: draws[i] < |cs| && pw[i] == cs[draws[i]]
  }

  /** A password drawn from a charset uses only characters of that charset. */
  lemma DrawnFromWithin(pw: string, cs: string, draws: seq<nat>)
    requires DrawnFrom(pw, cs, draws)
    ensures forall c | c in pw :: c in cs
  {
    forall c | c in pw ensures c in cs {
      var i :| 0 <= i < |pw| && pw[i] == c;
      assert cs[draws[i]] == c;
    }
  }

  /** The number of iterations of the loop `for (i = 0; i < length; i++)`. */
  function Iterations(length: int): nat { if length > 0 then length else 0 }

  /** The first half of generatePassword (index.js:114-130): `charset` starts
      empty and each selected alphabet is appended with `+=`. */
  method BuildCharset(includeUpper: bool, includeLower: bool, includeNumbers: bool, includeSymbols: bool)
    returns (charset: string)
    ensures charset == Charset(includeUpper, includeLower, includeNumbers, includeSymbols)
  {
    charset := "";
    if includeLower {
      charset := charset + Lower;
    }
    assert charset == AppendIf("", includeLower, Lower);
    ghost var step := charset;
    if includeUpper {
      charset := charset + Upper;
    }
    assert charset == AppendIf(step, includeUpper, Upper);
    step := charset;
    if includeNumbers {
      charset := charset + Digits;
    }
    assert charset == AppendIf(step, includeNumbers, Digits);
    step := charset;
    if includeSymbols {
      charset := charset + Symbols;
    }
    assert charset == AppendIf(step, includeSymbols, Symbols);
  }

  /** A generated password together with the random indices it was drawn with. */
  datatype Drawn = Drawn(password: string, draws: seq<nat>)

  /** The second half of generatePassword (index.js:136-143): `length` times,
      a random index below the charset's length is drawn and the character at
      that index is appended. Each `Math.floor(Math.random() * charset.length)`
      is an arbitrary index below the length; the indices drawn are returned
      beside the password so that the contract can name them. */
  method DrawPassword(charset: string, length: int) returns (r: Drawn)
    requires charset != ""
    ensures |r.draws| == Iterations(length) && IndicesBelow(r.draws, |charset|)
    ensures |r.password| == Iterations(length)
    ensures DrawnFrom(r.password, charset, r.draws) && r.password == Pick(charset, r.draws)
  {
    var password := "";
    var draws := [];
    var i := 0;
    while i < length
      invariant 0 <= i && (i <= length || i == 0)
      invariant |draws| == i && IndicesBelow(draws, |charset|)
      invariant password == Pick(charset, draws)
    {
      var randomIndex: nat :| randomIndex < |charset|;
      ghost var before := draws;
      password := password + [charset[randomIndex]];
      draws := draws + [randomIndex];
      assert draws[..|draws| - 1] == before;
      i := i + 1;
    }
    r := Drawn(password, draws);
  }

  /** generatePassword: `null` (`None`) when no class is selected, otherwise
      `length` characters drawn from the charset. */
  method GeneratePassword(length: int, includeUpper: bool, includeLower: bool, includeNumbers: bool, includeSymbols: bool)
    returns (result: Option<Drawn>)
    ensures result.None? <==> !(includeUpper || includeLower || includeNumbers || includeSymbols)
    ensures result.Some? ==>
      var cs := Charset(includeUpper, includeLower, includeNumbers, includeSymbols);
      var r := result.value;
      |r.draws| == Iterations(length) && IndicesBelow(r.draws, |cs|) &&
      |r.password| == Iterations(length) &&
      DrawnFrom(r.password, cs, r.draws) && r.password == Pick(cs, r.draws)
  {
    var charset := BuildCharset(includeUpper, includeLower, includeNumbers, includeSymbols);
    if charset == "" {
      return None;
    }
    var r := DrawPassword(charset, length);
    result := Some(r);
  }

  /** With only the lowercase flag, the charset is the lowercase alphabet. */
  lemma CharsetOnlyLower()
    ensures Charset(false, true, false, false) == Lower
  {
    assert AppendIf("", true, Lower) == Lower;
  }

  /** With only the uppercase and symbol flags, the charset is the uppercase
      alphabet followed by the symbols. */
  lemma CharsetUpperAndSymbols()
    ensures Charset(true, false, false, true) == Upper + Symbols
  {
    assert AppendIf("", true, Upper) == Upper;
  }
}
