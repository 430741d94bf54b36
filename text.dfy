/** The string operations the message handler applies to an inbound body:
    Python's `str.strip()`, `str.lower()` and `str.capitalize()`, and the
    decimal rendering an f-string gives an integer. */
module Text {

  /** Python's `str.isspace()`: the code points of bidirectional class WS, B
      or S, or of general category Zs. */
  predicate IsSpace(c: char) {
    || ('\t' <= c <= '\r')            // tab, line feed, vertical tab, form feed, carriage return
    || ('\U{1C}' <= c <= ' ')          // file, group, record and unit separators; space
    || c == '\U{85}' || c == '\U{A0}' || c == '\U{1680}'
    || ('\U{2000}' <= c <= '\U{200A}')
    || c == '\U{2028}' || c == '\U{2029}' || c == '\U{202F}' || c == '\U{205F}' || c == '\U{3000}'
  }

  /** Drops the leading whitespace. */
  function TrimStart(s: string): string {
    if s != [] && IsSpace(s[0]) then TrimStart(s[1..]) else s
  }

  /** Drops the trailing whitespace. */
  function TrimEnd(s: string): string {
    if s != [] && IsSpace(s[|s| - 1]) then TrimEnd(s[..|s| - 1]) else s
  }

  /** Python's `str.strip()` with no argument. */
  function Strip(s: string): string {
    TrimEnd(TrimStart(s))
  }

  lemma DropAfterFirst<T>(s: seq<T>, n: nat)
    requires 1 + n <= |s|
    ensures s[1..][n..] == s[n + 1..]
  {
  }

  /** What `TrimStart` leaves is a suffix of `s` that is empty or starts with
      a non-space, and everything it dropped is space. */
  lemma {:induction false} TrimStartSpec(s: string)
    ensures var r := TrimStart(s);
      && |r| <= |s| && r == s[|s| - |r|..]
      && (forall j | 0 <= j < |s| - |r| :: IsSpace(s[j]))
      && (r == [] || !IsSpace(r[0]))
  {
    if s != [] && IsSpace(s[0]) {
      var r := TrimStart(s[1..]);
      TrimStartSpec(s[1..]);
      DropAfterFirst(s, |s| - 1 - |r|);
      forall j | 0 <= j < |s| - |r| ensures IsSpace(s[j]) {
        if j > 0 {
          assert s[j] == s[1..][j - 1];
        }
      }
    }
  }

  /** What `TrimEnd` leaves is a prefix of `s` that is empty or ends with a
      non-space, and everything it dropped is space. */
  lemma {:induction false} TrimEndSpec(s: string)
    ensures var r := TrimEnd(s);
      && |r| <= |s| && r == s[..|r|]
      && (forall j | |r| <= j < |s| :: IsSpace(s[j]))
      && (r == [] || !IsSpace(r[|r| - 1]))
  {
    if s != [] && IsSpace(s[|s| - 1]) {
      var p := s[..|s| - 1];
      var r := TrimEnd(p);
      TrimEndSpec(p);
      assert p[..|r|] == s[..|r|];
      forall j | |r| <= j < |s| ensures IsSpace(s[j]) {
        if j < |s| - 1 {
          assert s[j] == p[j];
        }
      }
    }
  }

  /** `strip()` leaves the slice of `s` between its leading and its trailing
      whitespace: everything before and after the slice is space, and the
      slice neither starts nor ends with space. */
  lemma StripSpec(s: string)
    ensures var r := Strip(s); var a := |s| - |TrimStart(s)|;
      && 0 <= a && a + |r| <= |s| && r == s[a..a + |r|]
      && (forall j | 0 <= j < a :: IsSpace(s[j]))
      && (forall j | a + |r| <= j < |s| :: IsSpace(s[j]))
      && (r == [] || (!IsSpace(r[0]) && !IsSpace(r[|r| - 1])))
  {
    var t := TrimStart(s);
    TrimStartSpec(s);
    TrimEndSpec(t);
    var r := TrimEnd(t);
    var a := |s| - |t|;
    assert r == s[a..a + |r|];
    forall j | a + |r| <= j < |s| ensures IsSpace(s[j]) {
      assert s[j] == t[j - a];
    }
    if r != [] {
      assert r[0] == t[0];
    }
  }

  /** Lower-cases one character as `str.lower()` does for every character
      whose lower case is ASCII: the letters A-Z and the Kelvin sign. */
  function LowerChar(c: char): char {
    if 'A' <= c <= 'Z' then (c as int + 32) as char
    else if c == '\U{212A}' then 'k'
    else c
  }

  /** Upper-cases the ASCII letters a-z (the title case of the first
      character in `str.capitalize()`). */
  function TitleChar(c: char): char {
    if 'a' <= c <= 'z' then (c as int - 32) as char else c
  }

  /** `str.lower()`, character by character. */
  function Lower(s: string): (r: string)
    ensures |r| == |s|
  {
    seq(|s|, j requires 0 <= j < |s| => LowerChar(s[j]))
  }

  /** `str.capitalize()`: the first character in title case, the rest lower case. */
  function Capitalize(s: string): (r: string)
    ensures |r| == |s|
  {
    if s == [] then [] else [TitleChar(s[0])] + Lower(s[1..])
  }

  /** `c` is one of the characters that `lower()` turns into `l`: `l`
      itself, its ASCII capital, or the Kelvin sign for `k`. */
  predicate CaseVariant(c: char, l: char) {
    || c == l
    || ('a' <= l <= 'z' && c as int == l as int - 32)
    || (l == 'k' && c == '\U{212A}')
  }

  /** A text that has no capital letters and no Kelvin sign, such as the
      command words the handler compares against. */
  predicate LowerCaseText(w: string) {
    forall j | 0 <= j < |w| :: !('A' <= w[j] <= 'Z') && w[j] != '\U{212A}'
  }

  /** A text lower-cases to a command exactly when it has the command's
      length and each of its characters is a case variant of the command's
      character there: "BOOK RIDE", "Book Ride" and "book ride" all match. */
  lemma LowerMatches(s: string, w: string)
    requires LowerCaseText(w)
    ensures Lower(s) == w <==> |s| == |w| && forall j | 0 <= j < |s| :: CaseVariant(s[j], w[j])
  {
  }

  /** The words the handler compares a capitalised body against: an ASCII
      capital other than K, then lower-case ASCII letters. */
  predicate CapitalWord(word: string) {
    |word| >= 1 && 'A' <= word[0] <= 'Z' && word[0] != 'K'
    && forall j | 1 <= j < |word| :: 'a' <= word[j] <= 'z'
  }

  lemma CapitalizeToWord(s: string, word: string)
    requires CapitalWord(word) && Capitalize(s) == word
    ensures Lower(s) == Lower(word)
  {
    forall j | 0 <= j < |s| ensures Lower(s)[j] == Lower(word)[j] {
      if j > 0 {
        assert Capitalize(s)[j] == Lower(s[1..])[j - 1];
      }
    }
  }

  lemma LowerToWord(s: string, word: string)
    requires CapitalWord(word) && Lower(s) == Lower(word)
    ensures Capitalize(s) == word
  {
    assert |s| == |word|;
    forall j | 0 <= j < |s| ensures Capitalize(s)[j] == word[j] {
      assert Lower(s)[j] == Lower(word)[j];
      if j > 0 {
        assert Capitalize(s)[j] == Lower(s[1..])[j - 1];
      }
    }
  }

  /** A word matches after `capitalize()` exactly when it matches after
      `lower()`: the comparison is case-insensitive. */
  lemma CapitalizeMatchesLower(s: string, word: string)
    requires CapitalWord(word)
    ensures Capitalize(s) == word <==> Lower(s) == Lower(word)
  {
    if Capitalize(s) == word { CapitalizeToWord(s, word); }
    if Lower(s) == Lower(word) { LowerToWord(s, word); }
  }

  function DigitChar(d: nat): (c: char)
    requires d < 10
    ensures '0' <= c <= '9'
  {
    ['0', '1', '2', '3', '4', '5', '6', '7', '8', '9'][d]
  }

  /** The decimal digits of `n`, most significant first, with no leading zero. */
  function NatToString(n: nat): (r: string)
    ensures |r| >= 1 && (r[0] == '0' <==> n == 0)
    ensures forall j | 0 <= j < |r| :: '0' <= r[j] <= '9'
    decreases n
  {
    if n < 10 then [DigitChar(n)] else NatToString(n / 10) + [DigitChar(n % 10)]
  }

  /** How an f-string renders an int: a minus sign, then the digits. */
  function IntToString(i: int): (r: string)
    ensures |r| >= 1 && (r[0] == '-' <==> i < 0)
  {
    if i < 0 then "-" + NatToString(-i) else NatToString(i)
  }

  /** Reads back the digits `NatToString` writes. */
  function ParseNat(s: string): nat
    requires forall j | 0 <= j < |s| :: '0' <= s[j] <= '9'
  {
    if s == [] then 0 else 10 * ParseNat(s[..|s| - 1]) + (s[|s| - 1] as int - '0' as int)
  }

  /** The decimal rendering loses nothing: parsing it gives the number back. */
  lemma {:induction false} NatToStringRoundTrip(n: nat)
    ensures ParseNat(NatToString(n)) == n
    decreases n
  {
    if n >= 10 {
      var r := NatToString(n);
      NatToStringRoundTrip(n / 10);
      assert r[..|r| - 1] == NatToString(n / 10);
    }
  }
}
