/** The string operations the pipeline relies on, over ASCII:
    `str.lower`, `str.title`, the substring test `in`, and the decimal
    form of an integer (`str(n)`). */
module Text {

  predicate IsUpper(c: char) { 'A' <= c <= 'Z' }
  predicate IsLowerLetter(c: char) { 'a' <= c <= 'z' }
  /** A cased character in the sense of `str.title` (ASCII letters). */
  predicate IsLetter(c: char) { IsUpper(c) || IsLowerLetter(c) }
  predicate IsDigit(c: char) { '0' <= c <= '9' }

  function ToLowerChar(c: char): char {
    if IsUpper(c) then (c as int + 32) as char else c
  }

  function ToUpperChar(c: char): char {
    if IsLowerLetter(c) then (c as int - 32) as char else c
  }

  /** `s.lower()` */
  function Lower(s: string): string {
    if s == [] then [] else [ToLowerChar(s[0])] + Lower(s[1..])
  }

  /** `s.title()` on the rest of a string whose previous character was a
      letter (`afterLetter`) or not. */
  function TitleAfter(s: string, afterLetter: bool): string {
    if s == [] then []
    else [if afterLetter then ToLowerChar(s[0]) else ToUpperChar(s[0])] + TitleAfter(s[1..], IsLetter(s[0]))
  }

  /** `s.title()`: every letter that follows a non-letter (or starts the
      string) is upper case, every other letter lower case. */
  function Title(s: string): string {
    TitleAfter(s, false)
  }

  predicate StartsWith(s: string, prefix: string) {
    |prefix| <= |s| && s[..|prefix|] == prefix
  }

  /** `sub in s` */
  predicate Contains(s: string, sub: string) {
    StartsWith(s, sub) || (s != [] && Contains(s[1..], sub))
  }

  function DigitChar(d: nat): (c: char)
    requires d < 10
    ensures IsDigit(c)
  {
    ('0' as int + d) as char
  }

  /** `str(n)` for a natural number: decimal digits, no leading zero. */
  function NatToString(n: nat): (r: string)
    ensures |r| >= 1
    ensures forall i :: 0 <= i < |r| ==> IsDigit(r[i])
    ensures n > 0 ==> r[0] != '0'
    ensures n < 10 <==> |r| == 1
  {
    if n < 10 then [DigitChar(n)] else NatToString(n / 10) + [DigitChar(n % 10)]
  }

  /** `str(i)` for an integer. */
  function IntToString(i: int): string {
    if i < 0 then "-" + NatToString(-i) else NatToString(i)
  }

  /** The number a string of decimal digits denotes. */
  function DigitsValue(s: string): nat
    requires forall i :: 0 <= i < |s| ==> IsDigit(s[i])
  {
    if s == [] then 0
    else
      assert IsDigit(s[|s| - 1]);
      DigitsValue(s[..|s| - 1]) * 10 + (s[|s| - 1] as int - '0' as int)
  }

  // ---------------------------------------------------------------------
  // Laws

  /** Parsing the decimal form of `n` gives back `n`. */
  lemma {:induction false} NatToStringRoundTrip(n: nat)
    ensures DigitsValue(NatToString(n)) == n
  {
    if n >= 10 {
      NatToStringRoundTrip(n / 10);
      var r := NatToString(n);
      assert r[..|r|-1] == NatToString(n / 10);
    }
  }

  /** Distinct integers have distinct decimal forms. */
  lemma IntToStringInjective(a: int, b: int)
    requires IntToString(a) == IntToString(b)
    ensures a == b
  {
    SignOfString(a);
    SignOfString(b);
    if a < 0 {
      assert b < 0;
      NatToStringInjective(-a, -b);
    } else {
      assert b >= 0;
      NatToStringInjective(a, b);
    }
  }

  lemma NatToStringInjective(m: nat, n: nat)
    requires NatToString(m) == NatToString(n)
    ensures m == n
  {
    NatToStringRoundTrip(m);
    NatToStringRoundTrip(n);
  }

  /** `str(i)` starts with a minus sign exactly when `i` is negative. */
  lemma SignOfString(i: int)
    ensures |IntToString(i)| >= 1
    ensures IntToString(i)[0] == '-' <==> i < 0
    ensures i < 0 ==> IntToString(i)[1..] == NatToString(-i)
  {
    if i >= 0 {
      assert IsDigit(NatToString(i)[0]);
    }
  }

  /** Lower-casing a title-cased string gives the lower-cased original. */
  lemma {:induction false} LowerOfTitleAfter(s: string, afterLetter: bool)
    ensures Lower(TitleAfter(s, afterLetter)) == Lower(s)
  {
    if s != [] {
      LowerOfTitleAfter(s[1..], IsLetter(s[0]));
      assert TitleAfter(s, afterLetter)[1..] == TitleAfter(s[1..], IsLetter(s[0]));
    }
  }

  /** `s.title().lower() == s.lower()`: title-casing only changes case. */
  lemma LowerOfTitle(s: string)
    ensures Lower(Title(s)) == Lower(s)
    ensures |Title(s)| == |s|
  {
    LowerOfTitleAfter(s, false);
    TitleLength(s, false);
  }

  lemma {:induction false} TitleLength(s: string, afterLetter: bool)
    ensures |TitleAfter(s, afterLetter)| == |s|
  {
    if s != [] { TitleLength(s[1..], IsLetter(s[0])); }
  }

  lemma {:induction false} TitleAfterOfLower(s: string, afterLetter: bool)
    ensures TitleAfter(Lower(s), afterLetter) == TitleAfter(s, afterLetter)
  {
    if s != [] {
      TitleAfterOfLower(s[1..], IsLetter(s[0]));
      assert Lower(s)[1..] == Lower(s[1..]);
    }
  }

  /** `s.lower().title() == s.title()`. */
  lemma TitleOfLower(s: string)
    ensures Title(Lower(s)) == Title(s)
  {
    TitleAfterOfLower(s, false);
  }

  /** `sub` occurs in `s` at position `i`. */
  ghost predicate OccursAt(s: string, sub: string, i: nat) {
    i + |sub| <= |s| && s[i..i + |sub|] == sub
  }

  /** `Contains` is the substring relation. */
  lemma {:induction false} ContainsIff(s: string, sub: string)
    ensures Contains(s, sub) <==> exists i: nat :: OccursAt(s, sub, i)
  {
    if s == [] {
      if Contains(s, sub) {
        assert OccursAt(s, sub, 0);
      }
    } else {
      ContainsIff(s[1..], sub);
      if Contains(s, sub) {
        if StartsWith(s, sub) {
          assert OccursAt(s, sub, 0);
        } else {
          var i: nat :| OccursAt(s[1..], sub, i);
          assert s[1..][i..i + |sub|] == s[i + 1..i + 1 + |sub|];
          assert OccursAt(s, sub, i + 1);
        }
      }
      if exists i: nat :: OccursAt(s, sub, i) {
        var i: nat :| OccursAt(s, sub, i);
        if i > 0 {
          assert s[1..][i - 1..i - 1 + |sub|] == s[i..i + |sub|];
          assert OccursAt(s[1..], sub, i - 1);
        } else {
          assert StartsWith(s, sub);
        }
      }
    }
  }

  /** A string containing `outer` contains every substring of `outer`. */
  lemma ContainsTransitive(s: string, outer: string, sub: string, j: nat)
    requires Contains(s, outer)
    requires OccursAt(outer, sub, j)
    ensures Contains(s, sub)
  {
    ContainsIff(s, outer);
    var i: nat :| OccursAt(s, outer, i);
    assert forall k :: 0 <= k < |sub| ==> sub[k] == outer[j + k] == s[i + j + k];
    assert s[i + j..i + j + |sub|] == sub;
    assert OccursAt(s, sub, i + j);
    ContainsIff(s, sub);
  }
}
