/** Text primitives the health checker relies on: `str.lower()`, the
    substring test `p in s`, and `str(n)` for integers together with its
    inverse. Strings are sequences of characters. */
module Strings {

  datatype Option<+T> = None | Some(value: T)

  // ---------------------------------------------------------------------
  // Lower-casing

  /** Lower-cases one character; only the ASCII letters 'A'..'Z' change. */
  function LowerChar(c: char): char {
    if 'A' <= c <= 'Z' then (c as int - 'A' as int + 'a' as int) as char else c
  }

  predicate IsUpper(c: char) {
    'A' <= c <= 'Z'
  }

  /** `s.lower()`, character by character: every upper-case letter becomes
      its lower-case partner, every other character is kept. */
  function Lower(s: string): (r: string)
    ensures |r| == |s|
    ensures forall i :: 0 <= i < |s| ==> !IsUpper(r[i])
    ensures forall i :: 0 <= i < |s| && !IsUpper(s[i]) ==> r[i] == s[i]
    ensures forall i :: 0 <= i < |s| && IsUpper(s[i]) ==> r[i] as int == s[i] as int + 32
  {
    seq(|s|, i requires 0 <= i < |s| => LowerChar(s[i]))
  }

  /** Lower-casing a lower-cased text changes nothing. */
  lemma LowerIdempotent(s: string)
    ensures Lower(Lower(s)) == Lower(s)
  {
    var r := Lower(s);
    assert forall i :: 0 <= i < |r| ==> Lower(r)[i] == r[i];
  }

  /** Lower-casing commutes with taking a slice. */
  lemma LowerSlice(s: string, i: int, j: int)
    requires 0 <= i <= j <= |s|
    ensures Lower(s)[i..j] == Lower(s[i..j])
  {
  }

  // ---------------------------------------------------------------------
  // Substrings

  /** `p` occurs in `s` starting at index `i`. */
  ghost predicate OccursAt(s: string, p: string, i: int) {
    0 <= i && i + |p| <= |s| && s[i..i + |p|] == p
  }

  /** `p in s`, stated as the existence of a position. */
  ghost predicate Occurs(s: string, p: string) {
    exists i :: OccursAt(s, p, i)
  }

  /** The window of `s` at `i` equals `p` once lower-cased. */
  ghost predicate MatchesIgnoringCaseAt(s: string, p: string, i: int) {
    0 <= i && i + |p| <= |s| && Lower(s[i..i + |p|]) == p
  }

  /** Some window of `s` spells `p` when case is ignored. */
  ghost predicate OccursIgnoringCase(s: string, p: string) {
    exists i :: MatchesIgnoringCaseAt(s, p, i)
  }

  /** When `p` is not a prefix of a non-empty `s`, it occurs in `s` exactly
      when it occurs in `s` without its first character. */
  lemma OccursStep(s: string, p: string)
    requires |s| > 0
    requires !(|p| <= |s| && s[..|p|] == p)
    ensures Occurs(s, p) <==> Occurs(s[1..], p)
  {
    if Occurs(s, p) {
      var i :| OccursAt(s, p, i);
      assert i != 0;
      assert s[1..][i - 1..i - 1 + |p|] == s[i..i + |p|];
      assert OccursAt(s[1..], p, i - 1);
    }
    if Occurs(s[1..], p) {
      var j :| OccursAt(s[1..], p, j);
      assert s[1..][j..j + |p|] == s[j + 1..j + 1 + |p|];
      assert OccursAt(s, p, j + 1);
    }
  }

  /** The substring test `p in s`, scanning `s` from the left. */
  function Contains(s: string, p: string): (b: bool)
    ensures b <==> Occurs(s, p)
    decreases |s|
  {
    if |p| <= |s| && s[..|p|] == p then
      assert OccursAt(s, p, 0);
      true
    else if |s| == 0 then
      false
    else
      OccursStep(s, p);
      Contains(s[1..], p)
  }

  /** Testing a lower-cased text for `p` is a case-insensitive search for `p`
      in the original text. */
  lemma LowerOccurs(s: string, p: string)
    ensures Occurs(Lower(s), p) <==> OccursIgnoringCase(s, p)
  {
    if Occurs(Lower(s), p) {
      var i :| OccursAt(Lower(s), p, i);
      LowerSlice(s, i, i + |p|);
      assert MatchesIgnoringCaseAt(s, p, i);
    }
    if OccursIgnoringCase(s, p) {
      var i :| MatchesIgnoringCaseAt(s, p, i);
      LowerSlice(s, i, i + |p|);
      assert OccursAt(Lower(s), p, i);
    }
  }

  /** A case-insensitive occurrence survives putting text before and after. */
  lemma MatchesInContext(a: string, s: string, b: string, p: string, i: int)
    requires MatchesIgnoringCaseAt(s, p, i)
    ensures MatchesIgnoringCaseAt(a + s + b, p, |a| + i)
  {
    assert (a + s + b)[|a| + i..|a| + i + |p|] == s[i..i + |p|];
  }

  /** A text lacking one of the characters of `p` does not contain `p`. */
  lemma AbsentCharPreventsOccurrence(s: string, p: string, c: char)
    requires c in p && c !in s
    ensures !Occurs(s, p)
  {
    forall i
      ensures !OccursAt(s, p, i)
    {
      if 0 <= i && i + |p| <= |s| {
        var k :| 0 <= k < |p| && p[k] == c;
        assert s[i..i + |p|][k] == s[i + k];
        assert s[i + k] in s;
      }
    }
  }

  // ---------------------------------------------------------------------
  // Decimal numerals

  predicate IsDigit(c: char) {
    '0' <= c <= '9'
  }

  predicate AllDigits(s: string) {
    forall i :: 0 <= i < |s| ==> IsDigit(s[i])
  }

  function DigitChar(d: nat): char
    requires d < 10
  {
    ('0' as int + d) as char
  }

  function DigitValue(c: char): nat
    requires IsDigit(c)
  {
    c as int - '0' as int
  }

  /** A non-empty string of digits without a leading zero. */
  predicate CanonicalDigits(s: string) {
    |s| > 0 && AllDigits(s) && (|s| > 1 ==> s[0] != '0')
  }

  /** The form `str(i)` has: canonical digits, negated unless they are "0". */
  predicate CanonicalNumeral(s: string) {
    || CanonicalDigits(s)
    || (|s| > 1 && s[0] == '-' && CanonicalDigits(s[1..]) && s[1..] != "0")
  }

  /** The decimal numeral of `n`, most significant digit first, without
      leading zeros. */
  function NatToDigits(n: nat): (s: string)
    ensures |s| > 0 && AllDigits(s)
    ensures |s| > 1 ==> s[0] != '0'
    decreases n
  {
    if n < 10 then [DigitChar(n)] else NatToDigits(n / 10) + [DigitChar(n % 10)]
  }

  /** `str(i)` for an integer `i`. */
  function IntToString(i: int): (s: string)
    ensures CanonicalNumeral(s)
  {
    if i < 0 then
      var digits := NatToDigits(-i);
      DigitsRoundTrip(-i);
      assert digits != "0";
      assert ("-" + digits)[1..] == digits;
      "-" + digits
    else NatToDigits(i)
  }

  /** The value of a string of digits. */
  function DigitsValue(s: string): nat
    requires AllDigits(s)
    decreases |s|
  {
    if s == [] then 0 else DigitsValue(s[..|s| - 1]) * 10 + DigitValue(s[|s| - 1])
  }

  /** Reads an optionally negated decimal numeral; anything else is `None`. */
  function ParseInt(s: string): Option<int> {
    if |s| > 1 && s[0] == '-' && AllDigits(s[1..]) then Some(-(DigitsValue(s[1..]) as int))
    else if |s| > 0 && AllDigits(s) then Some(DigitsValue(s))
    else None
  }

  lemma {:induction false} DigitsRoundTrip(n: nat)
    ensures DigitsValue(NatToDigits(n)) == n
  {
    if n >= 10 {
      var s := NatToDigits(n);
      assert s[..|s| - 1] == NatToDigits(n / 10);
      DigitsRoundTrip(n / 10);
    }
  }

  /** Reading back `str(i)` gives `i`: no two integers print alike. */
  lemma IntRoundTrip(i: int)
    ensures ParseInt(IntToString(i)) == Some(i)
  {
    if i < 0 {
      var s := IntToString(i);
      assert s[1..] == NatToDigits(-i);
      DigitsRoundTrip(-i);
    } else {
      DigitsRoundTrip(i);
    }
  }

  /** Canonical digits with a non-zero first digit have a positive value. */
  lemma {:induction false} LeadingDigitPositive(s: string)
    requires |s| > 0 && AllDigits(s) && s[0] != '0'
    ensures DigitsValue(s) > 0
    decreases |s|
  {
    if |s| > 1 {
      LeadingDigitPositive(s[..|s| - 1]);
    }
  }

  /** Canonical digits are the numeral of their own value. */
  lemma {:induction false} CanonicalDigitsUnique(s: string)
    requires CanonicalDigits(s)
    ensures s == NatToDigits(DigitsValue(s))
    decreases |s|
  {
    if |s| > 1 {
      var init := s[..|s| - 1];
      LeadingDigitPositive(init);
      CanonicalDigitsUnique(init);
      var n := DigitsValue(s);
      assert n / 10 == DigitsValue(init) && n % 10 == DigitValue(s[|s| - 1]);
      assert s == init + [s[|s| - 1]];
    }
  }

  /** A canonical numeral is `str` of the integer it reads as: together with
      `IntRoundTrip`, `str(i)` is the only canonical spelling of `i`. */
  lemma NumeralUnique(s: string)
    requires CanonicalNumeral(s)
    ensures ParseInt(s).Some? && s == IntToString(ParseInt(s).value)
  {
    if s[0] == '-' {
      var digits := s[1..];
      assert !IsDigit(s[0]);
      CanonicalDigitsUnique(digits);
      if |digits| > 1 {
        LeadingDigitPositive(digits);
      } else {
        assert digits == [digits[0]];
      }
      assert s == "-" + digits;
    } else {
      CanonicalDigitsUnique(s);
    }
  }

  /** A text that starts with a character other than '-' or a digit is not
      a numeral. */
  lemma NotANumeral(s: string)
    requires |s| > 0 && s[0] != '-' && !IsDigit(s[0])
    ensures ParseInt(s) == None
  {
    assert !AllDigits(s) by { assert !IsDigit(s[0]); }
  }
}
