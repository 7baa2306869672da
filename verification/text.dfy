/**
 String helpers the app relies on from the Swift standard library and
 Foundation: `lowercased()`, `contains(_:)`, `String(repeating:count:)` and
 integer interpolation `"\(n)"`. Strings are `seq<char>`; case mapping is
 the ASCII one.
 */
module Text {

  import opened Options

  // ---------------------------------------------------------------------------
  // Lower-casing
  // ---------------------------------------------------------------------------

  predicate IsUpper(c: char) { 'A' <= c <= 'Z' }

  function LowerChar(c: char): char
  {
    if IsUpper(c) then (c as int + 32) as char else c
  }

  /** `s.lowercased()`: every character mapped through `LowerChar`. */
  function Lower(s: string): (r: string)
    ensures |r| == |s|
    ensures forall i :: 0 <= i < |s| ==> r[i] == LowerChar(s[i])
    ensures forall i :: 0 <= i < |r| ==> !IsUpper(r[i])
  {
    if |s| == 0 then "" else [LowerChar(s[0])] + Lower(s[1..])
  }

  /** Lower-casing twice is lower-casing once. */
  lemma {:induction false} LowerIdempotent(s: string)
    ensures Lower(Lower(s)) == Lower(s)
  {
    var l := Lower(s);
    var ll := Lower(l);
    assert |ll| == |l|;
    forall i | 0 <= i < |l|
      ensures ll[i] == l[i]
    {
      assert !IsUpper(l[i]);
    }
  }

  // ---------------------------------------------------------------------------
  // Substring containment
  // ---------------------------------------------------------------------------

  /** `needle` occurs in `hay` starting at index `i`. */
  predicate OccursAt(hay: string, needle: string, i: int)
  {
    0 <= i && i + |needle| <= |hay| && hay[i..i + |needle|] == needle
  }

  /**
   `hay.contains(needle)`, written as a left-to-right scan; its contract
   says it agrees with "some position is an occurrence".
   */
  predicate Contains(hay: string, needle: string)
    ensures Contains(hay, needle) <==> exists i :: OccursAt(hay, needle, i)
    decreases |hay|
  {
    if |needle| <= |hay| && hay[..|needle|] == needle then
      assert OccursAt(hay, needle, 0);
      true
    else if |hay| == 0 then
      false
    else
      var rest := Contains(hay[1..], needle);
      assert rest ==> exists i :: OccursAt(hay, needle, i) by {
        if rest {
          var j :| OccursAt(hay[1..], needle, j);
          assert hay[1..][j..j + |needle|] == hay[j + 1..j + 1 + |needle|];
          assert OccursAt(hay, needle, j + 1);
        }
      }
      assert (exists i :: OccursAt(hay, needle, i)) ==> rest by {
        if i :| OccursAt(hay, needle, i) {
          assert i != 0;
          assert hay[1..][i - 1..i - 1 + |needle|] == hay[i..i + |needle|];
          assert OccursAt(hay[1..], needle, i - 1);
        }
      }
      rest
  }

  // ---------------------------------------------------------------------------
  // Repetition
  // ---------------------------------------------------------------------------

  /** `String(repeating: c, count: n)` for a single character `c`. */
  function Repeat(c: char, n: nat): (r: string)
    ensures |r| == n
    ensures forall i :: 0 <= i < n ==> r[i] == c
  {
    if n == 0 then "" else [c] + Repeat(c, n - 1)
  }

  // ---------------------------------------------------------------------------
  // Decimal rendering of integers, and its inverse
  // ---------------------------------------------------------------------------

  predicate IsDigit(c: char) { '0' <= c <= '9' }

  predicate AllDigits(s: string) { forall i :: 0 <= i < |s| ==> IsDigit(s[i]) }

  function DigitChar(d: int): (c: char)
    requires 0 <= d < 10
  {
    ('0' as int + d) as char
  }

  /** The value of a string of decimal digits, most significant first. */
  function DigitsValue(s: string): nat
    requires AllDigits(s)
  {
    if |s| == 0 then 0
    else DigitsValue(s[..|s| - 1]) * 10 + (s[|s| - 1] as int - '0' as int)
  }

  /** A canonical decimal numeral: digits only, no leading zero except "0" itself. */
  predicate IsNumeral(s: string)
  {
    |s| > 0 && AllDigits(s) && (s[0] != '0' || |s| == 1)
  }

  /** `"\(n)"` for a non-negative Int: the canonical numeral whose value is `n`. */
  function NatToString(n: nat): (s: string)
    ensures IsNumeral(s)
    ensures DigitsValue(s) == n
    decreases n
  {
    if n < 10 then [DigitChar(n)]
    else
      var prefix := NatToString(n / 10);
      var s := prefix + [DigitChar(n % 10)];
      assert s[..|s| - 1] == prefix;
      s
  }

  /** `"\(n)"` for any Int: a minus sign in front of the numeral of `-n` when negative. */
  function IntToString(n: int): (s: string)
    ensures n >= 0 ==> IsNumeral(s) && DigitsValue(s) == n
    ensures n < 0 ==> |s| >= 2 && s[0] == '-' && IsNumeral(s[1..]) && DigitsValue(s[1..]) == -n
  {
    if n < 0 then
      var digits := NatToString(-n);
      assert ("-" + digits)[1..] == digits;
      "-" + digits
    else NatToString(n)
  }

  /** Reading a numeral back: `None` unless `s` is a canonical numeral. */
  function ParseNat(s: string): (r: Option<nat>)
  {
    if IsNumeral(s) then Some(DigitsValue(s)) else None
  }

  /** Rendering a count and reading it back gives the count. */
  lemma ParseNatToString(n: nat)
    ensures ParseNat(NatToString(n)) == Some(n)
  {
  }

  /** Reading a signed numeral back: a minus sign is accepted only before a non-zero numeral. */
  function ParseInt(s: string): (r: Option<int>)
  {
    if |s| >= 2 && s[0] == '-' && IsNumeral(s[1..]) && DigitsValue(s[1..]) > 0 then Some(-(DigitsValue(s[1..]) as int))
    else if IsNumeral(s) then Some(DigitsValue(s))
    else None
  }

  /** Rendering any Int and reading it back gives the Int. */
  lemma ParseIntToString(n: int)
    ensures ParseInt(IntToString(n)) == Some(n)
  {
  }

  /** Whatever `ParseInt` accepts is the rendering of the value it reads. */
  lemma ParseIntCanonical(s: string)
    requires ParseInt(s).Some?
    ensures IntToString(ParseInt(s).value) == s
  {
    if |s| >= 2 && s[0] == '-' && IsNumeral(s[1..]) && DigitsValue(s[1..]) > 0 {
      var digits := s[1..];
      assert ParseInt(s).value == -(DigitsValue(digits) as int);
      assert NatToString(DigitsValue(digits)) == digits by {
        NumeralIsNatToString(digits);
      }
      assert s == "-" + digits;
    } else {
      assert IsNumeral(s) && ParseInt(s).value == DigitsValue(s);
      NumeralIsNatToString(s);
    }
  }

  /** Two canonical numerals with the same value are the same string. */
  lemma {:induction false} NumeralInjective(s: string, t: string)
    requires IsNumeral(s) && IsNumeral(t) && DigitsValue(s) == DigitsValue(t)
    ensures s == t
  {
    NumeralIsNatToString(s);
    NumeralIsNatToString(t);
  }

  /** Every canonical numeral is the rendering of its own value. */
  lemma {:induction false} NumeralIsNatToString(s: string)
    requires IsNumeral(s)
    ensures NatToString(DigitsValue(s)) == s
    decreases |s|
  {
    var v := DigitsValue(s);
    if |s| == 1 {
      assert s[..|s| - 1] == "";
      assert DigitsValue(s[..|s| - 1]) == 0;
      assert v == s[0] as int - '0' as int;
      assert s == [DigitChar(v)];
    } else {
      var p := s[..|s| - 1];
      var last := s[|s| - 1] as int - '0' as int;
      assert p[0] == s[0];
      assert AllDigits(p);
      DigitsValueLeadingDigit(p);
      assert v == DigitsValue(p) * 10 + last;
      assert v / 10 == DigitsValue(p) && v % 10 == last;
      NumeralIsNatToString(p);
      assert v >= 10;
    }
  }

  /** A numeral of two or more digits without a leading zero is at least 10^(len-1), so at least 1. */
  lemma {:induction false} DigitsValueLeadingDigit(s: string)
    requires IsNumeral(s)
    ensures DigitsValue(s) >= 1 || s == "0"
    decreases |s|
  {
    if |s| > 1 {
      var p := s[..|s| - 1];
      assert p[0] == s[0] && AllDigits(p);
      assert |p| == 1 ==> p[0] != '0';
      DigitsValueLeadingDigit(p);
      assert p != "0" by {
        if |p| == 1 { assert p[0] != '0'; }
      }
    }
  }
}
