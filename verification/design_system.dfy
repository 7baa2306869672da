/**
 Theme/DesignSystem.swift: `Color(hex:)`, which trims the string to its
 alphanumeric core, reads it as a hexadecimal integer and splits that integer
 into alpha, red, green and blue channels according to the digit count; and
 the brand colours defined through it. Channels are kept as the integers
 0..255 the initializer computes before dividing by 255.
 */
module DesignSystem {

  // ---------------------------------------------------------------------------
  // Trimming to the alphanumeric core
  // ---------------------------------------------------------------------------

  /** Letters and digits (the ASCII part of `CharacterSet.alphanumerics`). */
  predicate IsAlnum(c: char)
  {
    ('0' <= c <= '9') || ('a' <= c <= 'z') || ('A' <= c <= 'Z')
  }

  /** Drops leading non-alphanumeric characters. */
  function TrimLeading(s: string): string
  {
    if |s| > 0 && !IsAlnum(s[0]) then TrimLeading(s[1..]) else s
  }

  /** Drops trailing non-alphanumeric characters. */
  function TrimTrailing(s: string): string
  {
    if |s| > 0 && !IsAlnum(s[|s| - 1]) then TrimTrailing(s[..|s| - 1]) else s
  }

  /**
   `hex.trimmingCharacters(in: CharacterSet.alphanumerics.inverted)`:
   leading, then trailing non-alphanumeric characters removed.
   */
  function Trim(s: string): string
  {
    TrimTrailing(TrimLeading(s))
  }

  /** What `TrimLeading` removes is a run of non-alphanumeric characters, and what it keeps is a suffix. */
  lemma {:induction false} TrimLeadingSpec(s: string)
    ensures var t := TrimLeading(s);
      && |t| <= |s| && t == s[|s| - |t|..]
      && (forall i :: 0 <= i < |s| - |t| ==> !IsAlnum(s[i]))
      && (|t| == 0 || IsAlnum(t[0]))
    decreases |s|
  {
    if |s| > 0 && !IsAlnum(s[0]) {
      TrimLeadingSpec(s[1..]);
      var t := TrimLeading(s[1..]);
      assert s[1..][|s| - 1 - |t|..] == s[|s| - |t|..];
      forall i | 1 <= i < |s| - |t|
        ensures !IsAlnum(s[i])
      {
        assert s[i] == s[1..][i - 1];
      }
    }
  }

  /** What `TrimTrailing` removes is a run of non-alphanumeric characters, and what it keeps is a prefix. */
  lemma {:induction false} TrimTrailingSpec(s: string)
    ensures var t := TrimTrailing(s);
      && |t| <= |s| && t == s[..|t|]
      && (forall i :: |t| <= i < |s| ==> !IsAlnum(s[i]))
      && (|t| == 0 || IsAlnum(t[|t| - 1]))
    decreases |s|
  {
    if |s| > 0 && !IsAlnum(s[|s| - 1]) {
      TrimTrailingSpec(s[..|s| - 1]);
      var t := TrimTrailing(s[..|s| - 1]);
      assert s[..|s| - 1][..|t|] == s[..|t|];
      forall i | |t| <= i < |s| - 1
        ensures !IsAlnum(s[i])
      {
        assert s[i] == s[..|s| - 1][i];
      }
    }
  }

  /**
   The trimmed string is the slice of `s` that starts and ends with an
   alphanumeric character (or is empty), and only non-alphanumeric
   characters were cut away on either side of it.
   */
  lemma TrimSpec(s: string)
    ensures var t := Trim(s);
      |t| == 0 || (IsAlnum(t[0]) && IsAlnum(t[|t| - 1]))
    ensures var t, lo := Trim(s), |s| - |TrimLeading(s)|;
      && 0 <= lo && lo + |t| <= |s| && t == s[lo..lo + |t|]
      && (forall i :: 0 <= i < lo ==> !IsAlnum(s[i]))
      && (forall i :: lo + |t| <= i < |s| ==> !IsAlnum(s[i]))
  {
    var front := TrimLeading(s);
    TrimLeadingSpec(s);
    TrimTrailingSpec(front);
    var t := TrimTrailing(front);
    PrefixOfSuffix(s, front, t);
  }

  /**
   A prefix `t` of a suffix `front` of `s` is a slice of `s`, and whatever
   follows `t` in `front` follows it in `s` too.
   */
  lemma PrefixOfSuffix(s: string, front: string, t: string)
    requires |front| <= |s| && front == s[|s| - |front|..]
    requires |t| <= |front| && t == front[..|t|]
    requires forall i :: |t| <= i < |front| ==> !IsAlnum(front[i])
    requires |front| == 0 || IsAlnum(front[0])
    ensures var lo := |s| - |front|;
      && lo + |t| <= |s| && t == s[lo..lo + |t|]
      && (forall i :: lo + |t| <= i < |s| ==> !IsAlnum(s[i]))
    ensures |t| == 0 || IsAlnum(t[0])
  {
    var lo := |s| - |front|;
    forall i | lo + |t| <= i < |s|
      ensures !IsAlnum(s[i])
    {
      assert s[i] == front[i - lo];
    }
    assert t == s[lo..lo + |t|];
  }

  /** A string that already starts and ends alphanumerically is left alone; in particular trimming is idempotent. */
  lemma TrimKeepsAlnumEnds(s: string)
    requires |s| == 0 || (IsAlnum(s[0]) && IsAlnum(s[|s| - 1]))
    ensures Trim(s) == s
  {
  }

  lemma TrimIdempotent(s: string)
    ensures Trim(Trim(s)) == Trim(s)
  {
    TrimSpec(s);
    TrimKeepsAlnumEnds(Trim(s));
  }

  // ---------------------------------------------------------------------------
  // Hexadecimal values
  // ---------------------------------------------------------------------------

  predicate IsHexDigit(c: char)
  {
    ('0' <= c <= '9') || ('a' <= c <= 'f') || ('A' <= c <= 'F')
  }

  predicate AllHex(s: string)
  {
    forall i :: 0 <= i < |s| ==> IsHexDigit(s[i])
  }

  function HexDigitValue(c: char): (v: nat)
    requires IsHexDigit(c)
    ensures v < 16
  {
    if '0' <= c <= '9' then c as int - '0' as int
    else if 'a' <= c <= 'f' then c as int - 'a' as int + 10
    else c as int - 'A' as int + 10
  }

  /** The value of a string of hex digits, most significant first (what `scanHexInt64` reads). */
  function HexValue(s: string): nat
    requires AllHex(s)
  {
    if |s| == 0 then 0
    else HexValue(s[..|s| - 1]) * 16 + HexDigitValue(s[|s| - 1])
  }

  /** Two hex digits make a byte: sixteen times the first plus the second. */
  lemma TwoDigitValue(p: string)
    requires |p| == 2 && AllHex(p)
    ensures HexValue(p) == 16 * HexDigitValue(p[0]) + HexDigitValue(p[1])
    ensures HexValue(p) < 256
  {
    var front := p[..1];
    assert front[..0] == "";
    assert HexValue(front) == HexDigitValue(p[0]);
    assert HexValue(p) == HexValue(front) * 16 + HexDigitValue(p[1]);
  }

  /**
   Reading a string is reading all but its last two digits, shifting by
   eight bits, and adding the byte those two digits make.
   */
  lemma PeelByte(s: string)
    requires |s| >= 2 && AllHex(s)
    ensures HexValue(s) == HexValue(s[..|s| - 2]) * 256 + HexValue(s[|s| - 2..])
  {
    var n := |s|;
    var f := s[..n - 1];
    assert f[..n - 2] == s[..n - 2];
    assert f[n - 2] == s[n - 2];
    var last := s[n - 2..];
    assert last[0] == s[n - 2] && last[1] == s[n - 1];
    TwoDigitValue(last);
  }

  /** Dividing `q * d + r` by a power of 16 `d` with `0 <= r < d` gives back `q` and `r` (a right shift and a mask). */
  lemma DivModUnique(q: int, r: int, d: int)
    requires d in {16, 256, 65536, 16777216} && 0 <= r < d
    ensures (q * d + r) / d == q && (q * d + r) % d == r
  {
  }

  // ---------------------------------------------------------------------------
  // Color(hex:)
  // ---------------------------------------------------------------------------

  /** A colour as the four integer channels `Color(hex:)` computes. */
  datatype Argb = Argb(a: int, r: int, g: int, b: int)

  predicate ChannelsInRange(c: Argb)
  {
    0 <= c.a <= 255 && 0 <= c.r <= 255 && 0 <= c.g <= 255 && 0 <= c.b <= 255
  }

  /**
   The hex digits one byte (two digits) or one nibble (one digit) occupy,
   counted from the left.
   */
  function Byte(t: string, k: nat): nat
    requires 2 * k + 2 <= |t| && AllHex(t)
  {
    HexValue(t[2 * k..2 * k + 2])
  }

  /** A byte's value from its two digits. */
  lemma ByteDigits(t: string, k: nat)
    requires 2 * k + 2 <= |t| && AllHex(t)
    ensures Byte(t, k) == 16 * HexDigitValue(t[2 * k]) + HexDigitValue(t[2 * k + 1])
    ensures Byte(t, k) < 256
  {
    var p := t[2 * k..2 * k + 2];
    assert p[0] == t[2 * k] && p[1] == t[2 * k + 1];
    TwoDigitValue(p);
  }

  function Nibble(t: string, k: nat): nat
    requires k < |t| && AllHex(t)
  {
    HexDigitValue(t[k])
  }

  /**
   The channels `Color(hex:)` computes from an already trimmed string `t`:
   scan the digits as one integer `x`, then
   3 digits: alpha 255 and each 4-bit nibble times 17;
   6 digits: alpha 255, red `x >> 16`, green `x >> 8 & 0xFF`, blue `x & 0xFF`;
   8 digits: alpha `x >> 24`, then red, green and blue as for 6;
   any other count: opaque black.
   The shifts are written as divisions; the contract says each channel is
   the value of its own digit pair (or nibble).
   */
  function ColorFromDigits(t: string): (c: Argb)
    requires |t| in {3, 6, 8} ==> AllHex(t)
    ensures ChannelsInRange(c)
    ensures |t| !in {3, 6, 8} ==> c == Argb(255, 0, 0, 0)
    ensures |t| == 3 ==> c == Argb(255, Nibble(t, 0) * 17, Nibble(t, 1) * 17, Nibble(t, 2) * 17)
    ensures |t| == 6 ==> c == Argb(255, Byte(t, 0), Byte(t, 1), Byte(t, 2))
    ensures |t| == 8 ==> c == Argb(Byte(t, 0), Byte(t, 1), Byte(t, 2), Byte(t, 3))
  {
    if |t| == 3 then
      var x := HexValue(t);
      ThreeDigitChannels(t);
      Argb(255, (x / 256) * 17, ((x / 16) % 16) * 17, (x % 16) * 17)
    else if |t| == 6 then
      var x := HexValue(t);
      SixDigitChannels(t);
      Argb(255, x / 65536, (x / 256) % 256, x % 256)
    else if |t| == 8 then
      var x := HexValue(t);
      EightDigitChannels(t);
      Argb(x / 16777216, (x / 65536) % 256, (x / 256) % 256, x % 256)
    else
      Argb(255, 0, 0, 0)
  }

  /** `Color(hex:)`: trim to the alphanumeric core, then read the channels. */
  function ColorFromHex(hex: string): (c: Argb)
    requires |Trim(hex)| in {3, 6, 8} ==> AllHex(Trim(hex))
    ensures ChannelsInRange(c)
  {
    ColorFromDigits(Trim(hex))
  }

  /** The nibbles of a three-digit value, read off by shifting and masking. */
  lemma ThreeDigitChannels(t: string)
    requires |t| == 3 && AllHex(t)
    ensures var x := HexValue(t);
      x / 256 == Nibble(t, 0) && (x / 16) % 16 == Nibble(t, 1) && x % 16 == Nibble(t, 2)
  {
    var n0, n1, n2 := Nibble(t, 0), Nibble(t, 1), Nibble(t, 2);
    var front := t[..2];
    assert front[0] == t[0] && front[1] == t[1];
    TwoDigitValue(front);
    assert HexValue(t) == n0 * 256 + n1 * 16 + n2;
    DivModUnique(n0 * 16 + n1, n2, 16);
    DivModUnique(n0, n1 * 16 + n2, 256);
    DivModUnique(n0, n1, 16);
  }

  /** Splits a six-digit value into its three digit pairs. */
  lemma SixDigitValue(t: string)
    requires |t| == 6 && AllHex(t)
    ensures HexValue(t) == (Byte(t, 0) * 256 + Byte(t, 1)) * 256 + Byte(t, 2)
    ensures Byte(t, 0) < 256 && Byte(t, 1) < 256 && Byte(t, 2) < 256
  {
    PeelByte(t);
    var f := t[..4];
    PeelByte(f);
    assert f[..2] == t[0..2] && f[2..] == t[2..4];
    assert t[..2] == t[0..2];
    TwoDigitValue(t[0..2]);
    TwoDigitValue(t[2..4]);
    TwoDigitValue(t[4..6]);
  }

  lemma SixDigitChannels(t: string)
    requires |t| == 6 && AllHex(t)
    ensures var x := HexValue(t);
      x / 65536 == Byte(t, 0) && (x / 256) % 256 == Byte(t, 1) && x % 256 == Byte(t, 2)
    ensures Byte(t, 0) < 256 && Byte(t, 1) < 256 && Byte(t, 2) < 256
  {
    var r, g, b := Byte(t, 0), Byte(t, 1), Byte(t, 2);
    SixDigitValue(t);
    DivModUnique(r * 256 + g, b, 256);
    DivModUnique(r, g, 256);
    DivModUnique(r, g * 256 + b, 65536);
  }

  /** Splits an eight-digit value into its four digit pairs. */
  lemma EightDigitValue(t: string)
    requires |t| == 8 && AllHex(t)
    ensures HexValue(t) == ((Byte(t, 0) * 256 + Byte(t, 1)) * 256 + Byte(t, 2)) * 256 + Byte(t, 3)
    ensures Byte(t, 0) < 256 && Byte(t, 1) < 256 && Byte(t, 2) < 256 && Byte(t, 3) < 256
  {
    var front := t[..6];
    assert front[0..2] == t[0..2] && front[2..4] == t[2..4] && front[4..6] == t[4..6];
    SixDigitValue(front);
    PeelByte(t);
    TwoDigitValue(t[6..8]);
  }

  lemma EightDigitChannels(t: string)
    requires |t| == 8 && AllHex(t)
    ensures var x := HexValue(t);
      && x / 16777216 == Byte(t, 0)
      && (x / 65536) % 256 == Byte(t, 1)
      && (x / 256) % 256 == Byte(t, 2)
      && x % 256 == Byte(t, 3)
    ensures Byte(t, 0) < 256 && Byte(t, 1) < 256 && Byte(t, 2) < 256 && Byte(t, 3) < 256
  {
    var a, r, g, b := Byte(t, 0), Byte(t, 1), Byte(t, 2), Byte(t, 3);
    EightDigitValue(t);
    DivModUnique((a * 256 + r) * 256 + g, b, 256);
    DivModUnique(a * 256 + r, g, 256);
    DivModUnique(a * 256 + r, g * 256 + b, 65536);
    DivModUnique(a, r, 256);
    DivModUnique(a, (r * 256 + g) * 256 + b, 16777216);
  }

  // ---------------------------------------------------------------------------
  // Brand colours
  // ---------------------------------------------------------------------------

  const EdibleGreenHex: string := "00563F"
  const EdibleGreenLightHex: string := "007A5A"
  const EdibleGreenDarkHex: string := "003D2D"
  const AmberHex: string := "F5A623"
  const RedHex: string := "D0021B"

  /** A bare six-digit string reads as three bytes, each sixteen times one digit plus the next. */
  lemma SixDigitColor(t: string)
    requires |t| == 6 && AllHex(t)
    ensures ColorFromDigits(t) == Argb(255,
      16 * HexDigitValue(t[0]) + HexDigitValue(t[1]),
      16 * HexDigitValue(t[2]) + HexDigitValue(t[3]),
      16 * HexDigitValue(t[4]) + HexDigitValue(t[5]))
  {
    ByteDigits(t, 0);
    ByteDigits(t, 1);
    ByteDigits(t, 2);
  }

  /**
   Leading and trailing punctuation is ignored: a string of hex digits
   wrapped in non-alphanumeric characters reads like the bare digits.
   */
  lemma SurroundingPunctuationIgnored(pre: string, t: string, post: string)
    requires forall i :: 0 <= i < |pre| ==> !IsAlnum(pre[i])
    requires forall i :: 0 <= i < |post| ==> !IsAlnum(post[i])
    requires |t| > 0 && IsAlnum(t[0]) && IsAlnum(t[|t| - 1])
    ensures Trim(pre + t + post) == t
    ensures |t| in {3, 6, 8} && AllHex(t) ==> ColorFromHex(pre + t + post) == ColorFromDigits(t)
  {
    PunctuationTrimmed(pre, t, post);
  }

  lemma PunctuationTrimmed(pre: string, t: string, post: string)
    requires forall i :: 0 <= i < |pre| ==> !IsAlnum(pre[i])
    requires forall i :: 0 <= i < |post| ==> !IsAlnum(post[i])
    requires |t| > 0 && IsAlnum(t[0]) && IsAlnum(t[|t| - 1])
    ensures Trim(pre + t + post) == t
  {
    var s := pre + t + post;
    assert TrimLeading(s) == t + post by {
      assert s == pre + (t + post);
      LeadingDropped(pre, t + post);
    }
    assert TrimTrailing(t + post) == t by {
      TrailingDropped(t, post);
    }
  }

  lemma {:induction false} LeadingDropped(pre: string, rest: string)
    requires forall i :: 0 <= i < |pre| ==> !IsAlnum(pre[i])
    requires |rest| > 0 && IsAlnum(rest[0])
    ensures TrimLeading(pre + rest) == rest
    decreases |pre|
  {
    if |pre| > 0 {
      assert (pre + rest)[1..] == pre[1..] + rest;
      LeadingDropped(pre[1..], rest);
    } else {
      assert pre + rest == rest;
    }
  }

  lemma {:induction false} TrailingDropped(t: string, post: string)
    requires forall i :: 0 <= i < |post| ==> !IsAlnum(post[i])
    requires |t| > 0 && IsAlnum(t[|t| - 1])
    ensures TrimTrailing(t + post) == t
    decreases |post|
  {
    if |post| > 0 {
      var front := post[..|post| - 1];
      assert (t + post)[..|t + post| - 1] == t + front;
      TrailingDropped(t, front);
    } else {
      assert t + post == t;
    }
  }

  /**
   Six hex digits, bare or behind a "#", read as an opaque colour whose
   channels are the three digit pairs.
   */
  lemma SixDigitHex(t: string)
    requires |t| == 6 && AllHex(t)
    ensures Trim(t) == t && Trim("#" + t) == t
    ensures ColorFromHex(t) == ColorFromHex("#" + t) == Argb(255,
      16 * HexDigitValue(t[0]) + HexDigitValue(t[1]),
      16 * HexDigitValue(t[2]) + HexDigitValue(t[3]),
      16 * HexDigitValue(t[4]) + HexDigitValue(t[5]))
  {
    assert IsAlnum(t[0]) && IsAlnum(t[5]);
    assert Trim(t) == t by {
      SurroundingPunctuationIgnored("", t, "");
      assert "" + t + "" == t;
    }
    assert Trim("#" + t) == t by {
      SurroundingPunctuationIgnored("#", t, "");
      assert "#" + t + "" == "#" + t;
    }
    SixDigitColor(t);
  }

  /** The brand green reads as (255, 0, 86, 63), with or without a leading "#". */
  lemma EdibleGreenChannels()
    ensures |EdibleGreenHex| == 6 && AllHex(EdibleGreenHex)
    ensures Trim(EdibleGreenHex) == EdibleGreenHex && Trim("#" + EdibleGreenHex) == EdibleGreenHex
    ensures ColorFromHex(EdibleGreenHex) == ColorFromHex("#" + EdibleGreenHex) == Argb(255, 0, 86, 63)
  {
    SixDigitHex(EdibleGreenHex);
  }

  /** The lighter green, "007A5A", is (255, 0, 122, 90). */
  lemma EdibleGreenLightChannels()
    ensures |EdibleGreenLightHex| == 6 && AllHex(EdibleGreenLightHex)
    ensures Trim(EdibleGreenLightHex) == EdibleGreenLightHex
    ensures ColorFromHex(EdibleGreenLightHex) == Argb(255, 0, 122, 90)
  {
    SixDigitHex(EdibleGreenLightHex);
  }

  /** The dark green, "003D2D", is (255, 0, 61, 45). */
  lemma EdibleGreenDarkChannels()
    ensures |EdibleGreenDarkHex| == 6 && AllHex(EdibleGreenDarkHex)
    ensures Trim(EdibleGreenDarkHex) == EdibleGreenDarkHex
    ensures ColorFromHex(EdibleGreenDarkHex) == Argb(255, 0, 61, 45)
  {
    SixDigitHex(EdibleGreenDarkHex);
  }

  /** Amber, "F5A623", is (255, 245, 166, 35). */
  lemma AmberChannels()
    ensures |AmberHex| == 6 && AllHex(AmberHex)
    ensures Trim(AmberHex) == AmberHex
    ensures ColorFromHex(AmberHex) == Argb(255, 245, 166, 35)
  {
    SixDigitHex(AmberHex);
  }

  /** Red, "D0021B", is (255, 208, 2, 27). */
  lemma RedChannels()
    ensures |RedHex| == 6 && AllHex(RedHex)
    ensures Trim(RedHex) == RedHex
    ensures ColorFromHex(RedHex) == Argb(255, 208, 2, 27)
  {
    SixDigitHex(RedHex);
  }

  /** Three digits: "FA0" reads as each nibble times 17, (255, 255, 170, 0); other lengths fall back to opaque black. */
  lemma ShortAndOddLengths()
    ensures ColorFromDigits("FA0") == Argb(255, 255, 170, 0)
    ensures ColorFromDigits("12345") == Argb(255, 0, 0, 0)
    ensures ColorFromDigits("") == Argb(255, 0, 0, 0)
  {
  }

  /** Eight digits are read alpha first: "8000563F" is the brand green at alpha 128. */
  lemma EightDigitsAreArgb()
    ensures ColorFromDigits("8000563F") == Argb(128, 0, 86, 63)
  {
    var t := "8000563F";
    assert |t| == 8 && AllHex(t);
    assert Byte(t, 0) == 128 by { ByteDigits(t, 0); assert t[0] == '8' && t[1] == '0'; }
    assert Byte(t, 1) == 0 by { ByteDigits(t, 1); assert t[2] == '0' && t[3] == '0'; }
    assert Byte(t, 2) == 86 by { ByteDigits(t, 2); assert t[4] == '5' && t[5] == '6'; }
    assert Byte(t, 3) == 63 by { ByteDigits(t, 3); assert t[6] == '3' && t[7] == 'F'; }
  }
}
