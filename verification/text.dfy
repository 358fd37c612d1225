/** The java.lang.String operations the customer rules rely on, over `seq<char>`. */
module Text {

  /** `String.trim` drops every leading and trailing character at or below U+0020. */
  predicate IsTrimmable(c: char) { c <= ' ' }

  predicate IsDigit(c: char) { '0' <= c <= '9' }

  predicate AllDigits(s: string) { forall i :: 0 <= i < |s| ==> IsDigit(s[i]) }

  /** True when every character of `s` is trimmable (`s.trim().isEmpty()`). */
  predicate IsBlank(s: string) { forall i :: 0 <= i < |s| ==> IsTrimmable(s[i]) }

  /** First index at or after `i` whose character survives trimming (or |s|). */
  function SkipLeading(s: string, i: nat): (k: nat)
    requires i <= |s|
    ensures i <= k <= |s|
    ensures k < |s| ==> !IsTrimmable(s[k])
    decreases |s| - i
  {
    if i == |s| || !IsTrimmable(s[i]) then i else SkipLeading(s, i + 1)
  }

  /** Last end index at or below `j`, and not below `lo`, whose preceding character survives trimming. */
  function SkipTrailing(s: string, lo: nat, j: nat): (k: nat)
    requires lo <= j <= |s|
    ensures lo <= k <= j
    ensures k > lo ==> !IsTrimmable(s[k - 1])
  {
    if j == lo || !IsTrimmable(s[j - 1]) then j else SkipTrailing(s, lo, j - 1)
  }

  /** `String.trim`: skip trimmable characters from the front, then from the back. */
  function Trim(s: string): (r: string)
    ensures r == [] || (!IsTrimmable(r[0]) && !IsTrimmable(r[|r| - 1]))
  {
    var lo := SkipLeading(s, 0);
    s[lo..SkipTrailing(s, lo, |s|)]
  }

  lemma {:induction false} SkipLeadingDrops(s: string, i: nat, m: nat)
    requires i <= |s| && i <= m < SkipLeading(s, i)
    ensures IsTrimmable(s[m])
    decreases |s| - i
  {
    if m > i { SkipLeadingDrops(s, i + 1, m); }
  }

  lemma {:induction false} SkipTrailingDrops(s: string, lo: nat, j: nat, m: nat)
    requires lo <= j <= |s| && SkipTrailing(s, lo, j) <= m < j
    ensures IsTrimmable(s[m])
  {
    if m < j - 1 { SkipTrailingDrops(s, lo, j - 1, m); }
  }

  /** Every character trimming drops is trimmable. */
  lemma {:induction false} TrimDropsOnlyTrimmable(s: string, m: nat)
    requires m < |s|
    ensures var lo := SkipLeading(s, 0); var hi := SkipTrailing(s, lo, |s|);
      m < lo || hi <= m ==> IsTrimmable(s[m])
  {
    var lo := SkipLeading(s, 0);
    var hi := SkipTrailing(s, lo, |s|);
    if m < lo { SkipLeadingDrops(s, 0, m); }
    else if hi <= m { SkipTrailingDrops(s, lo, |s|, m); }
  }

  /** Trimming yields the empty string exactly for blank input (`trim().isEmpty()`). */
  lemma {:induction false} TrimEmptyIffBlank(s: string)
    ensures Trim(s) == [] <==> IsBlank(s)
  {
    var lo := SkipLeading(s, 0);
    var hi := SkipTrailing(s, lo, |s|);
    if Trim(s) == [] {
      // SkipLeading stops at a character SkipTrailing would keep, so nothing was left.
      if lo < |s| { SkipTrailingDrops(s, lo, |s|, lo); }
      forall m | 0 <= m < |s| ensures IsTrimmable(s[m]) { TrimDropsOnlyTrimmable(s, m); }
    }
  }

  /** Trimming an already trimmed string changes nothing. */
  lemma {:induction false} TrimIdempotent(s: string)
    ensures Trim(Trim(s)) == Trim(s)
  {
    var r := Trim(s);
    if r != [] {
      assert SkipLeading(r, 0) == 0;
      assert SkipTrailing(r, 0, |r|) == |r|;
    }
  }

  /** `s.replaceAll("[^0-9]", "")`: the ASCII digits of `s`, in order. */
  function Digits(s: string): (r: string)
    ensures |r| <= |s|
  {
    if s == [] then []
    else if IsDigit(s[0]) then [s[0]] + Digits(s[1..])
    else Digits(s[1..])
  }

  /** Only digits survive. */
  lemma {:induction false} DigitsAreDigits(s: string)
    ensures AllDigits(Digits(s))
  {
    if s != [] { DigitsAreDigits(s[1..]); }
  }

  lemma {:induction false} DigitsConcat(a: string, b: string)
    ensures Digits(a + b) == Digits(a) + Digits(b)
  {
    if a == [] {
      assert a + b == b;
    } else {
      assert (a + b)[1..] == a[1..] + b;
      DigitsConcat(a[1..], b);
    }
  }

  /** A string made only of digits is its own digit string. */
  lemma {:induction false} DigitsOfDigits(s: string)
    requires AllDigits(s)
    ensures Digits(s) == s
  {
    if s != [] { DigitsOfDigits(s[1..]); }
  }

  /** A string with no digit has an empty digit string. */
  lemma {:induction false} DigitsOfSeparators(s: string)
    requires forall i :: 0 <= i < |s| ==> !IsDigit(s[i])
    ensures Digits(s) == []
  {
    if s != [] { DigitsOfSeparators(s[1..]); }
  }

  /** `String.contains` for a one-character needle. */
  predicate Contains(s: string, c: char) { exists i :: 0 <= i < |s| && s[i] == c }

  /** Lower-cases the ASCII letters A-Z and leaves every other character alone. */
  function LowerAscii(s: string): (r: string)
    ensures |r| == |s|
    ensures forall i :: 0 <= i < |s| ==> r[i] == (if 'A' <= s[i] <= 'Z' then (s[i] as int + 32) as char else s[i])
  {
    if s == [] then []
    else [if 'A' <= s[0] <= 'Z' then (s[0] as int + 32) as char else s[0]] + LowerAscii(s[1..])
  }

  function DigitChar(d: nat): char
    requires d < 10
  {
    ('0' as int + d) as char
  }

  /** `String.valueOf(int)` for a non-negative number: its decimal digits, no leading zero. */
  function NatToString(n: nat): (r: string)
    ensures |r| >= 1 && AllDigits(r)
    ensures n >= 10 ==> r[0] != '0'
  {
    if n < 10 then [DigitChar(n)] else NatToString(n / 10) + [DigitChar(n % 10)]
  }

  /** Reads a string of decimal digits back as a number. */
  function DigitsValue(s: string): nat
    requires AllDigits(s)
  {
    if s == [] then 0 else DigitsValue(s[..|s| - 1]) * 10 + (s[|s| - 1] as int - '0' as int)
  }

  /** The decimal rendering of an account number reads back as that number. */
  lemma {:induction false} NatToStringRoundTrip(n: nat)
    ensures DigitsValue(NatToString(n)) == n
  {
    var r := NatToString(n);
    if n >= 10 {
      NatToStringRoundTrip(n / 10);
      assert r[..|r| - 1] == NatToString(n / 10);
    }
  }

  /** A character outside the Basic Multilingual Plane: Java stores it as a surrogate pair. */
  predicate IsSupplementary(c: char) { c as int > 0xFFFF }

  /** `String.length()`: the number of UTF-16 code units, two for each supplementary character. */
  function Utf16Length(s: string): (n: nat)
    ensures |s| <= n <= 2 * |s|
  {
    if s == [] then 0 else Utf16Length(s[..|s| - 1]) + (if IsSupplementary(s[|s| - 1]) then 2 else 1)
  }

  /** The UTF-16 length is the character count plus one for every supplementary character. */
  lemma {:induction false} Utf16LengthCountsSurrogates(s: string)
    ensures Utf16Length(s) == |s| <==> forall i :: 0 <= i < |s| ==> !IsSupplementary(s[i])
    ensures Utf16Length(s) == 2 * |s| <==> forall i :: 0 <= i < |s| ==> IsSupplementary(s[i])
  {
    if s != [] {
      var p := s[..|s| - 1];
      Utf16LengthCountsSurrogates(p);
      assert forall i :: 0 <= i < |p| ==> p[i] == s[i];
    }
  }

  /** Two's-complement wrap-around into Java's 32-bit `int`. */
  function Wrap32(x: int): (w: int)
    ensures -0x8000_0000 <= w < 0x8000_0000
    ensures -0x8000_0000 <= x < 0x8000_0000 ==> w == x
    ensures (w - x) % 0x1_0000_0000 == 0
  {
    (x + 0x8000_0000) % 0x1_0000_0000 - 0x8000_0000
  }

  /** `String.hashCode`: h = 31·h + c over the characters, in 32-bit arithmetic. */
  function StringHash(s: string): (h: int)
    ensures -0x8000_0000 <= h < 0x8000_0000
  {
    if s == [] then 0 else Wrap32(31 * StringHash(s[..|s| - 1]) + s[|s| - 1] as int)
  }
}
