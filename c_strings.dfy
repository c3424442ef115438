/**
 * C strings as the firmware passes them around: a character buffer read
 * up to its first NUL, and `strncpy` into a fixed row that is then
 * terminated by hand.
 */
module CStrings {
  const NUL: char := '\0'

  /** A C string: the characters before the first NUL. */
  function CStr(s: seq<char>): (r: seq<char>)
    ensures |r| <= |s| && r == s[..|r|] && NUL !in r
    ensures |r| < |s| ==> s[|r|] == NUL
    ensures NUL !in s ==> r == s
  {
    if s == [] then []
    else if s[0] == NUL then []
    else [s[0]] + CStr(s[1..])
  }

  /** A C string read from a buffer is the same whatever follows its first NUL. */
  lemma {:induction false} CStrStopsAtNul(line: seq<char>, rest: seq<char>)
    requires rest != [] && rest[0] == NUL
    ensures CStr(line + rest) == CStr(line)
  {
    if line == [] {
      assert line + rest == rest;
    } else if line[0] != NUL {
      assert (line + rest)[1..] == line[1..] + rest;
      CStrStopsAtNul(line[1..], rest);
    }
  }

  /**
   * `strncpy(row, s, n)` followed by `row[n] = '\0'`, read back as a C
   * string: the source's first `n` characters, or all of it when it is
   * shorter.
   */
  function Truncated(s: seq<char>, n: nat): (r: seq<char>)
    ensures |r| <= n && |r| <= |CStr(s)| && NUL !in r
    ensures r == CStr(s)[..|r|]
    ensures |CStr(s)| <= n ==> r == CStr(s)
    ensures n <= |CStr(s)| ==> |r| == n
  {
    var c := CStr(s);
    if |c| <= n then c else c[..n]
  }

  /**
   * `snprintf` of a text with no NUL into a buffer of `n` characters and
   * its NUL: the text, cut to `n` characters.
   */
  function Clipped(s: seq<char>, n: nat): seq<char>
  {
    if |s| <= n then s else s[..n]
  }

  /** For a text with no NUL, cutting it is what `Truncated` reads back. */
  lemma ClippedIsTruncated(s: seq<char>, n: nat)
    requires NUL !in s
    ensures Clipped(s, n) == Truncated(s, n)
  {
  }

  /** The character of a decimal digit. */
  function DigitChar(d: int): (c: char)
    requires 0 <= d < 10
    ensures '0' <= c <= '9' && c as int - '0' as int == d
  {
    (('0' as int) + d) as char
  }

  predicate IsDigits(s: string)
  {
    forall i :: 0 <= i < |s| ==> '0' <= s[i] <= '9'
  }

  /** The decimal digits of `n`, most significant first, with no leading zero. */
  function Digits(n: nat): (r: string)
    ensures |r| >= 1 && IsDigits(r) && NUL !in r
    ensures r[0] == '0' ==> n == 0
  {
    if n < 10 then [DigitChar(n)] else Digits(n / 10) + [DigitChar(n % 10)]
  }

  /** The value of a string of decimal digits. */
  function DigitsValue(s: string): nat
    requires IsDigits(s)
  {
    if s == [] then 0 else 10 * DigitsValue(s[..|s| - 1]) + (s[|s| - 1] as int - '0' as int)
  }

  /** `%d` in `printf`: a minus sign for a negative value, then its digits. */
  function FormatInt(n: int): (r: string)
    ensures |r| >= 1 && NUL !in r
    ensures n >= 0 ==> IsDigits(r)
    ensures n < 0 ==> r[0] == '-' && IsDigits(r[1..])
  {
    if n < 0 then "-" + Digits(-n) else Digits(n)
  }

  /** The digits read back give the value they were written from. */
  lemma {:induction false} DigitsRoundTrip(n: nat)
    ensures DigitsValue(Digits(n)) == n
  {
    if n >= 10 {
      DigitsRoundTrip(n / 10);
      var r := Digits(n);
      assert r[..|r| - 1] == Digits(n / 10);
    }
  }

  /** `%d` loses nothing: the sign and the digits give the value back, and distinct values print differently. */
  lemma FormatIntRoundTrip(n: int, m: int)
    ensures n >= 0 ==> DigitsValue(FormatInt(n)) == n
    ensures n < 0 ==> FormatInt(n)[0] == '-' && DigitsValue(FormatInt(n)[1..]) == -n
    ensures FormatInt(n) == FormatInt(m) ==> n == m
  {
    DigitsRoundTrip(if n < 0 then -n else n);
    DigitsRoundTrip(if m < 0 then -m else m);
    if n < 0 {
      assert FormatInt(n)[1..] == Digits(-n);
    }
    if m < 0 {
      assert FormatInt(m)[1..] == Digits(-m);
    }
  }

  /** `tolower` in the C locale: only `A` to `Z` change. */
  function LowerAscii(c: char): (r: char)
    ensures 'A' <= c <= 'Z' ==> r as int == c as int + 32
    ensures !('A' <= c <= 'Z') ==> r == c
  {
    if 'A' <= c <= 'Z' then (c as int + 32) as char else c
  }

  /** Arduino's `String::toLowerCase`: every character through `tolower`. */
  function Lower(s: string): (r: string)
    ensures |r| == |s| && forall i :: 0 <= i < |s| ==> r[i] == LowerAscii(s[i])
  {
    if s == [] then [] else [LowerAscii(s[0])] + Lower(s[1..])
  }

  /** `String::endsWith`. */
  predicate EndsWith(s: string, suffix: string)
  {
    |suffix| <= |s| && s[|s| - |suffix|..] == suffix
  }
}
