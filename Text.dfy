/**
 * Decimal notation of non-negative integers, as Python's `str()` writes an `int`,
 * and the inverse reading of a run of digits. Used for the byte count that the
 * artifact confirmation message reports.
 */
module Text {
  import opened Wrappers


  predicate IsDigit(c: char) {
    '0' <= c <= '9'
  }

  predicate AllDigits(s: string) {
    forall i :: 0 <= i < |s| ==> IsDigit(s[i])
  }

  function DigitChar(d: nat): (c: char)
    requires d < 10
    ensures IsDigit(c)
    ensures c as int - '0' as int == d
  {
    ('0' as int + d) as char
  }

  /** The decimal notation of `n`: only digits, never empty, and no leading zero except for 0 itself. */
  function DecimalString(n: nat): (s: string)
    ensures |s| >= 1 && AllDigits(s)
    ensures s[0] == '0' <==> n == 0
    decreases n
  {
    if n < 10 then [DigitChar(n)] else DecimalString(n / 10) + [DigitChar(n % 10)]
  }

  /** The number a string of digits denotes, read most significant digit first. */
  function DigitsValue(s: string): nat
    requires AllDigits(s)
  {
    if s == [] then 0 else 10 * DigitsValue(s[..|s| - 1]) + (s[|s| - 1] as int - '0' as int)
  }

  /** Reading back the decimal notation of `n` gives `n`. */
  lemma {:induction false} DecimalStringValue(n: nat)
    ensures DigitsValue(DecimalString(n)) == n
    decreases n
  {
    var s := DecimalString(n);
    if n >= 10 {
      var prefix := DecimalString(n / 10);
      DecimalStringValue(n / 10);
      assert s[..|s| - 1] == prefix;
    }
  }

  /** The longest run of digits at the end of `s`. */
  function TrailingDigits(s: string): (d: string)
    ensures AllDigits(d)
    ensures |d| <= |s| && d == s[|s| - |d|..]
    ensures |d| < |s| ==> !IsDigit(s[|s| - |d| - 1])
  {
    if s == [] || !IsDigit(s[|s| - 1]) then []
    else TrailingDigits(s[..|s| - 1]) + [s[|s| - 1]]
  }

  /** Digits written after a non-digit are exactly the trailing digits of the whole. */
  lemma {:induction false} TrailingDigitsAfter(p: string, d: string)
    requires |p| > 0 && !IsDigit(p[|p| - 1])
    requires AllDigits(d)
    ensures TrailingDigits(p + d) == d
    decreases |d|
  {
    if d != [] {
      var init := d[..|d| - 1];
      assert (p + d)[..|p + d| - 1] == p + init;
      TrailingDigitsAfter(p, init);
      assert init + [d[|d| - 1]] == d;
    } else {
      assert p + d == p;
    }
  }

  /** `m` without the leading `prefix`, when it starts with it. */
  function StripPrefix(m: string, prefix: string): (r: Option<string>)
    ensures r.Some? <==> |prefix| <= |m| && m[..|prefix|] == prefix
    ensures r.Some? ==> prefix + r.value == m
  {
    if |prefix| <= |m| && m[..|prefix|] == prefix then
      assert m == m[..|prefix|] + m[|prefix|..];
      Some(m[|prefix|..])
    else None
  }

  /** `m` without the trailing `suffix`, when it ends with it. */
  function StripSuffix(m: string, suffix: string): (r: Option<string>)
    ensures r.Some? <==> |suffix| <= |m| && m[|m| - |suffix|..] == suffix
    ensures r.Some? ==> r.value + suffix == m
  {
    if |suffix| <= |m| && m[|m| - |suffix|..] == suffix then
      assert m == m[..|m| - |suffix|] + m[|m| - |suffix|..];
      Some(m[..|m| - |suffix|])
    else None
  }

  lemma StripPrefixOf(prefix: string, rest: string)
    ensures StripPrefix(prefix + rest, prefix) == Some(rest)
  {
    assert (prefix + rest)[..|prefix|] == prefix;
    assert (prefix + rest)[|prefix|..] == rest;
  }

  lemma StripSuffixOf(rest: string, suffix: string)
    ensures StripSuffix(rest + suffix, suffix) == Some(rest)
  {
    var m := rest + suffix;
    assert m[|m| - |suffix|..] == suffix;
    assert m[..|m| - |suffix|] == rest;
  }
}
