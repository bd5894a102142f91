/**
 * Rust's `i64`: its range, its `Display` rendering (`to_string`) and its
 * `FromStr` parser (`str::parse::<i64>`), which accepts one optional leading
 * `+` or `-` followed by one or more ASCII digits and rejects a value that
 * does not fit.
 */
module Int64 {
  import opened Wrappers

  const MIN: int := -0x8000_0000_0000_0000
  const MAX: int := 0x7FFF_FFFF_FFFF_FFFF

  newtype i64 = x: int | MIN <= x <= MAX

  predicate IsDigit(c: char) {
    '0' <= c <= '9'
  }

  predicate AllDigits(s: string) {
    forall i :: 0 <= i < |s| ==> IsDigit(s[i])
  }

  function DigitValue(c: char): nat
    requires IsDigit(c)
  {
    (c as int) - ('0' as int)
  }

  function DigitChar(d: nat): char
    requires d < 10
  {
    (('0' as int) + d) as char
  }

  /** The value of a run of ASCII digits, most significant digit first. */
  function DigitsValue(s: string): nat
    requires AllDigits(s)
  {
    if s == [] then 0 else DigitsValue(s[..|s| - 1]) * 10 + DigitValue(s[|s| - 1])
  }

  /** The decimal digits of `n`, most significant first. */
  function NatToDigits(n: nat): string {
    if n < 10 then [DigitChar(n)] else NatToDigits(n / 10) + [DigitChar(n % 10)]
  }

  /** The digits of `n` are the shortest digit string whose value is `n`: no leading zero unless `n` is 0. */
  lemma {:induction false} NatToDigitsSpec(n: nat)
    ensures var s := NatToDigits(n);
      && |s| >= 1 && AllDigits(s)
      && (s[0] == '0' ==> n == 0)
      && DigitsValue(s) == n
  {
    if n >= 10 {
      NatToDigitsSpec(n / 10);
      var prefix := NatToDigits(n / 10);
      var s := NatToDigits(n);
      assert s[..|s| - 1] == prefix;
    }
  }

  /** `i64::to_string`: a `-` before the digits of a negative value, nothing before others. */
  function ToString(n: i64): string {
    if n < 0 then "-" + NatToDigits(-(n as int)) else NatToDigits(n as int)
  }

  /** The rendering is never empty and starts with `-` exactly for a negative value. */
  lemma ToStringSign(n: i64)
    ensures |ToString(n)| >= 1
    ensures ToString(n)[0] == '-' <==> n < 0
  {
    NatToDigitsSpec(if n < 0 then -(n as int) else n as int);
  }

  /** `str::parse::<i64>`: None for an empty string, a bare sign, a non-digit or an overflow. */
  function Parse(s: string): Option<i64> {
    if |s| == 0 then None
    else if (s[0] == '+' || s[0] == '-') && |s| == 1 then None
    else
      var digits := if s[0] == '+' || s[0] == '-' then s[1..] else s;
      if !AllDigits(digits) then None
      else
        var v: int := if s[0] == '-' then 0 - DigitsValue(digits) as int else DigitsValue(digits);
        if MIN <= v <= MAX then Some(v as i64) else None
  }

  /** Parsing the rendering of any `i64` gives that value back. */
  lemma ParseToString(n: i64)
    ensures Parse(ToString(n)) == Some(n)
  {
    var m: nat := if n < 0 then -(n as int) else n as int;
    var d := NatToDigits(m);
    NatToDigitsSpec(m);
    if n < 0 {
      ParseNegatedDigits(d);
    } else {
      ParseDigits(d);
    }
  }

  /** Digits alone parse as their value when it fits. */
  lemma ParseDigits(d: string)
    requires |d| >= 1 && AllDigits(d) && DigitsValue(d) <= MAX
    ensures Parse(d) == Some(DigitsValue(d) as i64)
  {
    assert IsDigit(d[0]);
  }

  /** A `-` before digits parses as their negated value when it fits. */
  lemma ParseNegatedDigits(d: string)
    requires |d| >= 1 && AllDigits(d) && MIN <= 0 - DigitsValue(d)
    ensures Parse("-" + d) == Some((0 - DigitsValue(d)) as i64)
  {
    assert ("-" + d)[1..] == d;
  }

  /** A parsed value renders back to the input when the input is in the rendered form. */
  lemma ToStringOfParse(s: string)
    requires Parse(s).Some?
    requires s[0] != '+'
    requires s[0] == '0' ==> |s| == 1
    requires s[0] == '-' ==> s[1] != '0'
    ensures ToString(Parse(s).value) == s
  {
    var n := Parse(s).value;
    var m: nat := if n < 0 then -(n as int) else n as int;
    var d := NatToDigits(m);
    NatToDigitsSpec(m);
    if s[0] == '-' {
      DigitsUnique(s[1..], d);
      assert s == "-" + s[1..];
    } else {
      DigitsUnique(s, d);
    }
  }

  /** Two digit strings without a leading zero that have the same value are equal. */
  lemma {:induction false} DigitsUnique(s: string, t: string)
    requires |s| >= 1 && |t| >= 1 && AllDigits(s) && AllDigits(t)
    requires s[0] == '0' ==> |s| == 1
    requires t[0] == '0' ==> |t| == 1
    requires DigitsValue(s) == DigitsValue(t)
    ensures s == t
  {
    var s', t' := s[..|s| - 1], t[..|t| - 1];
    assert DigitsValue(s) % 10 == DigitValue(s[|s| - 1]);
    assert DigitsValue(t) % 10 == DigitValue(t[|t| - 1]);
    assert DigitsValue(s') == DigitsValue(t');
    if |s'| == 0 || |t'| == 0 {
      if |s'| != 0 { LeadingNonZero(s'); }
      if |t'| != 0 { LeadingNonZero(t'); }
    } else {
      DigitsUnique(s', t');
    }
    assert s == s' + [s[|s| - 1]] && t == t' + [t[|t| - 1]];
  }

  /** A digit string that starts with a non-zero digit has a positive value. */
  lemma {:induction false} LeadingNonZero(s: string)
    requires |s| >= 1 && AllDigits(s) && s[0] != '0'
    ensures DigitsValue(s) > 0
  {
    if |s| > 1 {
      LeadingNonZero(s[..|s| - 1]);
    }
  }
}
