/**
 * Decimal text of integers: what strconv.Itoa and the "%d" verb print, and
 * what strconv.Atoi / strconv.ParseInt(s, 10, 64) accept. Also the 64-bit
 * wrap-around of Go's int64 arithmetic.
 */
module Decimal {
  import opened Wrappers

  const MIN_INT64: int := -0x8000_0000_0000_0000
  const MAX_INT64: int := 0x7fff_ffff_ffff_ffff
  const TWO_TO_64: int := 0x1_0000_0000_0000_0000

  predicate InInt64(x: int)
  {
    MIN_INT64 <= x <= MAX_INT64
  }

  /** Go's int64 arithmetic: the value congruent to `x` modulo 2^64 that fits in 64 bits. */
  function Wrap64(x: int): (r: int)
    ensures InInt64(r)
    ensures (x - r) % TWO_TO_64 == 0
    ensures InInt64(x) ==> r == x
  {
    (x - MIN_INT64) % TWO_TO_64 + MIN_INT64
  }

  predicate IsDigit(c: char)
  {
    '0' <= c <= '9'
  }

  predicate AllDigits(s: string)
  {
    forall i :: 0 <= i < |s| ==> IsDigit(s[i])
  }

  function DigitValue(c: char): (d: nat)
    requires IsDigit(c)
    ensures d < 10
  {
    (c as int) - ('0' as int)
  }

  function DigitChar(d: nat): (c: char)
    requires d < 10
    ensures IsDigit(c) && DigitValue(c) == d
  {
    (('0' as int) + d) as char
  }

  /** The decimal digits of `n`, most significant first, with no leading zero. */
  function NatToString(n: nat): (s: string)
    ensures |s| >= 1 && AllDigits(s)
    ensures |s| > 1 ==> s[0] != '0'
  {
    if n < 10 then [DigitChar(n)] else NatToString(n / 10) + [DigitChar(n % 10)]
  }

  /** strconv.Itoa / "%d": a minus sign for negative values, then the digits of the magnitude. */
  function IntToString(x: int): string
  {
    if x < 0 then "-" + NatToString(-x) else NatToString(x)
  }

  /** The number a run of decimal digits denotes (leading zeros allowed). */
  function DigitsValue(s: string): nat
    requires AllDigits(s)
  {
    if s == [] then 0 else DigitsValue(s[..|s| - 1]) * 10 + DigitValue(s[|s| - 1])
  }

  /** The text after an optional leading `+` or `-`. */
  function Unsigned(s: string): (u: string)
    ensures |u| <= |s| && u == s[|s| - |u|..]
  {
    if |s| > 0 && (s[0] == '+' || s[0] == '-') then s[1..] else s
  }

  /** Decimal integer syntax: an optional sign, then one or more digits and nothing else. */
  predicate IsDecimalText(s: string)
  {
    Unsigned(s) != [] && AllDigits(Unsigned(s))
  }

  /** The integer that decimal text denotes: its digits' value, negated under a minus sign. */
  function TextValue(s: string): int
    requires IsDecimalText(s)
  {
    if s[0] == '-' then 0 - DigitsValue(Unsigned(s)) as int else DigitsValue(Unsigned(s))
  }

  /**
   * strconv.ParseInt(s, 10, 64), and strconv.Atoi on a 64-bit platform: read
   * an optional sign, then require at least one decimal digit and nothing
   * else, then require the value to fit in int64. None stands for the syntax
   * and range errors.
   */
  function ParseInt(s: string): (r: Option<int>)
    ensures r.Some? ==> |s| > 0 && (IsDigit(s[0]) || s[0] == '+' || s[0] == '-')
  {
    var signed := |s| > 0 && (s[0] == '+' || s[0] == '-');
    var digits := if signed then s[1..] else s;
    if digits == [] || !AllDigits(digits) then None
    else
      var v: int := if signed && s[0] == '-' then 0 - DigitsValue(digits) as int else DigitsValue(digits);
      if InInt64(v) then Some(v) else None
  }

  /**
   * What ParseInt accepts: exactly decimal integer syntax whose value fits in
   * int64, read as that value.
   */
  lemma ParseIntMeaning(s: string)
    ensures ParseInt(s).Some? <==> IsDecimalText(s) && InInt64(TextValue(s))
    ensures ParseInt(s).Some? ==> ParseInt(s).value == TextValue(s)
  {
  }

  /** The digits printed for `n` denote `n`. */
  lemma {:induction false} NatToStringValue(n: nat)
    ensures DigitsValue(NatToString(n)) == n
  {
    if n >= 10 {
      var s := NatToString(n);
      assert s[..|s| - 1] == NatToString(n / 10);
      NatToStringValue(n / 10);
    }
  }

  /**
   * Itoa's text is canonical decimal: it denotes `x`, has no plus sign, a minus
   * sign exactly for negative values, and no leading zero.
   */
  lemma IntToStringCanonical(x: int)
    ensures IsDecimalText(IntToString(x)) && TextValue(IntToString(x)) == x
    ensures IntToString(x)[0] != '+' && (IntToString(x)[0] == '-' <==> x < 0)
    ensures |Unsigned(IntToString(x))| > 1 ==> Unsigned(IntToString(x))[0] != '0'
  {
    var n: nat := if x < 0 then -x else x;
    var digits := NatToString(n);
    var s := IntToString(x);
    NatToStringValue(n);
    assert IsDigit(digits[0]);
    if x < 0 {
      assert s == "-" + digits;
      assert Unsigned(s) == digits;
    } else {
      assert s == digits;
      assert Unsigned(s) == digits;
    }
  }

  /** Canonical decimal text is as short as its value allows: each digit string names one number. */
  lemma {:induction false} CanonicalDigitsUnique(t: string)
    requires t != [] && AllDigits(t) && (|t| > 1 ==> t[0] != '0')
    ensures t == NatToString(DigitsValue(t))
    decreases |t|
  {
    var n := DigitsValue(t);
    if |t| == 1 {
      assert t[..0] == [];
      assert DigitsValue(t[..0]) == 0;
      assert n == DigitsValue(t[..0]) * 10 + DigitValue(t[0]);
    } else {
      var front := t[..|t| - 1];
      assert front[0] == t[0];
      DigitsValueBound(front);
      CanonicalDigitsUnique(front);
      assert n / 10 == DigitsValue(front) && n % 10 == DigitValue(t[|t| - 1]);
      assert t == front + [t[|t| - 1]];
    }
  }

  /** A digit string without a leading zero and of more than one digit denotes at least 10. */
  lemma {:induction false} DigitsValueBound(t: string)
    requires t != [] && AllDigits(t) && (|t| > 1 ==> t[0] != '0')
    ensures |t| > 1 ==> DigitsValue(t) >= 10
    ensures DigitsValue(t) >= 1 || t == "0"
    decreases |t|
  {
    if |t| > 1 {
      var front := t[..|t| - 1];
      assert front[0] == t[0];
      DigitsValueBound(front);
    } else {
      assert t == [t[0]];
    }
  }

  /** Itoa's text is the only canonical decimal text of its value. */
  lemma CanonicalTextIsIntToString(t: string)
    requires IsDecimalText(t) && t[0] != '+' && (t[0] == '-' <==> TextValue(t) < 0)
    requires |Unsigned(t)| > 1 ==> Unsigned(t)[0] != '0'
    ensures t == IntToString(TextValue(t))
  {
    var u := Unsigned(t);
    CanonicalDigitsUnique(u);
    if t[0] == '-' {
      assert t == "-" + u;
    }
  }

  /** Atoi reads back what Itoa prints, for every int64. */
  lemma ParseIntRoundTrip(x: int)
    requires InInt64(x)
    ensures ParseInt(IntToString(x)) == Some(x)
  {
    var s := IntToString(x);
    if x < 0 {
      var digits := NatToString(-x);
      assert s == "-" + digits && s[0] == '-' && s[1..] == digits;
      NatToStringValue(-x);
      assert 0 - DigitsValue(digits) as int == x;
    } else {
      assert s == NatToString(x) && IsDigit(s[0]);
      NatToStringValue(x);
    }
  }

  /** `k` zero digits. */
  function Zeros(k: nat): (z: string)
    ensures |z| == k && AllDigits(z)
  {
    seq(k, _ => '0')
  }

  /** Leading zeros do not change the value of a run of digits. */
  lemma {:induction false} LeadingZerosValue(k: nat, d: string)
    requires AllDigits(d)
    ensures AllDigits(Zeros(k) + d) && DigitsValue(Zeros(k) + d) == DigitsValue(d)
  {
    var t := Zeros(k) + d;
    assert AllDigits(t) by {
      forall i | 0 <= i < |t| ensures IsDigit(t[i]) {
        if i < k { assert t[i] == Zeros(k)[i]; } else { assert t[i] == d[i - k]; }
      }
    }
    if d == [] {
      assert t == Zeros(k);
      ZerosValue(k);
    } else {
      var init := d[..|d| - 1];
      assert t[..|t| - 1] == Zeros(k) + init;
      assert t[|t| - 1] == d[|d| - 1];
      LeadingZerosValue(k, init);
    }
  }

  lemma {:induction false} ZerosValue(k: nat)
    ensures DigitsValue(Zeros(k)) == 0
  {
    if k > 0 {
      assert Zeros(k)[..k - 1] == Zeros(k - 1);
      ZerosValue(k - 1);
    }
  }

  /** Unsigned digits read as their value, when it fits in int64. */
  lemma ParseIntOfDigits(t: string)
    requires t != [] && AllDigits(t)
    ensures ParseInt(t) == if DigitsValue(t) <= MAX_INT64 then Some(DigitsValue(t)) else None
  {
    assert IsDigit(t[0]);
  }

  /** ParseInt accepts leading zeros, as strconv does: "007" is 7. */
  lemma ParseIntLeadingZeros(n: nat, k: nat)
    requires n <= MAX_INT64
    ensures ParseInt(Zeros(k) + NatToString(n)) == Some(n)
  {
    LeadingZerosValue(k, NatToString(n));
    NatToStringValue(n);
    ParseIntOfDigits(Zeros(k) + NatToString(n));
  }

  /** ParseInt accepts a leading `+`, as strconv does: "+7" is 7. */
  lemma ParseIntPlusSign(n: nat)
    requires n <= MAX_INT64
    ensures ParseInt("+" + NatToString(n)) == Some(n)
  {
    var d := NatToString(n);
    NatToStringValue(n);
    var u := "+" + d;
    assert u[0] == '+' && u[1..] == d;
    assert Unsigned(u) == d;
  }

  /** A character other than a digit, anywhere but in the sign position, is a syntax error. */
  lemma ParseIntRejectsNonDigit(s: string, i: nat)
    requires i < |s| && !IsDigit(s[i])
    requires i > 0 || (s[0] != '+' && s[0] != '-')
    ensures ParseInt(s) == None
  {
    ParseIntMeaning(s);
  }

  /** A missing number, or a sign alone, is a syntax error. */
  lemma ParseIntRejectsNoDigits()
    ensures ParseInt("") == None && ParseInt("+") == None && ParseInt("-") == None
  {
  }

  /** A number above the int64 range is a range error. */
  lemma ParseIntRejectsTooLarge(n: nat)
    requires n > MAX_INT64
    ensures ParseInt(NatToString(n)) == None
  {
    NatToStringValue(n);
    ParseIntOfDigits(NatToString(n));
  }

  /** A number below the int64 range is a range error. */
  lemma ParseIntRejectsTooSmall(n: nat)
    requires n > MAX_INT64 + 1
    ensures ParseInt("-" + NatToString(n)) == None
  {
    NatToStringValue(n);
    var d := NatToString(n);
    var u := "-" + d;
    assert u[0] == '-' && u[1..] == d && Unsigned(u) == d;
  }
}
