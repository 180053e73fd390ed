/** Decimal text of integers: Go's `%d` verb and `strconv.Itoa` for formatting,
    `strconv.Atoi` for parsing. Used for cache keys, service URLs and path ids. */
module Decimal {
  import opened Common

  /** Bounds of Go's 64-bit `int`, the range `strconv.Atoi` accepts. */
  const MinInt64: int := -0x8000_0000_0000_0000
  const MaxInt64: int := 0x7FFF_FFFF_FFFF_FFFF

  predicate IsDigit(c: char) {
    '0' <= c <= '9'
  }

  predicate AllDigits(s: string) {
    forall i :: 0 <= i < |s| ==> IsDigit(s[i])
  }

  function DigitChar(d: nat): (c: char)
    requires d < 10
    ensures IsDigit(c) && c as int - '0' as int == d
  {
    ('0' as int + d) as char
  }

  function DigitValue(c: char): nat
    requires IsDigit(c)
  {
    c as int - '0' as int
  }

  /** The base-10 digits of `n`, most significant first, with no leading zero. */
  function NatDigits(n: nat): (s: string)
    ensures AllDigits(s)
    ensures |s| == 1 <==> n < 10
    ensures |s| >= 1 && (|s| > 1 ==> s[0] != '0')
  {
    if n < 10 then [DigitChar(n)] else NatDigits(n / 10) + [DigitChar(n % 10)]
  }

  /** The value of a string of digits read in base 10. */
  function DigitsValue(s: string): nat
    requires AllDigits(s)
  {
    if s == [] then 0 else DigitsValue(s[..|s| - 1]) * 10 + DigitValue(s[|s| - 1])
  }

  /** `strconv.Itoa(n)`, which is also what `fmt.Sprintf("%d", n)` prints:
      a minus sign for negative values, then the digits of the magnitude. */
  function Itoa(n: int): (s: string)
    ensures |s| >= 1
    ensures n >= 0 <==> AllDigits(s)
  {
    if n < 0 then
      var s := "-" + NatDigits(-n);
      assert !IsDigit(s[0]);
      s
    else NatDigits(n)
  }

  /** Sign and digits, read without a range limit: an optional `+` or `-`,
      then at least one digit. */
  function ParseInt(s: string): (r: Option<int>)
    ensures r.Some? ==> |s| >= 1
  {
    var negative := |s| > 0 && s[0] == '-';
    var digits := if |s| > 0 && (s[0] == '-' || s[0] == '+') then s[1..] else s;
    if digits == [] || !AllDigits(digits) then None
    else
      var magnitude: int := DigitsValue(digits);
      Some(if negative then -magnitude else magnitude)
  }

  /** `strconv.Atoi(s)`: ParseInt, failing also when the value does not fit
      in 64 bits. */
  function Atoi(s: string): (r: Option<int>)
    ensures r.Some? ==> MinInt64 <= r.value <= MaxInt64
    ensures r.Some? ==> ParseInt(s) == r
  {
    match ParseInt(s)
    case None => None
    case Some(v) => if MinInt64 <= v <= MaxInt64 then Some(v) else None
  }

  lemma {:induction false} DigitsValueOfNatDigits(n: nat)
    ensures DigitsValue(NatDigits(n)) == n
  {
    if n >= 10 {
      var s := NatDigits(n);
      assert s[..|s| - 1] == NatDigits(n / 10);
      DigitsValueOfNatDigits(n / 10);
    }
  }

  /** Reading back what Itoa printed gives the number again. */
  lemma ParseItoa(n: int)
    ensures ParseInt(Itoa(n)) == Some(n)
  {
    var s := Itoa(n);
    if n < 0 {
      var d := NatDigits(-n);
      assert s == "-" + d && s[0] == '-' && s[1..] == d;
      DigitsValueOfNatDigits(-n);
    } else {
      assert IsDigit(s[0]);
      DigitsValueOfNatDigits(n);
    }
  }

  /** strconv.Atoi inverts strconv.Itoa on every 64-bit integer. */
  lemma AtoiItoa(n: int)
    requires MinInt64 <= n <= MaxInt64
    ensures Atoi(Itoa(n)) == Some(n)
  {
    ParseItoa(n);
  }

  /** Distinct integers print differently. */
  lemma ItoaInjective(a: int, b: int)
    requires Itoa(a) == Itoa(b)
    ensures a == b
  {
    ParseItoa(a);
    ParseItoa(b);
  }
}
