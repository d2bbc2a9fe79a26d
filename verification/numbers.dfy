/** Decimal text of integers: the `strconv.Itoa` the query builders use for
    placeholder numbers and the `strconv.Atoi` the search handler uses on
    query parameters. Go's `int` is 64 bits wide here, so `Atoi` refuses
    values outside that range.
 */
module Numbers {
  import opened Wrappers

  const MinInt64: int := -0x8000_0000_0000_0000
  const MaxInt64: int := 0x7fff_ffff_ffff_ffff

  predicate IsDigit(c: char) {
    '0' <= c <= '9'
  }

  function DigitValue(c: char): (d: int)
    requires IsDigit(c)
    ensures 0 <= d <= 9
  {
    c as int - '0' as int
  }

  function DigitChar(d: int): (c: char)
    requires 0 <= d <= 9
    ensures IsDigit(c) && DigitValue(c) == d
  {
    (d + '0' as int) as char
  }

  lemma DigitRoundTrip(c: char)
    requires IsDigit(c)
    ensures DigitChar(DigitValue(c)) == c
  {
  }

  predicate AllDigits(s: string) {
    forall i :: 0 <= i < |s| ==> IsDigit(s[i])
  }

  /** The number a string of decimal digits denotes, most significant first. */
  function DigitsValue(s: string): nat
    requires AllDigits(s)
    decreases |s|
  {
    if |s| == 0 then 0 else DigitsValue(s[..|s| - 1]) * 10 + DigitValue(s[|s| - 1])
  }

  /** `strconv.Itoa` on a non-negative number: its digits, without leading
      zeros. */
  function Decimal(n: nat): (s: string)
    ensures |s| > 0 && AllDigits(s)
    ensures s[0] != '0' || n == 0
    decreases n
  {
    if n < 10 then [DigitChar(n)] else Decimal(n / 10) + [DigitChar(n % 10)]
  }

  /** The digits `Decimal` writes denote the number it was given. */
  lemma {:induction false} DecimalValue(n: nat)
    ensures DigitsValue(Decimal(n)) == n
    decreases n
  {
    var s := Decimal(n);
    if n >= 10 {
      DecimalValue(n / 10);
      assert s[..|s| - 1] == Decimal(n / 10);
    }
  }

  /** The text after an optional leading `+` or `-`. */
  function Unsigned(s: string): (u: string)
    ensures |u| <= |s|
  {
    if |s| > 0 && (s[0] == '+' || s[0] == '-') then s[1..] else s
  }

  /** The value of an optional sign followed by digits: the digits' value,
      negated after a `-`. */
  function SignedValue(s: string): int
    requires |Unsigned(s)| > 0 && AllDigits(Unsigned(s))
  {
    var magnitude: int := DigitsValue(Unsigned(s));
    if s[0] == '-' then -magnitude else magnitude
  }

  /** `strconv.Atoi`: an optional `+` or `-`, then one or more decimal digits
      and nothing else, denoting a value that fits in 64 bits. The text is
      accepted exactly then, and the result is that signed value; leading
      zeros are allowed. */
  function Atoi(s: string): (r: Option<int>)
    ensures r.Some? ==>
      && |Unsigned(s)| > 0 && AllDigits(Unsigned(s))
      && (if r.value < 0 then -r.value else r.value) == DigitsValue(Unsigned(s))
      && MinInt64 <= r.value <= MaxInt64
    ensures r.Some? && r.value < 0 ==> s[0] == '-'
    ensures r.Some? <==> |Unsigned(s)| > 0 && AllDigits(Unsigned(s)) && MinInt64 <= SignedValue(s) <= MaxInt64
    ensures r.Some? ==> r.value == SignedValue(s)
  {
    var digits := Unsigned(s);
    if |digits| == 0 || !AllDigits(digits) then None
    else
      var magnitude: int := DigitsValue(digits);
      var v := if s[0] == '-' then -magnitude else magnitude;
      if MinInt64 <= v <= MaxInt64 then Some(v) else None
  }

  /** Reading back what `Itoa` wrote gives the number, in either sign. */
  lemma AtoiDecimal(n: nat)
    requires n <= MaxInt64
    ensures Atoi(Decimal(n)) == Some(n)
    ensures Atoi("-" + Decimal(n)) == Some(0 - n)
    ensures Atoi("+" + Decimal(n)) == Some(n)
  {
    DecimalValue(n);
    var d := Decimal(n);
    assert ("-" + d)[1..] == d;
    assert ("+" + d)[1..] == d;
  }

  /** A minus sign before `Itoa`'s text reads back the negated number, down
      to the smallest 64-bit value, whose magnitude has no positive
      counterpart. */
  lemma AtoiNegativeDecimal(n: nat)
    requires n <= -MinInt64
    ensures Atoi("-" + Decimal(n)) == Some(0 - n)
    ensures n == -MinInt64 ==> Atoi("-" + Decimal(n)) == Some(MinInt64)
  {
    DecimalValue(n);
    assert ("-" + Decimal(n))[1..] == Decimal(n);
  }

  /** A leading zero changes nothing: `Atoi` reads past it. */
  lemma {:induction false} LeadingZeroValue(d: string)
    requires AllDigits(d)
    ensures AllDigits("0" + d) && DigitsValue("0" + d) == DigitsValue(d)
    decreases |d|
  {
    var z := "0" + d;
    if |d| > 0 {
      LeadingZeroValue(d[..|d| - 1]);
      assert z[..|z| - 1] == "0" + d[..|d| - 1];
    } else {
      assert z == "0";
    }
  }

  lemma AtoiLeadingZero(n: nat)
    requires n <= MaxInt64
    ensures Atoi("0" + Decimal(n)) == Some(n)
  {
    DecimalValue(n);
    LeadingZeroValue(Decimal(n));
  }

  lemma AtoiExamples()
    ensures Atoi("") == None
    ensures Atoi("-") == None
    ensures Atoi("12a") == None
    ensures Atoi(" 1") == None
    ensures Atoi("-0") == Some(0)
    ensures Atoi("-12") == Some(-12)
  {
    assert !AllDigits("12a") by { assert !IsDigit("12a"[2]); }
    assert Unsigned("-0") == "0";
    assert Unsigned("-12") == "12";
    assert "12"[..1] == "1";
  }
}
