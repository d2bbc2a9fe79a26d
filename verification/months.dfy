/** Month-precision dates and the `MM-YYYY` text form (Go layout "01-2006").

    The service keeps every date at month precision: the day of month is never
    meaningful. A `Month` is a year and a month of that year; `Index` numbers
    months consecutively, so that order, successor and distance are integer
    order, +1 and subtraction.
 */
module Months {
  import opened Wrappers
  import opened Numbers

  type MonthOfYear = m: int | 1 <= m <= 12 witness 1

  datatype Month = Month(year: int, month: MonthOfYear)

  /** The month of Go's zero `time.Time` (January of year 1): what a date field
      holds when nothing was ever assigned to it. */
  const Zero: Month := Month(1, 1)

  /** Position of `m` on the line of all months, January of year 0 being 0. */
  function Index(m: Month): int {
    m.year * 12 + m.month - 1
  }

  /** `time.Time.Before` at month precision: year first, then month. */
  predicate Before(a: Month, b: Month)
    ensures Before(a, b) <==> Index(a) < Index(b)
  {
    a.year < b.year || (a.year == b.year && a.month < b.month)
  }

  /** `time.Time.After`. */
  predicate After(a: Month, b: Month)
    ensures After(a, b) <==> Index(b) < Index(a)
  {
    Before(b, a)
  }

  /** The calendar month following `m`. */
  function Next(m: Month): (n: Month)
    ensures Index(n) == Index(m) + 1
    ensures Before(m, n)
  {
    if m.month == 12 then Month(m.year + 1, 1) else Month(m.year, m.month + 1)
  }

  // ---------------------------------------------------------------------------
  // The MM-YYYY text form
  // ---------------------------------------------------------------------------

  /** Months whose year fits the four-digit year field of the text form. */
  predicate Renderable(m: Month) {
    0 <= m.year <= 9999
  }

  /** Go's `time.Parse("01-2006", s)` at month precision: exactly two digits
      of month in 01..12, a dash, and exactly four digits of year; nothing
      before or after. */
  function Parse(s: string): (r: Option<Month>)
    ensures r.Some? ==> |s| == 7 && s[2] == '-' && Renderable(r.value)
  {
    if |s| == 7 && IsDigit(s[0]) && IsDigit(s[1]) && s[2] == '-'
       && IsDigit(s[3]) && IsDigit(s[4]) && IsDigit(s[5]) && IsDigit(s[6])
    then
      var mm := DigitValue(s[0]) * 10 + DigitValue(s[1]);
      var yyyy := DigitValue(s[3]) * 1000 + DigitValue(s[4]) * 100
                  + DigitValue(s[5]) * 10 + DigitValue(s[6]);
      if 1 <= mm <= 12 then Some(Month(yyyy, mm)) else None
    else
      None
  }

  /** The canonical text of a month, zero-padded: March 2024 is "03-2024". */
  function Render(m: Month): (s: string)
    requires Renderable(m)
    ensures |s| == 7 && s[2] == '-'
  {
    [DigitChar(m.month / 10), DigitChar(m.month % 10), '-',
     DigitChar(m.year / 1000), DigitChar(m.year / 100 % 10),
     DigitChar(m.year / 10 % 10), DigitChar(m.year % 10)]
  }

  /** Rendering then parsing gives the month back. */
  lemma ParseRender(m: Month)
    requires Renderable(m)
    ensures Parse(Render(m)) == Some(m)
  {
    var s := Render(m);
    YearDigits(m.year);
    assert DigitValue(s[3]) * 1000 + DigitValue(s[4]) * 100
           + DigitValue(s[5]) * 10 + DigitValue(s[6]) == m.year;
    assert DigitValue(s[0]) * 10 + DigitValue(s[1]) == m.month;
  }

  /** Every accepted text is already canonical: parsing then rendering gives
      the same string back. */
  lemma RenderParse(s: string)
    requires Parse(s).Some?
    ensures Render(Parse(s).value) == s
  {
    var m := Parse(s).value;
    var a, b, c, d := DigitValue(s[3]), DigitValue(s[4]), DigitValue(s[5]), DigitValue(s[6]);
    DigitsYear(a, b, c, d);
    var e, f := DigitValue(s[0]), DigitValue(s[1]);
    assert m.month == e * 10 + f;
    assert m.month / 10 == e && m.month % 10 == f;
    var r := Render(m);
    forall i | 0 <= i < 7
      ensures r[i] == s[i]
    {
      if i != 2 {
        DigitRoundTrip(s[i]);
      }
    }
  }

  /** The four year digits written by `Render` recompose the year. */
  lemma YearDigits(y: int)
    requires 0 <= y <= 9999
    ensures (y / 1000) * 1000 + (y / 100 % 10) * 100 + (y / 10 % 10) * 10 + y % 10 == y
  {
    var q1 := y / 10;
    var q2 := q1 / 10;
    assert y == q1 * 10 + y % 10;
    assert q1 == q2 * 10 + q1 % 10;
    assert q2 == (q2 / 10) * 10 + q2 % 10;
    assert y / 100 == q2;
    assert y / 1000 == q2 / 10;
  }

  /** Four digits composed into a year are what `Render` decomposes it into. */
  lemma DigitsYear(a: int, b: int, c: int, d: int)
    requires 0 <= a <= 9 && 0 <= b <= 9 && 0 <= c <= 9 && 0 <= d <= 9
    ensures var y := a * 1000 + b * 100 + c * 10 + d;
      y / 1000 == a && y / 100 % 10 == b && y / 10 % 10 == c && y % 10 == d
  {
    var y := a * 1000 + b * 100 + c * 10 + d;
    assert y % 10 == d && y / 10 == a * 100 + b * 10 + c;
    var q1 := a * 100 + b * 10 + c;
    assert q1 % 10 == c && q1 / 10 == a * 10 + b;
    assert y / 100 == a * 10 + b;
    assert (a * 10 + b) % 10 == b && (a * 10 + b) / 10 == a;
    assert y / 1000 == a;
  }

  /** Examples: "01-2024" is January 2024; "13-2024", "1-2024" and "01-24"
      are refused. */
  lemma ParseExamples()
    ensures Parse("01-2024") == Some(Month(2024, 1))
    ensures Parse("12-0000") == Some(Month(0, 12))
    ensures Parse("13-2024").None?
    ensures Parse("00-2024").None?
    ensures Parse("1-2024").None?
    ensures Parse("01-24").None?
    ensures Parse("01/2024").None?
    ensures Parse("").None?
  {
  }
}
