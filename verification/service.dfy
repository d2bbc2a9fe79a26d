/** The service layer: the billing-window aggregation behind the summary
    endpoint, and the empty/error handling of search.

    For every subscription the summary clamps the subscription's active range
    to the caller's window (the later of the two starts, the earlier of the two
    ends), counts the whole months of the clamped range inclusively, and adds
    `price * months` when that count is positive.

    An absent end date means "still active": it never constrains the clamped
    end. The Go code hands the stored end date to `time.Parse` and discards the
    error, so a missing end would become the zero time and `minTime` would
    then clamp every open-ended subscription to nothing; the period query
    selects open-ended rows on purpose (`end_date IS NULL`), so the model
    takes the open-ended reading.
 */
module Service {
  import opened Wrappers
  import opened Months
  import opened Domain

  /** `maxTime`: the later of two months (the second one on a tie). */
  function MaxMonth(a: Month, b: Month): (r: Month)
    ensures r == a || r == b
    ensures !Before(r, a) && !Before(r, b)
  {
    if After(a, b) then a else b
  }

  /** `minTime`: the earlier of two months (the second one on a tie). */
  function MinMonth(a: Month, b: Month): (r: Month)
    ensures r == a || r == b
    ensures !After(r, a) && !After(r, b)
  {
    if Before(a, b) then a else b
  }

  /** `calculateMonthsInPeriodTime`: the number of calendar months from
      `start` to `end`, both included; zero or negative when `end` precedes
      `start`. */
  function MonthsInPeriod(start: Month, end: Month): (n: int)
    ensures n == Index(end) - Index(start) + 1
  {
    (end.year - start.year) * 12 + (end.month - start.month) + 1
  }

  lemma MonthsInPeriodSingle(m: Month)
    ensures MonthsInPeriod(m, m) == 1
  {
  }

  /** Moving the end one month later adds exactly one month. */
  lemma MonthsInPeriodNext(start: Month, end: Month)
    ensures MonthsInPeriod(start, Next(end)) == MonthsInPeriod(start, end) + 1
  {
  }

  lemma MonthsInPeriodExample()
    ensures MonthsInPeriod(Month(2024, 1), Month(2024, 3)) == 3
    ensures MonthsInPeriod(Month(2023, 11), Month(2024, 2)) == 4
    ensures MonthsInPeriod(Month(2024, 3), Month(2024, 1)) == -1
  {
  }

  /** The caller's billing window, both ends included. */
  datatype Window = Window(start: Month, end: Month)

  predicate Ordered(w: Window) {
    !Before(w.end, w.start)
  }

  /** The last month of the clamped range: the window's end, or the
      subscription's end when that comes first; an open end never clamps. */
  function OverlapEnd(windowEnd: Month, end: Option<Month>): (r: Month)
    ensures !After(r, windowEnd)
    ensures end.None? ==> r == windowEnd
    ensures end.Some? ==> !After(r, end.value) && (r == windowEnd || r == end.value)
  {
    match end
    case None => windowEnd
    case Some(e) => MinMonth(windowEnd, e)
  }

  /** Months of `s` inside `w`, before the "only if positive" rule: never
      more than the window holds, and positive only when `s` starts by the
      window's end and does not end before the window's start. */
  function OverlapMonths(w: Window, s: Subscription): (n: int)
    ensures n <= MonthsInPeriod(w.start, w.end)
    ensures n > 0 ==> !Before(w.end, s.startDate) && (s.endDate.None? || !Before(s.endDate.value, w.start))
  {
    MonthsInPeriod(MaxMonth(w.start, s.startDate), OverlapEnd(w.end, s.endDate))
  }

  /** What one subscription adds to the summary: its price once for every
      month of the window in which it is active, counted month by month. */
  function Contribution(w: Window, s: Subscription): (r: int)
    ensures r == s.price * ActiveCount(s, Index(w.start), Index(w.end))
  {
    ActiveCountClosedForm(s, Index(w.start), Index(w.end));
    var months := OverlapMonths(w, s);
    if months > 0 then s.price * months else 0
  }

  /** The summary total: every row's contribution added up. Rows that
      contribute nothing leave it at zero. */
  function Total(w: Window, subs: seq<Subscription>): (r: int)
    ensures (forall i :: 0 <= i < |subs| ==> Contribution(w, subs[i]) == 0) ==> r == 0
    decreases |subs|
  {
    if |subs| == 0 then 0
    else Total(w, subs[..|subs| - 1]) + Contribution(w, subs[|subs| - 1])
  }

  // ---------------------------------------------------------------------------
  // The open end as written
  // ---------------------------------------------------------------------------

  /** One row's contribution with the stored end date read as written: the
      parse error is discarded, so a missing end date becomes Go's zero time
      (January of year 1) and `minTime` clamps the range to end there. On a
      row with an end date it agrees with `Contribution`. */
  function ContributionAsWritten(w: Window, s: Subscription): (r: int)
    ensures s.endDate.Some? ==> r == Contribution(w, s)
  {
    var months := MonthsInPeriod(MaxMonth(w.start, s.startDate), MinMonth(w.end, s.endDate.GetOr(Zero)));
    if months > 0 then s.price * months else 0
  }

  /** As written, an open-ended row adds nothing to any window that opens
      after January of year 1, however long it has been active. */
  lemma OpenEndedBilledNothingAsWritten(w: Window, s: Subscription)
    requires s.endDate.None? && After(w.start, Zero)
    ensures ContributionAsWritten(w, s) == 0
  {
  }

  /** With the open-ended reading, a row that started by the window's first
      month and has no end is billed for every month of the window. */
  lemma OpenEndedBilledWholeWindow(w: Window, s: Subscription)
    requires s.endDate.None? && Ordered(w) && !After(s.startDate, w.start)
    ensures Contribution(w, s) == s.price * MonthsInPeriod(w.start, w.end)
  {
  }

  /** The discrepancy on one row: 100 a month since January 2024, no end,
      summed over 2024. */
  lemma OpenEndedExample()
    ensures var w := Window(Month(2024, 1), Month(2024, 12));
      var s := Subscription("u", "s", 100, Month(2024, 1), None);
      ContributionAsWritten(w, s) == 0 && Contribution(w, s) == 1200
  {
  }

  // ---------------------------------------------------------------------------
  // GetSubscriptionsSummary
  // ---------------------------------------------------------------------------

  /** The loop of `GetSubscriptionsSummary` over the rows the period query
      returned. */
  method SummarizeRows(w: Window, subs: seq<Subscription>) returns (total: int)
    ensures total == Total(w, subs)
  {
    total := 0;
    var i := 0;
    while i < |subs|
      invariant 0 <= i <= |subs|
      invariant total == Total(w, subs[..i])
    {
      var sub := subs[i];
      var actualStart := MaxMonth(w.start, sub.startDate);
      var actualEnd := OverlapEnd(w.end, sub.endDate);
      var monthsInPeriod := MonthsInPeriod(actualStart, actualEnd);
      if monthsInPeriod > 0 {
        total := total + sub.price * monthsInPeriod;
      }
      assert total == Total(w, subs[..i]) + Contribution(w, sub);
      assert subs[..i + 1][..i] == subs[..i];
      assert Total(w, subs[..i + 1]) == Total(w, subs[..i]) + Contribution(w, sub);
      i := i + 1;
    }
    assert subs[..|subs|] == subs;
  }

  /** `GetSubscriptionsSummary`. `fetched` is what the period query returned.
      A query error is passed on with a zero total and nothing computed;
      otherwise the total is summed over the returned rows. The window
      endpoints are dereferenced only after a successful query, so the caller
      must supply both exactly when the query succeeds. */
  method GetSubscriptionsSummary(filter: Filter, fetched: Result<seq<Subscription>, Error>)
      returns (total: int, err: Option<Error>)
    requires fetched.Ok? ==> filter.startDate.Some? && filter.endDate.Some?
    ensures fetched.Err? ==> total == 0 && err == Some(fetched.error)
    ensures fetched.Ok? ==>
              err.None? && total == Total(Window(filter.startDate.value, filter.endDate.value), fetched.value)
  {
    if fetched.Err? {
      return 0, Some(fetched.error);
    }
    var w := Window(filter.startDate.value, filter.endDate.value);
    total := SummarizeRows(w, fetched.value);
    err := None;
  }

  // ---------------------------------------------------------------------------
  // Search
  // ---------------------------------------------------------------------------

  /** `Search`: a query error is passed on; zero rows become the nil list
      (`Ok(None)`), distinct from an error; any other result is passed on
      unchanged. */
  function Search(fetched: Result<seq<Subscription>, Error>): (r: Result<Option<seq<Subscription>>, Error>)
    ensures r.Err? <==> fetched.Err?
    ensures r.Err? ==> r.error == fetched.error
    ensures r == Ok(None) <==> fetched.Ok? && |fetched.value| == 0
    ensures r.Ok? && r.value.Some? ==> |r.value.value| > 0 && r.value.value == fetched.value
  {
    match fetched
    case Err(e) => Err(e)
    case Ok(rows) => if |rows| == 0 then Ok(None) else Ok(Some(rows))
  }

  // ---------------------------------------------------------------------------
  // Properties of the aggregation
  // ---------------------------------------------------------------------------

  /** A subscription contributes `price * months` when its clamped range is
      non-empty and nothing otherwise; with a non-negative price the
      contribution is never negative and never exceeds a full window. */
  lemma ContributionBounds(w: Window, s: Subscription)
    requires s.price >= 0
    ensures 0 <= Contribution(w, s)
    ensures OverlapMonths(w, s) <= MonthsInPeriod(w.start, w.end)
    ensures Ordered(w) ==> Contribution(w, s) <= s.price * MonthsInPeriod(w.start, w.end)
  {
    var m := OverlapMonths(w, s);
    var full := MonthsInPeriod(w.start, w.end);
    if m > 0 {
      MulMonotone(s.price, m, full);
    }
  }

  lemma MulMonotone(p: int, a: int, b: int)
    requires p >= 0 && a <= b
    ensures p * a <= p * b
  {
    assert p * b - p * a == p * (b - a);
  }

  /** A subscription that ends before the window opens, or starts after it
      closes, adds nothing. */
  lemma OutsideWindowAddsNothing(w: Window, s: Subscription)
    requires Before(w.end, s.startDate) || (s.endDate.Some? && Before(s.endDate.value, w.start))
    ensures OverlapMonths(w, s) <= 0
    ensures Contribution(w, s) == 0
  {
  }

  /** The months of the window during which `s` is active, by enumeration:
      `i` ranges over month indices from `lo` to `hi`. */
  predicate ActiveAt(s: Subscription, i: int) {
    Index(s.startDate) <= i && (s.endDate.None? || i <= Index(s.endDate.value))
  }

  function ActiveCount(s: Subscription, lo: int, hi: int): nat
    decreases if hi < lo then 0 else hi - lo + 1
  {
    if hi < lo then 0 else ActiveCount(s, lo, hi - 1) + (if ActiveAt(s, hi) then 1 else 0)
  }

  function Max(a: int, b: int): int { if a < b then b else a }
  function Min(a: int, b: int): int { if a < b then a else b }

  lemma {:induction false} ActiveCountClosedForm(s: Subscription, lo: int, hi: int)
    ensures var last := if s.endDate.Some? then Min(hi, Index(s.endDate.value)) else hi;
      ActiveCount(s, lo, hi) == Max(0, last - Max(lo, Index(s.startDate)) + 1)
    decreases if hi < lo then 0 else hi - lo + 1
  {
    if hi >= lo {
      ActiveCountClosedForm(s, lo, hi - 1);
    }
  }

  /** The total is additive over concatenation. */
  lemma {:induction false} TotalAppend(w: Window, a: seq<Subscription>, b: seq<Subscription>)
    ensures Total(w, a + b) == Total(w, a) + Total(w, b)
    decreases |b|
  {
    if |b| == 0 {
      assert a + b == a;
    } else {
      var b' := b[..|b| - 1];
      assert (a + b)[..|a + b| - 1] == a + b';
      TotalAppend(w, a, b');
    }
  }

  /** Removing the row at `k` removes one copy of it from the multiset. */
  lemma RemoveAt(b: seq<Subscription>, k: int)
    requires 0 <= k < |b|
    ensures multiset(b[..k] + b[k + 1..]) == multiset(b) - multiset{b[k]}
  {
    assert b == b[..k] + [b[k]] + b[k + 1..];
  }

  /** Removing the row at `k` removes its contribution from the total. */
  lemma TotalRemove(w: Window, b: seq<Subscription>, k: int)
    requires 0 <= k < |b|
    ensures Total(w, b) == Total(w, b[..k] + b[k + 1..]) + Contribution(w, b[k])
  {
    var x := b[k];
    assert b == b[..k] + [x] + b[k + 1..];
    TotalAppend(w, b[..k] + [x], b[k + 1..]);
    TotalAppend(w, b[..k], [x]);
    TotalAppend(w, b[..k], b[k + 1..]);
    assert Total(w, [x]) == Contribution(w, x) by {
      assert [x][..0] == [];
    }
  }

  /** The total is a sum of independent per-row terms: the order in which the
      period query returns rows does not matter. */
  lemma {:induction false} TotalPermutation(w: Window, a: seq<Subscription>, b: seq<Subscription>)
    requires multiset(a) == multiset(b)
    ensures Total(w, a) == Total(w, b)
    decreases |a|
  {
    if |a| > 0 {
      var x := a[|a| - 1];
      var a' := a[..|a| - 1];
      assert a == a' + [x];
      assert multiset(a') == multiset(a) - multiset{x};
      assert x in multiset(b);
      var k :| 0 <= k < |b| && b[k] == x;
      RemoveAt(b, k);
      TotalPermutation(w, a', b[..k] + b[k + 1..]);
      TotalRemove(w, b, k);
    } else {
      assert |b| == 0;
    }
  }

  /** With non-negative prices the total is never negative. */
  lemma {:induction false} TotalNonNegative(w: Window, subs: seq<Subscription>)
    requires forall i :: 0 <= i < |subs| ==> subs[i].price >= 0
    ensures Total(w, subs) >= 0
    decreases |subs|
  {
    if |subs| > 0 {
      TotalNonNegative(w, subs[..|subs| - 1]);
      ContributionBounds(w, subs[|subs| - 1]);
    }
  }

  function PriceSum(subs: seq<Subscription>): int
    decreases |subs|
  {
    if |subs| == 0 then 0 else PriceSum(subs[..|subs| - 1]) + subs[|subs| - 1].price
  }

  /** No row is billed for more months than the window holds, so the total
      is at most the window's month count times the sum of prices. */
  lemma {:induction false} TotalAtMostFullWindow(w: Window, subs: seq<Subscription>)
    requires Ordered(w)
    requires forall i :: 0 <= i < |subs| ==> subs[i].price >= 0
    ensures Total(w, subs) <= MonthsInPeriod(w.start, w.end) * PriceSum(subs)
    decreases |subs|
  {
    if |subs| > 0 {
      var rest := subs[..|subs| - 1];
      var last := subs[|subs| - 1];
      var n := MonthsInPeriod(w.start, w.end);
      TotalAtMostFullWindow(w, rest);
      ContributionBounds(w, last);
      assert Contribution(w, last) <= n * last.price by {
        assert last.price * n == n * last.price;
      }
      Distribute(n, PriceSum(rest), last.price);
    }
  }

  lemma Distribute(n: int, a: int, b: int)
    ensures n * (a + b) == n * a + n * b
  {
  }

  /** Worked examples of the billing rule. */
  lemma SummaryExamples()
    ensures OverlapMonths(Window(Month(2024, 1), Month(2024, 12)),
                          Subscription("u", "s", 100, Month(2024, 2), None)) == 11
    ensures Contribution(Window(Month(2024, 1), Month(2024, 12)),
                         Subscription("u", "s", 100, Month(2020, 1), Some(Month(2020, 12)))) == 0
    ensures Total(Window(Month(2024, 1), Month(2024, 3)),
                  [Subscription("u", "s", 100, Month(2024, 1), Some(Month(2024, 3)))]) == 300
    ensures Total(Window(Month(2024, 1), Month(2024, 3)),
                  [Subscription("u", "s", 100, Month(2024, 1), Some(Month(2024, 3))),
                   Subscription("u", "t", 50, Month(2024, 3), None)]) == 350
  {
    var w := Window(Month(2024, 1), Month(2024, 3));
    var a := Subscription("u", "s", 100, Month(2024, 1), Some(Month(2024, 3)));
    var b := Subscription("u", "t", 50, Month(2024, 3), None);
    assert [a, b][..1] == [a];
    assert [a][..0] == [];
  }
}
