/** How the period query and the aggregation fit together: the query's
    overlap predicate selects exactly the rows the aggregation would bill for
    a positive number of months, so running the aggregation on the query's
    rows gives the same total as running it on the whole table.
 */
module Pipeline {
  import opened Wrappers
  import opened Months
  import opened Domain
  import opened Service
  import opened Storage

  /** For a subscription whose end is not before its start and a window whose
      end is not before its start, the period query selects the row exactly
      when the aggregation bills it for at least one month. */
  lemma OverlapIffBilled(w: Window, s: Subscription)
    requires WellFormed(s) && Ordered(w)
    ensures Overlaps(s, w.start, w.end, None, None) <==> OverlapMonths(w, s) > 0
  {
  }

  /** The overlap test needs both halves: without a well-formed subscription
      a row can be selected and still be billed nothing. */
  lemma OverlapWithoutBilling()
    ensures var w := Window(Month(2024, 1), Month(2024, 12));
      var s := Subscription("u", "s", 100, Month(2024, 6), Some(Month(2024, 3)));
      Overlaps(s, w.start, w.end, None, None) && Contribution(w, s) == 0
  {
  }

  /** Rows the period query drops contribute nothing, so with no user or
      service restriction the summary over the query's rows equals the sum
      over every row of the table. */
  lemma {:induction false} PeriodQueryKeepsTotal(rows: seq<Subscription>, f: Filter)
    requires f.startDate.Some? && f.endDate.Some?
    requires f.userId.None? && f.serviceName.None?
    ensures var w := Window(f.startDate.value, f.endDate.value);
      Total(w, SubscriptionsForPeriod(rows, f)) == Total(w, rows)
    decreases |rows|
  {
    var w := Window(f.startDate.value, f.endDate.value);
    if |rows| > 0 {
      var head := rows[0];
      var rest := rows[1..];
      PeriodQueryKeepsTotal(rest, f);
      assert rows == [head] + rest;
      TotalAppend(w, [head], rest);
      assert Total(w, [head]) == Contribution(w, head) by {
        assert [head][..0] == [];
      }
      if InPeriod(f, head) {
        TotalAppend(w, [head], SubscriptionsForPeriod(rest, f));
      } else {
        OutsideWindowAddsNothing(w, head);
      }
    }
  }
}
