/** The storage layer: the SQL statements the repository builds from a filter
    or a subscription, the rows each statement selects, and the effect of
    create, update and delete on the table.

    The database itself is abstract. A statement is kept as structured text:
    a head followed by fragments, each fragment being SQL text followed by a
    `$n` placeholder, plus the positional arguments. `Sql` renders it to the
    exact string the repository sends. The table is a map from the key
    `(user_id, service_name)` to the row; a scan of it, in whatever order the
    database returns rows, is a sequence.
 */
module Storage {
  import opened Wrappers
  import opened Months
  import opened Domain
  import opened Numbers

  /** A column of the subscriptions table: one per subscription field. */
  type Column = Field

  function ColumnName(c: Column): string {
    match c
    case UserIdField => "user_id"
    case ServiceNameField => "service_name"
    case PriceField => "price"
    case StartDateField => "start_date"
    case EndDateField => "end_date"
  }

  /** Position of a column in the table and in the search condition order. */
  function Rank(c: Column): nat {
    match c
    case UserIdField => 0
    case ServiceNameField => 1
    case PriceField => 2
    case StartDateField => 3
    case EndDateField => 4
  }

  /** A value bound to a placeholder; `Null` is a nil `*string`. */
  datatype Arg = Text(text: string) | Int(n: int) | Date(m: Month) | Null

  /** SQL text followed by the placeholder `$slot`. */
  datatype Fragment = Fragment(text: string, slot: nat)

  datatype Statement = Statement(head: string, fragments: seq<Fragment>, args: seq<Arg>)

  function RenderFragments(fragments: seq<Fragment>): string
    decreases |fragments|
  {
    if |fragments| == 0 then ""
    else fragments[0].text + "$" + Decimal(fragments[0].slot) + RenderFragments(fragments[1..])
  }

  /** The statement as the string handed to the database: it starts with the
      head, and a statement without placeholders is its head alone. */
  function Sql(st: Statement): (r: string)
    ensures |st.head| <= |r| && r[..|st.head|] == st.head
    ensures st.fragments == [] ==> r == st.head
  {
    st.head + RenderFragments(st.fragments)
  }

  /** Placeholders run `$1, $2, ...` in the order they are written, one per
      argument. */
  predicate Numbered(st: Statement) {
    && |st.fragments| == |st.args|
    && forall i :: 0 <= i < |st.fragments| ==> st.fragments[i].slot == i + 1
  }

  // ---------------------------------------------------------------------------
  // Search
  // ---------------------------------------------------------------------------

  const SelectAll: string := "SELECT user_id, service_name, price, start_date, end_date FROM subscriptions"

  /** The value a filter asks a column to equal, if it constrains that column. */
  function FilterValue(f: Filter, c: Column): Option<Arg> {
    match c
    case UserIdField => if f.userId.Some? then Some(Text(f.userId.value)) else None
    case ServiceNameField => if f.serviceName.Some? then Some(Text(f.serviceName.value)) else None
    case PriceField => if f.price.Some? then Some(Int(f.price.value)) else None
    case StartDateField => if f.startDate.Some? then Some(Date(f.startDate.value)) else None
    case EndDateField => if f.endDate.Some? then Some(Date(f.endDate.value)) else None
  }

  function Optional(c: Column, v: Option<Arg>): seq<(Column, Arg)> {
    if v.Some? then [(c, v.value)] else []
  }

  /** The equality conditions of a search: one per present filter field, in
      the fixed order user_id, service_name, price, start_date, end_date. */
  function SearchConditions(f: Filter): (conds: seq<(Column, Arg)>)
    ensures forall i, j :: 0 <= i < j < |conds| ==> Rank(conds[i].0) < Rank(conds[j].0)
    ensures forall i :: 0 <= i < |conds| ==> FilterValue(f, conds[i].0) == Some(conds[i].1)
  {
    Optional(UserIdField, FilterValue(f, UserIdField))
    + Optional(ServiceNameField, FilterValue(f, ServiceNameField))
    + Optional(PriceField, FilterValue(f, PriceField))
    + Optional(StartDateField, FilterValue(f, StartDateField))
    + Optional(EndDateField, FilterValue(f, EndDateField))
  }

  /** Every column the filter constrains has a condition. */
  lemma SearchConditionsComplete(f: Filter, c: Column)
    requires FilterValue(f, c).Some?
    ensures exists i :: 0 <= i < |SearchConditions(f)| && SearchConditions(f)[i].0 == c
  {
    var p1 := Optional(UserIdField, FilterValue(f, UserIdField));
    var p2 := Optional(ServiceNameField, FilterValue(f, ServiceNameField));
    var p3 := Optional(PriceField, FilterValue(f, PriceField));
    var p4 := Optional(StartDateField, FilterValue(f, StartDateField));
    var p5 := Optional(EndDateField, FilterValue(f, EndDateField));
    var conds := SearchConditions(f);
    assert conds == p1 + p2 + p3 + p4 + p5;
    var i := match c
      case UserIdField => 0
      case ServiceNameField => |p1|
      case PriceField => |p1| + |p2|
      case StartDateField => |p1| + |p2| + |p3|
      case EndDateField => |p1| + |p2| + |p3| + |p4|;
    assert conds[i].0 == c;
  }

  /** The text written before the placeholder of the `i`-th condition: the
      conditions are joined by AND after a single WHERE. */
  function ConditionText(i: nat, c: Column): string {
    (if i == 0 then " WHERE " else " AND ") + ColumnName(c) + " = "
  }

  /** The WHERE part of `Storage.Search`'s query: one fragment per
      condition, joined by AND, with placeholders numbered from 1 by a
      running counter. */
  method WhereFragments(conds: seq<(Column, Arg)>) returns (fragments: seq<Fragment>, args: seq<Arg>)
    ensures |fragments| == |conds| && |args| == |conds|
    ensures forall k :: 0 <= k < |conds| ==>
              fragments[k] == Fragment(ConditionText(k, conds[k].0), k + 1) && args[k] == conds[k].1
  {
    fragments := [];
    args := [];
    var argIdx := 1;
    var i := 0;
    while i < |conds|
      invariant 0 <= i <= |conds|
      invariant argIdx == i + 1
      invariant |fragments| == i && |args| == i
      invariant forall k :: 0 <= k < i ==>
                  fragments[k] == Fragment(ConditionText(k, conds[k].0), k + 1) && args[k] == conds[k].1
    {
      fragments := fragments + [Fragment(ConditionText(i, conds[i].0), argIdx)];
      args := args + [conds[i].1];
      argIdx := argIdx + 1;
      i := i + 1;
    }
  }

  /** `Storage.Search`'s query builder: conditions for present fields, then
      LIMIT if present, then OFFSET if present, the placeholder counter
      running on from the conditions into the paging clauses. */
  method BuildSearchQuery(f: Filter) returns (st: Statement)
    ensures Numbered(st)
    ensures st.head == SelectAll
    ensures |st.args| == |SearchConditions(f)| + Indicator(f.limit.Some?) + Indicator(f.offset.Some?)
    ensures forall i :: 0 <= i < |SearchConditions(f)| ==>
              st.fragments[i].text == ConditionText(i, SearchConditions(f)[i].0)
              && st.args[i] == SearchConditions(f)[i].1
    ensures f.limit.Some? ==>
              var n := |SearchConditions(f)|;
              st.fragments[n].text == " LIMIT " && st.args[n] == Int(f.limit.value)
    ensures f.offset.Some? ==>
              var k := |st.args| - 1;
              st.fragments[k].text == " OFFSET " && st.args[k] == Int(f.offset.value)
    ensures SearchConditions(f) == [] && f.limit.None? && f.offset.None? ==>
              Sql(st) == SelectAll && st.args == []
  {
    var conds := SearchConditions(f);
    var fragments, args := WhereFragments(conds);
    var n := |conds|;
    var argIdx := n + 1;
    var paging: seq<Fragment> := [];
    var pagingArgs: seq<Arg> := [];
    if f.limit.Some? {
      paging := paging + [Fragment(" LIMIT ", argIdx)];
      pagingArgs := pagingArgs + [Int(f.limit.value)];
      argIdx := argIdx + 1;
    }
    if f.offset.Some? {
      paging := paging + [Fragment(" OFFSET ", argIdx)];
      pagingArgs := pagingArgs + [Int(f.offset.value)];
    }
    assert |paging| == |pagingArgs| == Indicator(f.limit.Some?) + Indicator(f.offset.Some?);
    assert forall k :: 0 <= k < |paging| ==> paging[k].slot == n + 1 + k;
    st := Statement(SelectAll, fragments + paging, args + pagingArgs);
    assert Numbered(st) by {
      forall i | 0 <= i < |st.fragments|
        ensures st.fragments[i].slot == i + 1
      {
        if i < n {
          assert st.fragments[i] == fragments[i];
        } else {
          assert st.fragments[i] == paging[i - n];
        }
      }
    }
    if conds == [] && f.limit.None? && f.offset.None? {
      assert st.fragments == [];
    }
  }

  /** The value a row holds in a column; a NULL end date is `Null`. */
  function ColumnValue(s: Subscription, c: Column): Arg {
    match c
    case UserIdField => Text(s.userId)
    case ServiceNameField => Text(s.serviceName)
    case PriceField => Int(s.price)
    case StartDateField => Date(s.startDate)
    case EndDateField => if s.endDate.Some? then Date(s.endDate.value) else Null
  }

  /** A row satisfies every condition of the search's WHERE clause, which
      is to say it equals the filter on every present field. */
  predicate Matches(f: Filter, s: Subscription)
    ensures Matches(f, s) <==> FieldsEqual(f, s)
  {
    ConditionsIffFieldsEqual(f, s);
    var conds := SearchConditions(f);
    forall i :: 0 <= i < |conds| ==> ColumnValue(s, conds[i].0) == conds[i].1
  }

  /** Field equality on exactly the present fields of the filter; a present
      end date asks for a row with that end date, never an open-ended one. */
  predicate FieldsEqual(f: Filter, s: Subscription) {
    && (f.userId.Some? ==> s.userId == f.userId.value)
    && (f.serviceName.Some? ==> s.serviceName == f.serviceName.value)
    && (f.price.Some? ==> s.price == f.price.value)
    && (f.startDate.Some? ==> s.startDate == f.startDate.value)
    && (f.endDate.Some? ==> s.endDate == Some(f.endDate.value))
  }

  /** The rows of `rows`, in scan order, that satisfy the WHERE clause, each
      as many times as it was scanned. */
  function Where(rows: seq<Subscription>, f: Filter): (r: seq<Subscription>)
    ensures |r| <= |rows|
    ensures forall s :: s in r <==> s in rows && Matches(f, s)
    ensures forall s :: multiset(r)[s] == (if Matches(f, s) then multiset(rows)[s] else 0)
    decreases |rows|
  {
    if |rows| == 0 then []
    else
      assert rows == [rows[0]] + rows[1..];
      if Matches(f, rows[0]) then [rows[0]] + Where(rows[1..], f)
      else Where(rows[1..], f)
  }

  /** OFFSET then LIMIT on a result: drop the first `skip` rows (all of them
      when there are fewer), then keep at most `limit` rows. */
  function Page<T>(xs: seq<T>, skip: int, limit: Option<int>): (r: seq<T>)
    requires skip >= 0 && (limit.None? || limit.value >= 0)
    ensures |r| == (if skip >= |xs| then 0
                    else if limit.Some? && limit.value < |xs| - skip then limit.value
                    else |xs| - skip)
    ensures forall i :: 0 <= i < |r| ==> r[i] == xs[skip + i]
    ensures forall x :: x in r ==> x in xs
    ensures skip == 0 && limit.None? ==> r == xs
  {
    var skipped := if skip < |xs| then xs[skip..] else [];
    var page := if limit.Some? && limit.value < |skipped| then skipped[..limit.value] else skipped;
    assert forall i :: 0 <= i < |page| ==> page[i] == skipped[i] == xs[skip + i];
    page
  }

  /** What the search statement returns from a scan of the table: the
      matching rows, then OFFSET, then LIMIT. The database refuses a
      negative LIMIT or OFFSET. */
  function SearchRows(rows: seq<Subscription>, f: Filter): (r: Result<seq<Subscription>, Error>)
    ensures r.Ok? <==> (f.limit.None? || f.limit.value >= 0) && (f.offset.None? || f.offset.value >= 0)
    ensures r.Ok? ==> forall s :: s in r.value ==> s in rows && Matches(f, s)
    ensures r.Ok? && f.limit.Some? ==> |r.value| <= f.limit.value
    ensures r.Ok? ==>
      var matching := Where(rows, f);
      var skip := f.offset.GetOr(0);
      && |r.value| == (if skip >= |matching| then 0
                       else if f.limit.Some? && f.limit.value < |matching| - skip then f.limit.value
                       else |matching| - skip)
      && forall i :: 0 <= i < |r.value| ==> r.value[i] == matching[skip + i]
    ensures r.Ok? && f.limit.None? && f.offset.None? ==> r.value == Where(rows, f)
  {
    if f.limit.Some? && f.limit.value < 0 then Err(StorageFailure("LIMIT must not be negative"))
    else if f.offset.Some? && f.offset.value < 0 then Err(StorageFailure("OFFSET must not be negative"))
    else Ok(Page(Where(rows, f), f.offset.GetOr(0), f.limit))
  }

  /** Every condition of the WHERE clause holds of a row exactly when the
      row equals the filter on every present field. */
  lemma ConditionsIffFieldsEqual(f: Filter, s: Subscription)
    ensures (forall i :: 0 <= i < |SearchConditions(f)| ==>
               ColumnValue(s, SearchConditions(f)[i].0) == SearchConditions(f)[i].1)
            <==> FieldsEqual(f, s)
  {
    var conds := SearchConditions(f);
    if forall i :: 0 <= i < |conds| ==> ColumnValue(s, conds[i].0) == conds[i].1 {
      forall c | FilterValue(f, c).Some?
        ensures ColumnValue(s, c) == FilterValue(f, c).value
      {
        SearchConditionsComplete(f, c);
        var i :| 0 <= i < |conds| && conds[i].0 == c;
      }
      assert FilterValue(f, UserIdField).Some? ==> ColumnValue(s, UserIdField) == FilterValue(f, UserIdField).value;
      assert FilterValue(f, EndDateField).Some? ==> ColumnValue(s, EndDateField) == FilterValue(f, EndDateField).value;
    }
    if FieldsEqual(f, s) {
      forall i | 0 <= i < |conds|
        ensures ColumnValue(s, conds[i].0) == conds[i].1
      {
        assert FilterValue(f, conds[i].0) == Some(conds[i].1);
      }
    }
  }

  /** A search with no field set and no paging returns every row scanned. */
  lemma {:induction false} SearchWithoutFieldsReturnsAll(rows: seq<Subscription>, f: Filter)
    requires f.userId.None? && f.serviceName.None? && f.price.None?
    requires f.startDate.None? && f.endDate.None? && f.limit.None? && f.offset.None?
    ensures SearchRows(rows, f) == Ok(rows)
    decreases |rows|
  {
    assert SearchConditions(f) == [];
    WhereKeepsAll(rows, f);
  }

  lemma {:induction false} WhereKeepsAll(rows: seq<Subscription>, f: Filter)
    requires SearchConditions(f) == []
    ensures Where(rows, f) == rows
    decreases |rows|
  {
    if |rows| > 0 {
      WhereKeepsAll(rows[1..], f);
      assert Matches(f, rows[0]);
      assert Where(rows, f) == [rows[0]] + Where(rows[1..], f);
      assert [rows[0]] + rows[1..] == rows;
    }
  }

  // ---------------------------------------------------------------------------
  // Update
  // ---------------------------------------------------------------------------

  /** The SET list of an update: price and start date always, end date only
      when the subscription has one. */
  function Assignments(sub: Subscription): (assigns: seq<(Column, Arg)>)
    ensures |assigns| >= 2 && assigns[0] == (PriceField, Int(sub.price))
    ensures assigns[1] == (StartDateField, Date(sub.startDate))
    ensures |assigns| == 3 <==> sub.endDate.Some?
    ensures sub.endDate.Some? ==> assigns[2] == (EndDateField, Date(sub.endDate.value))
    ensures forall i :: 0 <= i < |assigns| ==> assigns[i].0 != UserIdField && assigns[i].0 != ServiceNameField
  {
    [(PriceField, Int(sub.price)), (StartDateField, Date(sub.startDate))]
    + (if sub.endDate.Some? then [(EndDateField, Date(sub.endDate.value))] else [])
  }

  function AssignmentText(i: nat, c: Column): string {
    (if i == 0 then "UPDATE subscriptions SET " else ", ") + ColumnName(c) + " = "
  }

  /** `Storage.Update`'s statement: the SET list numbered from `$1`, then the
      key as the last two placeholders. */
  function BuildUpdateQuery(sub: Subscription): (st: Statement)
    ensures Numbered(st)
    ensures var n := |st.args|;
      && n == |Assignments(sub)| + 2
      && st.args[n - 2] == Text(sub.userId) && st.args[n - 1] == Text(sub.serviceName)
      && st.fragments[n - 2].text == " WHERE user_id = "
      && st.fragments[n - 1].text == " AND service_name = "
      && forall i :: 0 <= i < n - 2 ==>
           st.fragments[i].text == AssignmentText(i, Assignments(sub)[i].0)
           && st.args[i] == Assignments(sub)[i].1
  {
    var assigns := Assignments(sub);
    var n := |assigns|;
    Statement(
      "",
      seq(n, i requires 0 <= i < n => Fragment(AssignmentText(i, assigns[i].0), i + 1))
        + [Fragment(" WHERE user_id = ", n + 1), Fragment(" AND service_name = ", n + 2)],
      seq(n, i requires 0 <= i < n => assigns[i].1) + [Text(sub.userId), Text(sub.serviceName)])
  }

  /** The effect of one `column = value` assignment on a row. */
  function Assign(row: Subscription, a: (Column, Arg)): Subscription {
    match a
    case (PriceField, Int(n)) => row.(price := n)
    case (StartDateField, Date(m)) => row.(startDate := m)
    case (EndDateField, Date(m)) => row.(endDate := Some(m))
    case (EndDateField, Null) => row.(endDate := None)
    case (UserIdField, Text(t)) => row.(userId := t)
    case (ServiceNameField, Text(t)) => row.(serviceName := t)
    case _ => row
  }

  function AssignAll(row: Subscription, assigns: seq<(Column, Arg)>): Subscription
    decreases |assigns|
  {
    if |assigns| == 0 then row else AssignAll(Assign(row, assigns[0]), assigns[1..])
  }

  // ---------------------------------------------------------------------------
  // The table
  // ---------------------------------------------------------------------------

  type Table = map<Key, Subscription>

  /** Every row is stored under its own key. */
  predicate Keyed(db: Table) {
    forall k :: k in db ==> KeyOf(db[k]) == k
  }

  /** `Storage.Create`: inserts the row; a second row with the same key
      violates the table's unique key and fails. */
  function Create(db: Table, sub: Subscription): (r: Result<Table, Error>)
    ensures r.Err? <==> KeyOf(sub) in db
    ensures r.Ok? ==> r.value.Keys == db.Keys + {KeyOf(sub)} && r.value[KeyOf(sub)] == sub
    ensures r.Ok? ==> forall k :: k in db ==> r.value[k] == db[k]
    ensures r.Ok? && Keyed(db) ==> Keyed(r.value)
  {
    if KeyOf(sub) in db then Err(StorageFailure("duplicate key value violates unique constraint"))
    else Ok(db[KeyOf(sub) := sub])
  }

  /** The row an update leaves behind: the statement's SET list applied to the
      stored row. */
  function UpdatedRow(row: Subscription, sub: Subscription): Subscription {
    AssignAll(row, Assignments(sub))
  }

  /** Applying the SET list keeps the identity columns, takes price and start
      date from `sub`, and takes the end date from `sub` only when it has one. */
  lemma UpdatedRowFields(row: Subscription, sub: Subscription)
    ensures var r := UpdatedRow(row, sub);
      && r.userId == row.userId && r.serviceName == row.serviceName
      && r.price == sub.price && r.startDate == sub.startDate
      && r.endDate == (if sub.endDate.Some? then sub.endDate else row.endDate)
  {
    var a := Assignments(sub);
    var r1 := Assign(row, a[0]);
    var r2 := Assign(r1, a[1]);
    assert AssignAll(row, a) == AssignAll(r1, a[1..]);
    assert AssignAll(r1, a[1..]) == AssignAll(r2, a[2..]) by {
      assert a[1..][0] == a[1] && a[1..][1..] == a[2..];
    }
    if sub.endDate.Some? {
      var r3 := Assign(r2, a[2]);
      assert AssignAll(r2, a[2..]) == AssignAll(r3, a[3..]) by {
        assert a[2..][0] == a[2] && a[2..][1..] == a[3..];
      }
      assert a[3..] == [];
    } else {
      assert a[2..] == [];
    }
  }

  /** The message of `Storage.Update` when the key matches no row. */
  function UpdateNotFoundMessage(sub: Subscription): string {
    "no subscription found for user " + sub.userId + " and service " + sub.serviceName
  }

  /** `Storage.Update`: zero rows affected is reported as not found, with the
      table unchanged. */
  function Update(db: Table, sub: Subscription): (r: (Table, Option<Error>))
    ensures KeyOf(sub) !in db ==> r.0 == db && r.1 == Some(NotFound(UpdateNotFoundMessage(sub)))
    ensures KeyOf(sub) in db ==> r.1.None? && r.0.Keys == db.Keys
    ensures KeyOf(sub) in db ==>
      var before := db[KeyOf(sub)];
      var after := r.0[KeyOf(sub)];
      && after.userId == before.userId && after.serviceName == before.serviceName
      && after.price == sub.price && after.startDate == sub.startDate
      && after.endDate == (if sub.endDate.Some? then sub.endDate else before.endDate)
    ensures forall k :: k in db && k != KeyOf(sub) ==> r.0[k] == db[k]
    ensures Keyed(db) ==> Keyed(r.0)
  {
    var key := KeyOf(sub);
    if key !in db then (db, Some(NotFound(UpdateNotFoundMessage(sub))))
    else
      UpdatedRowFields(db[key], sub);
      (db[key := UpdatedRow(db[key], sub)], None)
  }

  /** `Storage.Delete`: removes the row with the key, whatever its dates;
      zero rows affected is reported as not found, with the table unchanged. */
  function Delete(db: Table, key: Key): (r: (Table, Option<Error>))
    ensures key !in db ==> r.0 == db && r.1 == Some(NotFound("subscription not found"))
    ensures key in db ==> r.1.None? && r.0.Keys == db.Keys - {key}
    ensures forall k :: k in r.0 ==> k in db && r.0[k] == db[k]
    ensures Keyed(db) ==> Keyed(r.0)
  {
    if key !in db then (db, Some(NotFound("subscription not found")))
    else (db - {key}, None)
  }

  // ---------------------------------------------------------------------------
  // The period query
  // ---------------------------------------------------------------------------

  /** SQL's three-valued truth: a comparison with NULL is `Unknown`, and a
      WHERE clause keeps a row only when it is `True`. */
  datatype Truth = True | False | Unknown

  function And3(a: Truth, b: Truth): Truth {
    if a == False || b == False then False
    else if a == Unknown || b == Unknown then Unknown
    else True
  }

  function Or3(a: Truth, b: Truth): Truth {
    if a == True || b == True then True
    else if a == Unknown || b == Unknown then Unknown
    else False
  }

  function IsNull<T>(v: Option<T>): Truth {
    if v.None? then True else False
  }

  /** `a <= b` on two nullable months. */
  function AtMost(a: Option<Month>, b: Option<Month>): Truth {
    if a.None? || b.None? then Unknown
    else if After(a.value, b.value) then False
    else True
  }

  /** `column = $n` with a nullable text parameter. */
  function TextEquals(column: string, param: Option<string>): Truth {
    if param.None? then Unknown
    else if column == param.value then True
    else False
  }

  /** The period query's WHERE clause evaluated on one row, with the window
      end bound as `$1`, the window start as `$2`, the user id as `$3` and
      the service name as `$4`; a nil parameter is NULL. */
  function PeriodWhere(windowStart: Option<Month>, windowEnd: Option<Month>,
                       userId: Option<string>, serviceName: Option<string>, s: Subscription): Truth {
    And3(And3(And3(
      AtMost(Some(s.startDate), windowEnd),
      Or3(IsNull(s.endDate), AtMost(windowStart, s.endDate))),
      Or3(IsNull(userId), TextEquals(s.userId, userId))),
      Or3(IsNull(serviceName), TextEquals(s.serviceName, serviceName)))
  }

  /** The period query's predicate with both window bounds given: the row
      starts no later than the window's end, has no end or ends no earlier
      than the window's start, and matches the user and service when those
      are given (a nil one matches every row). */
  predicate Overlaps(s: Subscription, windowStart: Month, windowEnd: Month,
                     userId: Option<string>, serviceName: Option<string>)
    ensures (Overlaps(s, windowStart, windowEnd, userId, serviceName)
             <==> PeriodWhere(Some(windowStart), Some(windowEnd), userId, serviceName, s) == True)
  {
    && !After(s.startDate, windowEnd)
    && (s.endDate.None? || !Before(s.endDate.value, windowStart))
    && (userId.None? || s.userId == userId.value)
    && (serviceName.None? || s.serviceName == serviceName.value)
  }

  /** The period query's predicate on a filter, either bound possibly nil. A
      nil window end makes `start_date <= $1` unknown, so nothing is
      selected; a nil window start makes `end_date >= $2` unknown, but
      `end_date IS NULL OR ...` is still true of an open-ended row, so those
      rows are selected while every row with an end date is not. */
  predicate InPeriod(f: Filter, s: Subscription)
    ensures InPeriod(f, s) <==> PeriodWhere(f.startDate, f.endDate, f.userId, f.serviceName, s) == True
    ensures f.startDate.Some? && f.endDate.Some? ==>
              (InPeriod(f, s) <==> Overlaps(s, f.startDate.value, f.endDate.value, f.userId, f.serviceName))
  {
    && f.endDate.Some? && !After(s.startDate, f.endDate.value)
    && (s.endDate.None? || (f.startDate.Some? && !Before(s.endDate.value, f.startDate.value)))
    && (f.userId.None? || s.userId == f.userId.value)
    && (f.serviceName.None? || s.serviceName == f.serviceName.value)
  }

  /** The rows of a scan that the period query returns, in scan order, each
      selected row as many times as it was scanned. */
  function SubscriptionsForPeriod(rows: seq<Subscription>, f: Filter): (r: seq<Subscription>)
    ensures |r| <= |rows|
    ensures forall s :: s in r <==> s in rows && InPeriod(f, s)
    ensures f.endDate.None? ==> r == []
    ensures f.startDate.None? ==> forall s :: s in r ==> s.endDate.None?
    ensures forall s :: multiset(r)[s] == (if InPeriod(f, s) then multiset(rows)[s] else 0)
    decreases |rows|
  {
    if |rows| == 0 then []
    else
      assert rows == [rows[0]] + rows[1..];
      if InPeriod(f, rows[0]) then [rows[0]] + SubscriptionsForPeriod(rows[1..], f)
      else SubscriptionsForPeriod(rows[1..], f)
  }

  /** With a nil window start, open-ended rows that start by the window's end
      are still returned. */
  lemma PeriodWithoutStartExample()
    ensures var s := Subscription("u", "s", 100, Month(2024, 1), None);
      var f := EmptyFilter.(endDate := Some(Month(2024, 12)));
      SubscriptionsForPeriod([s], f) == [s]
      && SubscriptionsForPeriod([s.(endDate := Some(Month(2024, 6)))], f) == []
  {
  }
}
