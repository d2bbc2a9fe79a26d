# Subscription billing service — a Dafny model

This project models the core of a small subscription-billing HTTP service
written in Go. The service stores one subscription per (user id, service
name) pair: a monthly price, a start month, and an optional end month, with
dates written `MM-YYYY`. Clients can create, update, delete and search
subscriptions. They can also ask for a summary: the total cost of the
subscriptions over a window of months.

The model covers four parts of the service:

- **the option builder** that turns a client's partial input into a
  subscription (`Domain`);
- **the request checks** of the HTTP layer (`Api`):
  - body and filter validation;
  - turning search query parameters into a filter;
  - the summary window;
  - the delete endpoint's key check and error mapping;
- **the storage layer** (`Storage`):
  - the SQL statements built from a filter or a subscription, kept as
    structured text with `$n` placeholders;
  - the rows each statement selects;
  - the effect of create, update and delete on a table, modelled as a map
    keyed by (user id, service name);
- **the service layer** (`Service`):
  - the billing arithmetic behind the summary: clamp each subscription to
    the window, count the inclusive months, add `price * months` when that
    count is positive;
  - the empty-result handling of search.

Supporting modules:

- `Wrappers`: `Option`, `Result` and `Outcome`.
- `Numbers`: `strconv.Itoa` and `strconv.Atoi`, with `Atoi` bounded to 64 bits.
- `Months`: month-precision dates, `time.Parse` with the layout
  `"01-2006"`, and its canonical text form.
- `Pipeline`: relates the period query to the aggregation.

The main results:

- The summary loop computes the recursive `Service.Total`.
- `Total` equals, row by row, the price times the number of window months
  in which the row is active.
- `Total` does not depend on row order.
- With non-negative prices, `Total` is non-negative. For an ordered window
  (start not after end) it is also at most the window length times the sum
  of prices.
- The period query selects a well-formed row exactly when that row is billed
  for at least one month, for an ordered window. When the summary filter
  names no user and no service, summing over the query's rows therefore
  gives the same total as summing over the whole table.
- The search and the period query return each selected row as many times
  as it was scanned: no row is dropped or repeated.
- Date text round-trips through `Parse` and `Render`.
- The number text in the query builders round-trips through `Decimal` and
  `Atoi`.
- Search and update statements number their placeholders `$1..$n`, with one
  argument per placeholder and in the order the arguments are bound.
- Each validator accepts exactly the inputs its rules allow. When it
  rejects, it reports the first rule broken.
- Create, update and delete change only the row with the given key. Update
  and delete report not found exactly when the key is absent; create fails
  exactly when the key is already present.
- The period query's predicate agrees with the SQL three-valued evaluation
  of its WHERE clause, NULL parameters included.

## Model

| member | source | states |
|---|---|---|
| `Numbers.Decimal` | internal/storage/storage.go:61 | the placeholder number is written as decimal digits with no leading zero |
| `Numbers.DecimalValue` | internal/storage/storage.go:61 | the digits `Itoa` writes denote the number it was given |
| `Numbers.Atoi` | internal/api/api.go:92-97 | a text is accepted exactly when it is an optional sign followed by one or more digits whose signed value lies in the 64-bit range, and the result is that signed value (negated after `-`) |
| `Numbers.AtoiNegativeDecimal` | internal/api/api.go:94 | a `-` before `Itoa`'s text reads back the negated number, down to the smallest 64-bit value |
| `Numbers.AtoiLeadingZero` | internal/api/api.go:94 | a leading zero does not change the number read |
| `Numbers.LeadingZeroValue` | internal/api/api.go:94 | digits with a zero in front denote the same value |
| `Numbers.AtoiDecimal` | internal/api/api.go:94 | `Atoi` reads back what `Itoa` writes, with no sign, `-` or `+` |
| `Numbers.AtoiExamples` | internal/api/api.go:94-96 | empty text, a bare sign, trailing junk and leading blanks are refused; `-0` and `-12` are read with their sign |
| `Months.Before` | internal/service/service.go:106-111 | `time.Before` at month precision is order on month indices |
| `Months.After` | internal/service/service.go:99-104 | `time.After` at month precision is reverse order on month indices |
| `Months.Next` | internal/service/service.go:93-97 | the following calendar month is one index later, across a year end too |
| `Months.Parse` | internal/api/api.go:21 | layout `01-2006` accepts only seven characters, a dash in third place, and a four-digit year |
| `Months.Render` | internal/api/api.go:21 | the canonical `MM-YYYY` text of a month is seven characters with a dash in third place |
| `Months.ParseRender` | internal/api/api.go:21 | parsing the canonical text of a month gives the month back |
| `Months.RenderParse` | internal/api/api.go:100 | every text `time.Parse` accepts is already canonical: rendering the parsed month gives the same text |
| `Months.ParseExamples` | internal/api/api.go:100-105 | concrete texts: 01-2024 and 12-0000 parse; month 00 and 13, a one-digit month, a two-digit year, a slash and the empty text are refused |
| `Domain.Apply` | internal/domain/domain.go:71-99 | each `With*` option sets its own field to its value and leaves the other four alone |
| `Domain.ApplyAll` | internal/domain/domain.go:45-47 | after running options in order, the last option's field holds its value, and a field no option names keeps its starting value |
| `Domain.NewSubscription` | internal/domain/domain.go:42-49 | with no options the result is the zero subscription with a nil end date; otherwise the last option's value is kept, and every field no option sets is at its zero value |
| `Domain.LaterOptionWins` | internal/domain/domain.go:45-47 | two options on the same field: the later one decides the value |
| `Domain.DistinctOptionsCommute` | internal/domain/domain.go:71-99 | options on different fields can run in either order |
| `Domain.ApplyAllSnoc` | internal/domain/domain.go:45-47 | options run left to right: an appended option runs after all the others |
| `Domain.SubscriptionToOptions` | internal/domain/domain.go:51-69 | one option per present field, never two options for the same field |
| `Domain.BuildFromInput` | internal/domain/domain.go:51-69 | the built subscription copies each present field and leaves each absent one at its zero value |
| `Service.MaxMonth` | internal/service/service.go:99-104 | the result is one of the two arguments and is not before either |
| `Service.MinMonth` | internal/service/service.go:106-111 | the result is one of the two arguments and is not after either |
| `Service.MonthsInPeriod` | internal/service/service.go:93-97 | the count is the inclusive distance between the two months' indices, and non-positive when the end comes first |
| `Service.MonthsInPeriodSingle` | internal/service/service.go:96 | a range of one month counts one |
| `Service.MonthsInPeriodNext` | internal/service/service.go:93-97 | moving the end one calendar month later adds exactly one, also across a year boundary |
| `Service.MonthsInPeriodExample` | internal/service/service.go:93-97 | concrete counts: within a year, across a year end, and a reversed range |
| `Service.OverlapMonths` | internal/service/service.go:82-85 | the clamped count never exceeds the window length, and it is positive only when the row starts by the window's end and does not end before its start |
| `Service.Contribution` | internal/service/service.go:82-88 | a row adds its price once for every window month in which it is active |
| `Service.Total` | internal/service/service.go:77-89 | rows that each contribute nothing give a total of 0 |
| `Service.OverlapEnd` | internal/service/service.go:80-83 | the clamped end is never after the window end or the subscription's end, and an open end leaves the window end |
| `Service.ContributionAsWritten` | internal/service/service.go:79-88 | a row's contribution with a missing end date read as the zero time; it agrees with the corrected rule on rows that have an end |
| `Service.OpenEndedBilledNothingAsWritten` | internal/service/service.go:80-83 | as written, an open-ended row adds nothing to a window after January of year 1 |
| `Service.OpenEndedBilledWholeWindow` | internal/service/service.go:80-88 | corrected: an open-ended row that started by the window's opening pays for every window month |
| `Service.OpenEndedExample` | internal/service/service.go:80-88 | 100 a month since January 2024 with no end, summed over 2024: 0 as written, 1200 corrected |
| `Service.SummarizeRows` | internal/service/service.go:77-90 | the loop's running total equals the sum of per-row contributions |
| `Service.GetSubscriptionsSummary` | internal/service/service.go:68-90 | a query error is passed on with total 0, whatever the bounds; otherwise the total over the window is returned with no error |
| `Service.Search` | internal/service/service.go:24-36 | errors are passed on unchanged, zero rows become the nil list (not an error), other rows are passed through |
| `Service.ContributionBounds` | internal/service/service.go:82-88 | with a non-negative price a row adds between 0 and price times the window length |
| `Service.OutsideWindowAddsNothing` | internal/service/service.go:85-88 | a row ending before the window or starting after it adds nothing |
| `Service.ActiveCountClosedForm` | internal/service/service.go:82-85 | counting the active months one by one gives the clamp-and-subtract formula |
| `Service.TotalAppend` | internal/service/service.go:77-89 | the total over two batches of rows is the sum of their totals |
| `Service.TotalRemove` | internal/service/service.go:86-88 | taking one row out of a batch takes exactly its contribution out of the total |
| `Service.TotalPermutation` | internal/service/service.go:78-89 | the total does not depend on the order the rows arrive in |
| `Service.TotalNonNegative` | internal/service/service.go:77-90 | with non-negative prices the total is non-negative |
| `Service.TotalAtMostFullWindow` | internal/service/service.go:77-90 | with non-negative prices the total is at most the window length times the sum of prices |
| `Service.SummaryExamples` | internal/service/service.go:68-90 | concrete totals: a partial year, a row outside the window, and two rows |
| `Storage.Sql` | internal/storage/storage.go:99 | the query text sent starts with the fixed SELECT head, and a statement without placeholders is that head alone |
| `Storage.SearchConditions` | internal/storage/storage.go:60-84 | conditions come in the fixed column order, and each compares a column with that field's value |
| `Storage.SearchConditionsComplete` | internal/storage/storage.go:60-84 | every present filter field has a condition |
| `Storage.WhereFragments` | internal/storage/storage.go:60-88 | the i-th condition gets the i-th fragment, joined by WHERE/AND, with placeholder `$i+1` and that condition's value |
| `Storage.BuildSearchQuery` | internal/storage/storage.go:53-97 | placeholders run `$1..$n` with one argument each; conditions are joined by WHERE/AND; LIMIT follows them and OFFSET comes last; an empty filter gives the bare SELECT |
| `Storage.Where` | internal/storage/storage.go:86-88 | the WHERE clause keeps exactly the scanned rows that meet every condition, each as many times as it was scanned |
| `Storage.Matches` | internal/storage/storage.go:60-88 | a row meets the WHERE clause exactly when it equals the filter on every present field; an end-date condition never matches a NULL end |
| `Storage.ConditionsIffFieldsEqual` | internal/storage/storage.go:60-88 | all conditions hold of a row exactly when every present filter field equals the row's column |
| `Storage.Page` | internal/storage/storage.go:89-97 | OFFSET then LIMIT keep the rows from position `offset` on, at most `limit` of them, in order; with neither, everything |
| `Storage.SearchRows` | internal/storage/storage.go:89-97 | a negative LIMIT or OFFSET is an error; otherwise the result is the matching rows in scan order from position OFFSET on, at most LIMIT of them, and without paging exactly the matching rows |
| `Storage.SearchWithoutFieldsReturnsAll` | internal/storage/storage.go:53-97 | a search with no field and no paging returns every row |
| `Storage.Assignments` | internal/storage/storage.go:138-146 | the SET list is price and start date, plus end date only when one is given, and never a key column |
| `Storage.BuildUpdateQuery` | internal/storage/storage.go:137-149 | placeholders run `$1..$n` with one argument each, and the user id and service name are the last two |
| `Storage.Create` | internal/storage/storage.go:120-135 | a new key is added with the row and every other row is kept; an existing key is an error |
| `Storage.UpdatedRowFields` | internal/storage/storage.go:137-149 | an update keeps the key columns, sets price and start date, and sets the end date only when one is given |
| `Storage.Update` | internal/storage/storage.go:137-162 | an absent key gives the not-found message with the table unchanged; otherwise only that row changes, as the SET list says |
| `Storage.Delete` | internal/storage/storage.go:166-178 | an absent key gives "subscription not found" with the table unchanged; otherwise exactly that key is removed |
| `Storage.Overlaps` | internal/storage/storage.go:184-186 | with both window bounds given, the predicate holds exactly when the WHERE clause evaluates to TRUE under SQL's three-valued logic |
| `Storage.InPeriod` | internal/storage/storage.go:184-188 | for a filter, with either bound possibly nil (bound as NULL), the predicate holds exactly when the WHERE clause evaluates to TRUE; with both bounds it is the overlap test |
| `Storage.SubscriptionsForPeriod` | internal/storage/storage.go:180-188 | the rows returned are exactly the scanned rows whose WHERE clause is TRUE, each as many times as it was scanned; a nil end bound returns nothing, and a nil start bound returns only open-ended rows |
| `Storage.PeriodWithoutStartExample` | internal/storage/storage.go:184 | with a nil start bound, an open-ended row is still returned while a row with an end date is not |
| `Api.ValidateSubscriptionInput` | internal/api/api.go:338-363 | the body passes exactly when all seven rules hold; a failure reports the first rule broken |
| `Api.InputDatesNotCrossChecked` | internal/api/api.go:351-361 | an end date before the start date is accepted |
| `Api.ValidInputBuildsSubscription` | internal/api/api.go:171-179 | a valid body builds a subscription with its id, name, positive price and parsed start, and ends exactly when a non-empty end date was sent |
| `Api.ValidateFilter` | internal/api/api.go:365-392 | a filter passes exactly when it breaks no rule; a failure reports the first rule broken |
| `Api.ValidateFilterLenient` | internal/api/api.go:365-392 | the empty filter passes, and so does a reversed date pair |
| `Api.ValidateFilterRejections` | internal/api/api.go:366-390 | a bad user id is reported whatever else is wrong; an over-long service name, a malformed start-date text and a malformed end-date text are each reported with their own message when no other rule is broken; a non-positive price or limit, or a negative offset, on its own is reported with its own message |
| `Api.IntParam` | internal/api/api.go:92-97 | a number parameter is read as `strconv.Atoi` reads it: a non-empty text, within 64 bits |
| `Api.DateParam` | internal/api/api.go:98-114 | an empty text gives no bound; a non-empty text is accepted exactly when it parses and then gives the month whose canonical text it is; otherwise it is refused with the start-date message |
| `Api.SearchFilter` | internal/api/api.go:84-127 | wrong-length ids, over-long names and non-numbers are dropped silently; only a malformed date is refused |
| `Api.SearchRequest` | internal/api/api.go:84-132 | the search is accepted exactly when normalisation succeeds and the filter passes validation; an accepted filter is the normalised one, and a refusal carries the normaliser's or the validator's message |
| `Api.SearchFilterOnlyNumbersCanFail` | internal/api/api.go:84-132 | after normalisation only price, limit and offset can fail validation |
| `Api.WindowBound` | internal/api/api.go:301-316 | a bound is refused, with its own message, exactly when its text is present, non-empty and does not parse; a missing or empty text keeps the decoded bound; otherwise the bound is the month the text denotes |
| `Api.SummaryFilter` | internal/api/api.go:301-320 | the window is accepted exactly when neither text is malformed and each bound is given either decoded or as non-empty text; a missing or empty text keeps the decoded bound; bad text or a missing bound is refused with its own message |
| `Api.DeleteKeyAsWritten` | internal/api/api.go:249-261 | as written, the key is accepted exactly when the user id is non-empty, whatever the service name is |
| `Api.DeleteKeyAsWrittenAcceptsMissingParts` | internal/api/api.go:249-261 | as written, an empty service name and a one-character user id both get through |
| `Api.DeleteKey` | internal/api/api.go:249-261 | corrected: the key is accepted exactly when the user id has 36 characters and the service name is non-empty and at most 255 |
| `Api.HandleDelete` | internal/api/api.go:246-279 | with the corrected key check: a refused key leaves the table alone and answers with the key-required message; an absent row is not found; otherwise exactly that row is removed; every row left keeps its values; no internal error arises |
| `Pipeline.OverlapIffBilled` | internal/storage/storage.go:184 | for a well-formed row and an ordered window, the period query selects the row exactly when the summary bills it for at least one month |
| `Pipeline.OverlapWithoutBilling` | internal/storage/storage.go:184 | a row whose end precedes its start can be selected and still be billed nothing |
| `Pipeline.PeriodQueryKeepsTotal` | internal/storage/storage.go:180-188 | with no user or service restriction, the total over the query's rows equals the total over every row |

## Left out

- HTTP routing, JSON decoding and encoding, status codes, the recovery middleware, request timeouts and logging are not modelled. The handlers are reduced to their checks and their error mapping. A query parameter that was not sent reads as "".
- The PostgreSQL pool is abstract. A query's rows are a sequence in scan order, and the table is a map from key to row. Row scanning, `rows.Err()`, driver errors and `CloseDB` are left out. Driver errors appear only as the `Err` argument of `Service.GetSubscriptionsSummary` and `Service.Search`.
- Storage.Create: the unique key on (user_id, service_name) is assumed, because the schema is not part of this model. The source itself only checks that one row was affected.
- Storage.SearchRows: the error for a negative LIMIT or OFFSET is PostgreSQL's behaviour, not the repository's. The error text is a stand-in, and the order of rows within a page is the scan order.
- Service.GetSubscriptionsSummary: the window bounds are a `Filter`'s parsed months. The service re-parses `*filter.StartDate` as text with the error discarded; that step is not modelled, because the handler only passes bounds it has parsed.
- Service.GetSubscriptionsSummary: `price * months` and the running total are unbounded integers. Go's 64-bit wrap-around on overflow is not modelled.
- Service.ContributionAsWritten: the stored end date at service.go:80 is a `*string` handed to `time.Parse`. The model takes the behaviour of a parse of a missing value: the zero time with the error discarded.
- The service's `CreateSubscription`, `UpdateSubscription` and `DeleteSubscription` (service.go:38-66) only log and forward. They are modelled by `Storage.Create`, `Storage.Update` and `Storage.Delete`.
- Domain.SubscriptionToOptions: the Go builder copies date text verbatim into the subscription, including an empty end date. The model stores months, so the text goes through `Months.Parse`, and text that does not parse (including "") yields no option. Validation lets through no other unparseable date.
- Api.ValidateSubscriptionInput, Api.ValidateFilter, Api.SearchFilter and Api.DeleteKey: lengths are counted in characters. Go's `len` counts UTF-8 bytes; the two agree on ASCII text.
- The search handler keeps the parsed months in `Filter`, while the summary handler and `validateFilter` read `StartDateStr`/`EndDateStr`. Those fields do not exist in `domain.Filter` as written. The model's `Filter` carries both the text and the parsed form.
- Api.DateParam: a malformed `end_date` search parameter is reported with the start-date message (api.go:112). The model keeps that text as written.
- Command-line entry points, configuration, migrations, the service's test doubles and the Swagger annotations are not part of this model.

## Findings

| source | as written | input that shows it | evidently intended | confidence | as-written member | corrected member |
|---|---|---|---|---|---|---|
| internal/api/api.go:250-256 | the delete handler takes the user id when `userID != "" \|\| len(userID) == 36`, and the service name when `serviceName != "" \|\| len(serviceName) <= 255`; the second test holds for every name | `user_id=123e4567-e89b-12d3-a456-426614174000` with no `service_name` is accepted, and so is `user_id=x&service_name=Netflix` | both parts required and well-formed (`&&`, as the search handler writes it) | not executed; high | `Api.DeleteKeyAsWritten`, `Api.DeleteKeyAsWrittenAcceptsMissingParts` | `Api.DeleteKey` (used by `Api.HandleDelete`) |
| internal/service/service.go:80-83 | the stored end date is parsed with its error discarded, so a missing end becomes the zero time (January of year 1), and `minTime` then clamps the row to end there | one row at 100 a month from 01-2024 with no end, window 01-2024..12-2024: total 0 | an open end never clamps (the period query selects such rows on purpose with `end_date IS NULL`): total 1200 | not executed; medium, because line 80 passes the `*string` itself and so depends on how it is dereferenced | `Service.ContributionAsWritten`, `Service.OpenEndedBilledNothingAsWritten` | `Service.Contribution` via `Service.OpenEndedBilledWholeWindow` (used by `Service.Total`) |
