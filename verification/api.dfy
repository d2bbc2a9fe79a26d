/** The request-facing checks of the HTTP layer: validation of a create or
    update body, validation of a filter, the turning of search query
    parameters into a filter, the billing-window check of the summary
    endpoint, and the key check and error mapping of the delete endpoint.

    Every validator reports only the first failing check, as a message; the
    messages are the ones the handlers send back. Routing, JSON and status
    codes are not modelled; a query parameter that was not sent reads as "".
 */
module Api {
  import opened Wrappers
  import opened Numbers
  import opened Months
  import opened Domain
  import Storage

  // ---------------------------------------------------------------------------
  // validateSubscriptionInput
  // ---------------------------------------------------------------------------

  const UserIdRequired := "user_id is required correct format UUID"
  const ServiceNameRequired := "service_name is required"
  const ServiceNameTooLong := "service_name must not exceed 255 characters"
  const PriceNotPositive := "price must be positive"
  const StartDateRequired := "start_date is required"
  const BadStartDate := "invalid start_date format, expected MM-YYYY"
  const BadEndDate := "invalid end_date format, expected MM-YYYY"

  /** A present date text that is not the empty string and does not parse. */
  predicate Malformed(text: Option<string>) {
    text.Some? && text.value != "" && Parse(text.value).None?
  }

  /** Every rule a create/update body breaks, in the order they are checked. */
  function InputProblems(input: SubscriptionInput): seq<string> {
    (if input.userId.None? || |input.userId.value| != 36 then [UserIdRequired] else [])
    + (if input.serviceName.None? || input.serviceName.value == "" then [ServiceNameRequired] else [])
    + (if input.serviceName.Some? && |input.serviceName.value| > 255 then [ServiceNameTooLong] else [])
    + (if input.price.None? || input.price.value <= 0 then [PriceNotPositive] else [])
    + (if input.startDate.None? || input.startDate.value == "" then [StartDateRequired] else [])
    + (if input.startDate.Some? && Parse(input.startDate.value).None? then [BadStartDate] else [])
    + (if Malformed(input.endDate) then [BadEndDate] else [])
  }

  /** `validateSubscriptionInput`. It passes exactly when the user id is
      present with 36 characters, the service name is present, non-empty and
      at most 255 characters, the price is present and positive, the start
      date is present and parses, and the end date is absent, empty or
      parses. Otherwise it reports the first rule broken. */
  function ValidateSubscriptionInput(input: SubscriptionInput): (r: Outcome<string>)
    ensures r.Pass? <==>
      && input.userId.Some? && |input.userId.value| == 36
      && input.serviceName.Some? && input.serviceName.value != "" && |input.serviceName.value| <= 255
      && input.price.Some? && input.price.value > 0
      && input.startDate.Some? && Parse(input.startDate.value).Some?
      && (input.endDate.None? || input.endDate.value == "" || Parse(input.endDate.value).Some?)
    ensures r.Fail? ==> |InputProblems(input)| > 0 && r.error == InputProblems(input)[0]
  {
    if input.userId.None? || input.userId.value == "" || |input.userId.value| != 36 then
      Fail(UserIdRequired)
    else if input.serviceName.None? || input.serviceName.value == "" then
      Fail(ServiceNameRequired)
    else if input.serviceName.Some? && |input.serviceName.value| > 255 then
      Fail(ServiceNameTooLong)
    else if input.price.None? || input.price.value <= 0 then
      Fail(PriceNotPositive)
    else if input.startDate.None? || input.startDate.value == "" then
      Fail(StartDateRequired)
    else if Parse(input.startDate.value).None? then
      Fail(BadStartDate)
    else if input.endDate.Some? && input.endDate.value != "" && Parse(input.endDate.value).None? then
      Fail(BadEndDate)
    else
      Pass
  }

  /** The dates are not compared with each other: a body whose end date
      precedes its start date is accepted. */
  lemma InputDatesNotCrossChecked()
    ensures ValidateSubscriptionInput(SubscriptionInput(
              Some("123e4567-e89b-12d3-a456-426614174000"), Some("Netflix"), Some(100),
              Some("05-2024"), Some("01-2024"))) == Pass
  {
    assert |"123e4567-e89b-12d3-a456-426614174000"| == 36;
  }

  /** A body that passes validation builds, through the option builder, a
      subscription carrying the body's user id, service name, price and start
      month; its end date is absent exactly when the body's is absent or empty. */
  lemma ValidInputBuildsSubscription(input: SubscriptionInput)
    requires ValidateSubscriptionInput(input).Pass?
    ensures var s := NewSubscription(SubscriptionToOptions(input));
      && s.userId == input.userId.value && |s.userId| == 36
      && s.serviceName == input.serviceName.value
      && s.price == input.price.value && s.price > 0
      && Some(s.startDate) == Parse(input.startDate.value)
      && (s.endDate.None? <==> input.endDate.None? || input.endDate.value == "")
      && (s.endDate.Some? ==> Some(s.endDate.value) == Parse(input.endDate.value))
  {
    BuildFromInput(input);
  }

  // ---------------------------------------------------------------------------
  // validateFilter
  // ---------------------------------------------------------------------------

  const UserIdNotUuid := "user_id must be correct format UUID"
  const LimitNotPositive := "limit must be positive"
  const OffsetNegative := "offset must be non-negative"

  /** Every rule a filter breaks, in the order they are checked. */
  function FilterProblems(f: Filter): seq<string> {
    (if f.userId.Some? && |f.userId.value| != 36 then [UserIdNotUuid] else [])
    + (if f.serviceName.Some? && |f.serviceName.value| > 255 then [ServiceNameTooLong] else [])
    + (if f.price.Some? && f.price.value <= 0 then [PriceNotPositive] else [])
    + (if Malformed(f.startDateText) then [BadStartDate] else [])
    + (if Malformed(f.endDateText) then [BadEndDate] else [])
    + (if f.limit.Some? && f.limit.value <= 0 then [LimitNotPositive] else [])
    + (if f.offset.Some? && f.offset.value < 0 then [OffsetNegative] else [])
  }

  /** `validateFilter`: passes when no rule is broken, and otherwise reports
      the first broken rule only. Absent fields are never checked. */
  function ValidateFilter(f: Filter): (r: Outcome<string>)
    ensures r.Pass? <==> FilterProblems(f) == []
    ensures r.Fail? ==> r.error == FilterProblems(f)[0]
  {
    if f.userId.Some? && |f.userId.value| != 36 then
      Fail(UserIdNotUuid)
    else if f.serviceName.Some? && |f.serviceName.value| > 255 then
      Fail(ServiceNameTooLong)
    else if f.price.Some? && f.price.value <= 0 then
      Fail(PriceNotPositive)
    else if f.startDateText.Some? && f.startDateText.value != "" && Parse(f.startDateText.value).None? then
      Fail(BadStartDate)
    else if f.endDateText.Some? && f.endDateText.value != "" && Parse(f.endDateText.value).None? then
      Fail(BadEndDate)
    else if f.limit.Some? && f.limit.value <= 0 then
      Fail(LimitNotPositive)
    else if f.offset.Some? && f.offset.value < 0 then
      Fail(OffsetNegative)
    else
      Pass
  }

  /** A filter with every field absent passes; so does one whose end date
      text precedes its start date text, since the two are not compared. */
  lemma ValidateFilterLenient()
    ensures ValidateFilter(EmptyFilter) == Pass
    ensures ValidateFilter(EmptyFilter.(startDateText := Some("05-2024"), endDateText := Some("01-2024"))) == Pass
  {
    assert Parse("05-2024").Some? && Parse("01-2024").Some?;
  }

  /** Each rule, when it is the only one broken, is reported with its own
      message; a bad user id is reported whatever else is wrong. */
  lemma ValidateFilterRejections(f: Filter)
    ensures f.userId.Some? && |f.userId.value| != 36 ==> ValidateFilter(f) == Fail(UserIdNotUuid)
    ensures f.serviceName.Some? && |f.serviceName.value| > 255 && FilterProblems(f.(serviceName := None)) == [] ==>
              ValidateFilter(f) == Fail(ServiceNameTooLong)
    ensures Malformed(f.startDateText) && FilterProblems(f.(startDateText := None)) == [] ==>
              ValidateFilter(f) == Fail(BadStartDate)
    ensures Malformed(f.endDateText) && FilterProblems(f.(endDateText := None)) == [] ==>
              ValidateFilter(f) == Fail(BadEndDate)
    ensures f.price.Some? && f.price.value <= 0 && FilterProblems(f.(price := None)) == [] ==>
              ValidateFilter(f) == Fail(PriceNotPositive)
    ensures f.limit.Some? && f.limit.value <= 0 && FilterProblems(f.(limit := None)) == [] ==>
              ValidateFilter(f) == Fail(LimitNotPositive)
    ensures f.offset.Some? && f.offset.value < 0 && FilterProblems(f.(offset := None)) == [] ==>
              ValidateFilter(f) == Fail(OffsetNegative)
  {
  }

  // ---------------------------------------------------------------------------
  // SearchSubscriptions: query parameters to filter
  // ---------------------------------------------------------------------------

  /** The query string of a search request; a parameter not sent reads "". */
  datatype SearchParams = SearchParams(
    userId: string, serviceName: string, price: string,
    startDate: string, endDate: string, limit: string, offset: string)

  /** A date parameter: absent when empty, otherwise it must parse. Both date
      parameters report the start-date message: the handler uses that text
      for a bad end date too. */
  function DateParam(text: string): (r: Result<Option<Month>, string>)
    ensures r.Ok? <==> text == "" || Parse(text).Some?
    ensures r.Err? ==> r.error == BadStartDate
    ensures r.Ok? ==> (r.value.None? <==> text == "")
    ensures r.Ok? && r.value.Some? ==> Renderable(r.value.value) && Render(r.value.value) == text
  {
    if text == "" then Ok(None)
    else if Parse(text).Some? then
      RenderParse(text);
      Ok(Some(Parse(text).value))
    else Err(BadStartDate)
  }

  /** A numeric parameter: kept when `Atoi` accepts it, silently dropped
      otherwise. The handler's test for an empty parameter changes nothing,
      since `Atoi` refuses the empty text too. */
  function IntParam(text: string): (r: Option<int>)
    ensures r == Atoi(text)
    ensures r.Some? ==> text != "" && MinInt64 <= r.value <= MaxInt64
  {
    if text != "" then Atoi(text) else None
  }

  /** The filter `SearchSubscriptions` builds from its query parameters.
      A user id of the wrong length and an over-long service name are
      dropped rather than refused, as are non-numeric price, limit and
      offset; only a malformed date is refused. */
  function SearchFilter(q: SearchParams): (r: Result<Filter, string>)
    ensures r.Err? <==> DateParam(q.startDate).Err? || DateParam(q.endDate).Err?
    ensures r.Ok? ==>
      && (r.value.userId.Some? <==> |q.userId| == 36)
      && (r.value.userId.Some? ==> r.value.userId.value == q.userId)
      && (r.value.serviceName.Some? <==> q.serviceName != "" && |q.serviceName| <= 255)
      && (r.value.serviceName.Some? ==> r.value.serviceName.value == q.serviceName)
      && r.value.price == Atoi(q.price) && r.value.limit == Atoi(q.limit) && r.value.offset == Atoi(q.offset)
      && (r.value.startDate.Some? <==> q.startDate != "")
      && (r.value.startDate.Some? ==> Some(r.value.startDate.value) == Parse(q.startDate))
      && (r.value.endDate.Some? <==> q.endDate != "")
      && (r.value.endDate.Some? ==> Some(r.value.endDate.value) == Parse(q.endDate))
      && r.value.startDateText.None? && r.value.endDateText.None?
  {
    var userId := if q.userId != "" && |q.userId| == 36 then Some(q.userId) else None;
    var serviceName := if q.serviceName != "" && |q.serviceName| <= 255 then Some(q.serviceName) else None;
    var price := IntParam(q.price);
    match DateParam(q.startDate)
    case Err(e) => Err(e)
    case Ok(start) =>
      match DateParam(q.endDate)
      case Err(e) => Err(e)
      case Ok(end) =>
        Ok(Filter(userId, serviceName, price, None, None, start, end, IntParam(q.limit), IntParam(q.offset)))
  }

  /** `SearchSubscriptions` up to the service call: the normalised filter,
      then `validateFilter`. */
  function SearchRequest(q: SearchParams): (r: Result<Filter, string>)
    ensures r.Ok? <==> SearchFilter(q).Ok? && ValidateFilter(SearchFilter(q).value).Pass?
    ensures r.Ok? ==> r.value == SearchFilter(q).value
    ensures SearchFilter(q).Err? ==> r == Err(SearchFilter(q).error)
    ensures SearchFilter(q).Ok? && ValidateFilter(SearchFilter(q).value).Fail? ==>
              r == Err(ValidateFilter(SearchFilter(q).value).error)
  {
    match SearchFilter(q)
    case Err(e) => Err(e)
    case Ok(f) =>
      match ValidateFilter(f)
      case Fail(e) => Err(e)
      case Pass => Ok(f)
  }

  /** After normalisation the filter's user-id, service-name and date checks
      can never fire: the only rules a normalised filter can break are a
      non-positive price, a non-positive limit and a negative offset. */
  lemma SearchFilterOnlyNumbersCanFail(q: SearchParams)
    requires SearchFilter(q).Ok?
    ensures var f := SearchFilter(q).value;
      ValidateFilter(f) == Pass <==>
        (f.price.None? || f.price.value > 0)
        && (f.limit.None? || f.limit.value > 0)
        && (f.offset.None? || f.offset.value >= 0)
    ensures ValidateFilter(SearchFilter(q).value) != Fail(UserIdNotUuid)
    ensures ValidateFilter(SearchFilter(q).value) != Fail(ServiceNameTooLong)
  {
  }

  // ---------------------------------------------------------------------------
  // GetSubscriptionsSummary handler: the billing window
  // ---------------------------------------------------------------------------

  const WindowRequired := "start_date and end_date are required"

  /** One window bound: a non-empty text replaces the decoded month and must
      parse; an absent or empty text keeps it. */
  function WindowBound(text: Option<string>, decoded: Option<Month>, message: string): (r: Result<Option<Month>, string>)
    ensures r.Err? <==> Malformed(text)
    ensures r.Err? ==> r.error == message
    ensures r.Ok? && (text.None? || text.value == "") ==> r.value == decoded
    ensures r.Ok? && text.Some? && text.value != "" ==> r.value.Some? && Renderable(r.value.value) && Render(r.value.value) == text.value
  {
    if text.Some? && text.value != "" then
      if Parse(text.value).Some? then
        RenderParse(text.value);
        Ok(Some(Parse(text.value).value))
      else Err(message)
    else Ok(decoded)
  }

  /** The summary handler's checks before it calls the service: each window
      bound text is parsed when given, and the request is refused unless both
      bounds are then present. A successful result carries both bounds, which
      the service dereferences. The two bounds are not compared. */
  function SummaryFilter(f: Filter): (r: Result<Filter, string>)
    ensures r.Ok? <==>
      && !Malformed(f.startDateText) && !Malformed(f.endDateText)
      && (f.startDate.Some? || (f.startDateText.Some? && f.startDateText.value != ""))
      && (f.endDate.Some? || (f.endDateText.Some? && f.endDateText.value != ""))
    ensures r.Ok? ==> r.value.startDate.Some? && r.value.endDate.Some?
    ensures r.Ok? && (f.startDateText.None? || f.startDateText.value == "") ==> r.value.startDate == f.startDate
    ensures r.Ok? && (f.endDateText.None? || f.endDateText.value == "") ==> r.value.endDate == f.endDate
    ensures r.Ok? ==> r.value == f.(startDate := r.value.startDate, endDate := r.value.endDate)
    ensures r.Ok? && f.startDateText.Some? && f.startDateText.value != "" ==>
              Some(r.value.startDate.value) == Parse(f.startDateText.value)
    ensures r.Ok? && f.endDateText.Some? && f.endDateText.value != "" ==>
              Some(r.value.endDate.value) == Parse(f.endDateText.value)
    ensures Malformed(f.startDateText) ==> r == Err(BadStartDate)
    ensures !Malformed(f.startDateText) && Malformed(f.endDateText) ==> r == Err(BadEndDate)
    ensures ((f.startDateText.None? || f.startDateText.value == "") && f.startDate.None?
             && !Malformed(f.endDateText)) ==> r == Err(WindowRequired)
    ensures ((f.endDateText.None? || f.endDateText.value == "") && f.endDate.None?
             && !Malformed(f.startDateText)) ==> r == Err(WindowRequired)
  {
    match WindowBound(f.startDateText, f.startDate, BadStartDate)
    case Err(e) => Err(e)
    case Ok(start) =>
      match WindowBound(f.endDateText, f.endDate, BadEndDate)
      case Err(e) => Err(e)
      case Ok(end) =>
        if start.None? || end.None? then Err(WindowRequired)
        else Ok(f.(startDate := start, endDate := end))
  }

  // ---------------------------------------------------------------------------
  // DeleteSubscription handler
  // ---------------------------------------------------------------------------

  const KeyRequired := "user_id and service_name are required"

  /** The key check as written: a user id is taken when it is non-empty OR
      36 characters long, a service name when it is non-empty OR at most 255
      characters long. The second test holds for every name, the empty one
      included, so the "required" refusal never fires for a missing service
      name, and a user id of any non-zero length is taken. */
  function DeleteKeyAsWritten(userId: string, serviceName: string): (r: Result<Key, string>)
    ensures r.Ok? <==> userId != ""
    ensures r.Ok? ==> r.value == Key(userId, serviceName)
  {
    var uid := if userId != "" || |userId| == 36 then Some(userId) else None;
    var svc := if serviceName != "" || |serviceName| <= 255 then Some(serviceName) else None;
    if uid.None? || svc.None? then Err(KeyRequired) else Ok(Key(uid.value, svc.value))
  }

  /** The evidence: a request without a service name, and one with a
      one-character user id, both get through. */
  lemma DeleteKeyAsWrittenAcceptsMissingParts()
    ensures DeleteKeyAsWritten("123e4567-e89b-12d3-a456-426614174000", "")
              == Ok(Key("123e4567-e89b-12d3-a456-426614174000", ""))
    ensures DeleteKeyAsWritten("x", "Netflix") == Ok(Key("x", "Netflix"))
  {
  }

  /** The key check as evidently intended (the conjunction the search handler
      uses): a 36-character user id and a non-empty service name of at most
      255 characters are both required. */
  function DeleteKey(userId: string, serviceName: string): (r: Result<Key, string>)
    ensures r.Ok? <==> |userId| == 36 && serviceName != "" && |serviceName| <= 255
    ensures r.Ok? ==> r.value == Key(userId, serviceName)
    ensures r.Err? ==> r.error == KeyRequired
  {
    var uid := if userId != "" && |userId| == 36 then Some(userId) else None;
    var svc := if serviceName != "" && |serviceName| <= 255 then Some(serviceName) else None;
    if uid.None? || svc.None? then Err(KeyRequired) else Ok(Key(uid.value, svc.value))
  }

  /** How the delete endpoint answers. */
  datatype DeleteReply = BadRequest(message: string) | KeyNotFound | Deleted | InternalError

  /** `DeleteSubscription` against a table, with the corrected key check
      `DeleteKey` in place of the `||` tests: a refused key leaves the table
      alone; otherwise the storage delete runs and its "subscription not
      found" error becomes the not-found reply. Every row left behind keeps
      its values. */
  function HandleDelete(db: Storage.Table, userId: string, serviceName: string): (r: (Storage.Table, DeleteReply))
    ensures r.1.BadRequest? <==> DeleteKey(userId, serviceName).Err?
    ensures r.1.BadRequest? ==> r.1.message == KeyRequired
    ensures forall k :: k in r.0 ==> k in db && r.0[k] == db[k]
    ensures r.1.BadRequest? || r.1 == KeyNotFound ==> r.0 == db
    ensures r.1 == KeyNotFound <==> DeleteKey(userId, serviceName).Ok? && Key(userId, serviceName) !in db
    ensures r.1 == Deleted <==> Key(userId, serviceName) in db && DeleteKey(userId, serviceName).Ok?
    ensures r.1 == Deleted ==> r.0.Keys == db.Keys - {Key(userId, serviceName)}
    ensures r.1 != InternalError
  {
    match DeleteKey(userId, serviceName)
    case Err(e) => (db, BadRequest(e))
    case Ok(key) =>
      var (db', err) := Storage.Delete(db, key);
      if err.None? then (db', Deleted)
      else if err.value.message == "subscription not found" then (db', KeyNotFound)
      else (db', InternalError)
  }
}
