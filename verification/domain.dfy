/** The service's entities: a subscription, the partial input a client sends
    to create or update one, the search/summary filter, and the option
    builder that turns a partial input into a subscription.

    Dates: the Go types declare them as text, while the handlers assign
    parsed times to them and the service parses stored ones. Here a stored
    date is a `Month` and a stored end date is an `Option<Month>` whose `None`
    means "open-ended" (the `end_date IS NULL` case of the period query); the
    client's input keeps its raw text until it is validated and parsed.
 */
module Domain {
  import opened Wrappers
  import opened Months

  /** One user's paid access to one service; `(userId, serviceName)` is its key. */
  datatype Subscription = Subscription(
    userId: string,
    serviceName: string,
    price: int,
    startDate: Month,
    endDate: Option<Month>)

  datatype Key = Key(userId: string, serviceName: string)

  function KeyOf(s: Subscription): Key {
    Key(s.userId, s.serviceName)
  }

  /** A subscription whose end, when known, is not before its start. */
  predicate WellFormed(s: Subscription) {
    s.endDate.None? || !Before(s.endDate.value, s.startDate)
  }

  /** The errors the storage layer reports: a key that matches no row, and
      every other failure of the database (its text is opaque here). */
  datatype Error = NotFound(message: string) | StorageFailure(message: string)

  /** The JSON body of a create or update request; every field may be missing. */
  datatype SubscriptionInput = SubscriptionInput(
    userId: Option<string>,
    serviceName: Option<string>,
    price: Option<int>,
    startDate: Option<string>,
    endDate: Option<string>)

  /** Search and summary filter. `startDateText`/`endDateText` are the request's
      date text (the `StartDateStr`/`EndDateStr` fields the handlers read);
      `startDate`/`endDate` are the parsed months the queries use. */
  datatype Filter = Filter(
    userId: Option<string>,
    serviceName: Option<string>,
    price: Option<int>,
    startDateText: Option<string>,
    endDateText: Option<string>,
    startDate: Option<Month>,
    endDate: Option<Month>,
    limit: Option<int>,
    offset: Option<int>)

  const EmptyFilter: Filter := Filter(None, None, None, None, None, None, None, None, None)

  // ---------------------------------------------------------------------------
  // The option builder
  // ---------------------------------------------------------------------------

  /** The five `With*` options, each setting one field. */
  datatype SubscriptionOption =
    | WithUserId(id: string)
    | WithServiceName(name: string)
    | WithPrice(amount: int)
    | WithStartDate(start: Month)
    | WithEndDate(end: Month)

  datatype Field = UserIdField | ServiceNameField | PriceField | StartDateField | EndDateField

  function FieldOf(opt: SubscriptionOption): Field {
    match opt
    case WithUserId(_) => UserIdField
    case WithServiceName(_) => ServiceNameField
    case WithPrice(_) => PriceField
    case WithStartDate(_) => StartDateField
    case WithEndDate(_) => EndDateField
  }

  /** `a` and `b` agree on every field except possibly `f`. */
  predicate SameExcept(a: Subscription, b: Subscription, f: Field) {
    && (f == UserIdField || a.userId == b.userId)
    && (f == ServiceNameField || a.serviceName == b.serviceName)
    && (f == PriceField || a.price == b.price)
    && (f == StartDateField || a.startDate == b.startDate)
    && (f == EndDateField || a.endDate == b.endDate)
  }

  /** `s` holds the value that `opt` carries in the field `opt` sets. */
  predicate Carries(s: Subscription, opt: SubscriptionOption) {
    match opt
    case WithUserId(id) => s.userId == id
    case WithServiceName(name) => s.serviceName == name
    case WithPrice(amount) => s.price == amount
    case WithStartDate(start) => s.startDate == start
    case WithEndDate(end) => s.endDate == Some(end)
  }

  /** Running one option on a subscription: it sets its own field to its
      value and changes nothing else. */
  function Apply(opt: SubscriptionOption, s: Subscription): (r: Subscription)
    ensures Carries(r, opt)
    ensures SameExcept(r, s, FieldOf(opt))
  {
    match opt
    case WithUserId(id) => s.(userId := id)
    case WithServiceName(name) => s.(serviceName := name)
    case WithPrice(amount) => s.(price := amount)
    case WithStartDate(start) => s.(startDate := start)
    case WithEndDate(end) => s.(endDate := Some(end))
  }

  /** Of two options on the same field the later one wins. */
  lemma LaterOptionWins(first: SubscriptionOption, second: SubscriptionOption, s: Subscription)
    requires FieldOf(first) == FieldOf(second)
    ensures Apply(second, Apply(first, s)) == Apply(second, s)
  {
  }

  /** Options on different fields commute. */
  lemma DistinctOptionsCommute(a: SubscriptionOption, b: SubscriptionOption, s: Subscription)
    requires FieldOf(a) != FieldOf(b)
    ensures Apply(a, Apply(b, s)) == Apply(b, Apply(a, s))
  {
  }

  /** The zero `Subscription{}`: empty strings, zero price, zero start date,
      nil end date. */
  const ZeroSubscription: Subscription := Subscription("", "", 0, Zero, None)

  /** Runs the options on `s` from left to right: the last option holds its
      value, and a field no option sets keeps the value it had in `s`. */
  function ApplyAll(opts: seq<SubscriptionOption>, s: Subscription): (r: Subscription)
    ensures |opts| > 0 ==> Carries(r, opts[|opts| - 1])
    ensures forall f :: (forall i :: 0 <= i < |opts| ==> FieldOf(opts[i]) != f) ==> SameOn(r, s, f)
    decreases |opts|
  {
    if |opts| == 0 then s
    else
      var first := Apply(opts[0], s);
      var r := ApplyAll(opts[1..], first);
      assert forall f :: (forall i :: 0 <= i < |opts| ==> FieldOf(opts[i]) != f) ==> SameOn(r, s, f) by {
        forall f | forall i :: 0 <= i < |opts| ==> FieldOf(opts[i]) != f
          ensures SameOn(r, s, f)
        {
          forall i | 0 <= i < |opts[1..]|
            ensures FieldOf(opts[1..][i]) != f
          {
            assert opts[1..][i] == opts[i + 1];
          }
          assert FieldOf(opts[0]) != f;
          assert SameOn(r, first, f);
          assert SameOn(first, s, f);
        }
      }
      r
  }

  /** `NewSubscription(opts...)`: the zero subscription with every option
      applied in order. With no options it is the zero subscription, whose
      end date is nil; otherwise the last option holds its value, and a field
      no option sets stays at its zero value. */
  function NewSubscription(opts: seq<SubscriptionOption>): (r: Subscription)
    ensures opts == [] ==> r == ZeroSubscription && r.endDate.None?
    ensures |opts| > 0 ==> Carries(r, opts[|opts| - 1])
    ensures forall f :: (forall i :: 0 <= i < |opts| ==> FieldOf(opts[i]) != f) ==> SameOn(r, ZeroSubscription, f)
  {
    ApplyAll(opts, ZeroSubscription)
  }

  /** Appending an option runs it after all the others. */
  lemma {:induction false} ApplyAllSnoc(opts: seq<SubscriptionOption>, o: SubscriptionOption, s: Subscription)
    ensures ApplyAll(opts + [o], s) == Apply(o, ApplyAll(opts, s))
    decreases |opts|
  {
    if |opts| == 0 {
      assert opts + [o] == [o];
    } else {
      assert (opts + [o])[1..] == opts[1..] + [o];
      ApplyAllSnoc(opts[1..], o, Apply(opts[0], s));
    }
  }

  /** `a` and `b` agree on field `f`. */
  predicate SameOn(a: Subscription, b: Subscription, f: Field) {
    match f
    case UserIdField => a.userId == b.userId
    case ServiceNameField => a.serviceName == b.serviceName
    case PriceField => a.price == b.price
    case StartDateField => a.startDate == b.startDate
    case EndDateField => a.endDate == b.endDate
  }

  // ---------------------------------------------------------------------------
  // From a partial input to options
  // ---------------------------------------------------------------------------

  /** The month a date text denotes, when it parses. The option builder copies
      date text verbatim; a stored date is a month, so the copy goes through
      `Parse`. Validation lets through only date text that parses, except an
      empty end date, which it reads as "no end date" and which therefore
      yields no option here. */
  function DateOption(text: Option<string>): Option<Month> {
    if text.Some? then Parse(text.value) else None
  }

  /** 1 when `b` holds, else 0: counts the present fields of an input. */
  function Indicator(b: bool): nat {
    if b then 1 else 0
  }

  /** `SubscriptionToOptions`: one option per present field, in the order
      user id, service name, price, start date, end date. */
  function SubscriptionToOptions(input: SubscriptionInput): (opts: seq<SubscriptionOption>)
    ensures |opts| == Indicator(input.userId.Some?) + Indicator(input.serviceName.Some?)
                      + Indicator(input.price.Some?) + Indicator(DateOption(input.startDate).Some?)
                      + Indicator(DateOption(input.endDate).Some?)
    ensures forall i, j :: 0 <= i < j < |opts| ==> FieldOf(opts[i]) != FieldOf(opts[j])
  {
    var start := DateOption(input.startDate);
    var end := DateOption(input.endDate);
    (if input.userId.Some? then [WithUserId(input.userId.value)] else [])
    + (if input.serviceName.Some? then [WithServiceName(input.serviceName.value)] else [])
    + (if input.price.Some? then [WithPrice(input.price.value)] else [])
    + (if start.Some? then [WithStartDate(start.value)] else [])
    + (if end.Some? then [WithEndDate(end.value)] else [])
  }

  /** `NewSubscription(SubscriptionToOptions(input))` copies every present
      field and leaves every absent one at its zero value; in particular an
      absent end date stays absent and a present one is kept. */
  lemma BuildFromInput(input: SubscriptionInput)
    ensures var s := NewSubscription(SubscriptionToOptions(input));
      && s.userId == input.userId.GetOr("")
      && s.serviceName == input.serviceName.GetOr("")
      && s.price == input.price.GetOr(0)
      && s.startDate == DateOption(input.startDate).GetOr(Zero)
      && s.endDate == DateOption(input.endDate)
  {
    var start := DateOption(input.startDate);
    var end := DateOption(input.endDate);
    var o1 := if input.userId.Some? then [WithUserId(input.userId.value)] else [];
    var o2 := if input.serviceName.Some? then [WithServiceName(input.serviceName.value)] else [];
    var o3 := if input.price.Some? then [WithPrice(input.price.value)] else [];
    var o4 := if start.Some? then [WithStartDate(start.value)] else [];
    var o5 := if end.Some? then [WithEndDate(end.value)] else [];
    var z := ZeroSubscription;
    var s1 := ApplyAllPiece(o1, z, []);
    var s2 := ApplyAllPiece(o2, s1, o1);
    var s3 := ApplyAllPiece(o3, s2, o1 + o2);
    var s4 := ApplyAllPiece(o4, s3, o1 + o2 + o3);
    var s5 := ApplyAllPiece(o5, s4, o1 + o2 + o3 + o4);
    assert o1 + o2 + o3 + o4 + o5 == SubscriptionToOptions(input);
    assert s1.userId == input.userId.GetOr("");
    assert s2.serviceName == input.serviceName.GetOr("") && s2.userId == s1.userId;
    assert s3.price == input.price.GetOr(0) && s3.userId == s1.userId && s3.serviceName == s2.serviceName;
    assert s4.startDate == start.GetOr(Zero) && s4.price == s3.price;
    assert s5.endDate == end && s5.startDate == s4.startDate;
  }

  /** One step of `BuildFromInput`: appending zero or one option. */
  lemma ApplyAllPiece(piece: seq<SubscriptionOption>, before: Subscription,
                      prefix: seq<SubscriptionOption>)
      returns (after: Subscription)
    requires |piece| <= 1
    requires ApplyAll(prefix, ZeroSubscription) == before
    ensures ApplyAll(prefix + piece, ZeroSubscription) == after
    ensures |piece| == 0 ==> after == before
    ensures |piece| == 1 ==> after == Apply(piece[0], before)
  {
    if |piece| == 0 {
      assert prefix + piece == prefix;
      after := before;
    } else {
      assert piece == [piece[0]];
      ApplyAllSnoc(prefix, piece[0], ZeroSubscription);
      after := Apply(piece[0], before);
    }
  }
}
