/** The billing REST lambda: this month's cost, last month's cost and the
    forecast for the rest of this month, each asked of Cost Explorer for a
    period written as `YYYY-MM-DD` strings. The clock is the `today`
    parameter; Cost Explorer is a pair of functions from a period to a
    response; amounts are opaque strings. */
module Billing {
  import opened Results
  import opened Numerals

  const HttpOk := 200
  const HttpUnauthorized := 401

  /** The two kinds of value `set_leading_zero` can return. */
  datatype PyValue = PyInt(n: int) | PyStr(s: string)

  /** `str(v)`. */
  function Str(v: PyValue): string {
    match v
    case PyInt(n) => IntToString(n)
    case PyStr(s) => s
  }

  /** A natural number has a one-character decimal form exactly when it is
      below ten. */
  lemma OneDigit(n: nat)
    ensures |NatToString(n)| == 1 <==> n < 10
  {
    if n >= 10 {
      assert NatToString(n) == NatToString(n / 10) + [DigitChar(n % 10)];
    }
  }

  /** `set_leading_zero`: a one-digit number becomes the string `"0d"`;
      any other number is returned unchanged, still an integer. */
  function SetLeadingZero(number: nat): (r: PyValue)
    ensures r.PyStr? <==> number < 10
    ensures r.PyInt? ==> r.n == number
    ensures number < 100 ==> Str(r) == TwoDigits(number)
  {
    OneDigit(number);
    assert number >= 10 ==> NatToString(number) == NatToString(number / 10) + [DigitChar(number % 10)];
    if |NatToString(number)| == 1 then PyStr("0" + NatToString(number)) else PyInt(number)
  }

  /** The padded form reads back as the number. */
  lemma LeadingZeroRoundTrip(number: nat)
    requires number < 100
    ensures IsDigits(Str(SetLeadingZero(number))) && Value(Str(SetLeadingZero(number))) == number
  {
    TwoDigitsRoundTrip(number);
  }

  /** `calendar.isleap`: the Gregorian rule. */
  predicate IsLeap(year: int) {
    year % 4 == 0 && (year % 100 != 0 || year % 400 == 0)
  }

  /** `calendar.monthrange(year, month)[1]`. */
  function DaysInMonth(year: int, month: int): (r: nat)
    requires 1 <= month <= 12
    ensures 28 <= r <= 31
    ensures month == 2 ==> (r == 29 <==> IsLeap(year))
  {
    if month == 2 then (if IsLeap(year) then 29 else 28)
    else if month in {4, 6, 9, 11} then 30
    else 31
  }

  function YearLength(year: int): nat {
    if IsLeap(year) then 366 else 365
  }

  /** A calendar date as `datetime.date` holds it. */
  datatype Date = Date(year: int, month: int, day: int)

  /** The dates `datetime.date` can represent. */
  predicate Valid(d: Date) {
    1 <= d.year <= 9999 && 1 <= d.month <= 12 && 1 <= d.day <= DaysInMonth(d.year, d.month)
  }

  function DaysBeforeYear(year: int): nat
    requires year >= 1
  {
    if year == 1 then 0 else DaysBeforeYear(year - 1) + YearLength(year - 1)
  }

  function DaysBeforeMonth(year: int, month: int): nat
    requires 1 <= month <= 12
  {
    if month == 1 then 0 else DaysBeforeMonth(year, month - 1) + DaysInMonth(year, month - 1)
  }

  /** The day count from 0001-01-01 (which is day 1): an independent
      reference for date arithmetic. */
  function Ordinal(d: Date): nat
    requires Valid(d)
  {
    DaysBeforeYear(d.year) + DaysBeforeMonth(d.year, d.month) + d.day
  }

  /** The months' lengths add up to the year's. */
  lemma MonthsFillYear(year: int)
    ensures DaysBeforeMonth(year, 12) + DaysInMonth(year, 12) == YearLength(year)
  {
    var feb := DaysInMonth(year, 2);
    assert DaysBeforeMonth(year, 2) == 31;
    assert DaysBeforeMonth(year, 3) == 31 + feb;
    assert DaysBeforeMonth(year, 4) == 31 + feb + 31;
    assert DaysBeforeMonth(year, 5) == 31 + feb + 61;
    assert DaysBeforeMonth(year, 6) == 31 + feb + 92;
    assert DaysBeforeMonth(year, 7) == 31 + feb + 122;
    assert DaysBeforeMonth(year, 8) == 31 + feb + 153;
    assert DaysBeforeMonth(year, 9) == 31 + feb + 184;
    assert DaysBeforeMonth(year, 10) == 31 + feb + 214;
    assert DaysBeforeMonth(year, 11) == 31 + feb + 245;
    assert DaysBeforeMonth(year, 12) == 31 + feb + 275;
  }

  /** `d - timedelta(days=1)`; the day before 0001-01-01 cannot be
      represented. */
  function DayBefore(d: Date): (r: Result<Date>)
    requires Valid(d)
    ensures r.Err? <==> d == Date(1, 1, 1)
    ensures r.Err? ==> r.error.OverflowError?
    ensures r.Ok? ==> Valid(r.value) && Ordinal(r.value) + 1 == Ordinal(d)
  {
    if d.day > 1 then Ok(Date(d.year, d.month, d.day - 1))
    else if d.month > 1 then Ok(Date(d.year, d.month - 1, DaysInMonth(d.year, d.month - 1)))
    else if d.year > 1 then
      MonthsFillYear(d.year - 1);
      Ok(Date(d.year - 1, 12, 31))
    else Err(OverflowError("date value out of range"))
  }

  /** The previous month as `get_previous_month_cost` finds it: the day
      before the first of this month. January goes back to December of the
      year before. */
  function PreviousMonth(today: Date): (r: Result<(int, int)>)
    requires Valid(today)
    ensures today.month > 1 ==> r == Ok((today.year, today.month - 1))
    ensures today.month == 1 && today.year > 1 ==> r == Ok((today.year - 1, 12))
    ensures today.month == 1 && today.year == 1 ==> r.Err?
    ensures r.Ok? ==> r.value.0 >= 1 && 1 <= r.value.1 <= 12
  {
    var first := Date(today.year, today.month, 1);
    var last :- DayBefore(first);
    Ok((last.year, last.month))
  }

  /** A month's last day is the day right before the first of the next
      month. */
  lemma MonthEndBeforeNextMonth(year: int, month: int)
    requires 1 <= year <= 9999 && 1 <= month <= 12 && !(year == 9999 && month == 12)
    ensures var next := if month == 12 then Date(year + 1, 1, 1) else Date(year, month + 1, 1);
      && Valid(Date(year, month, DaysInMonth(year, month))) && Valid(next)
      && Ordinal(Date(year, month, DaysInMonth(year, month))) + 1 == Ordinal(next)
  {
    var next := if month == 12 then Date(year + 1, 1, 1) else Date(year, month + 1, 1);
    var before := DayBefore(next);
    assert before == Ok(Date(year, month, DaysInMonth(year, month)));
  }

  /** The period `get_cost_and_usage` asks for: `YYYY-MM-01` to
      `YYYY-MM-<last day>`. */
  function MonthPeriod(year: nat, month: int): (r: (string, string))
    requires 1 <= month <= 12
    ensures r.0 == NatToString(year) + "-" + TwoDigits(month) + "-01"
    ensures r.1 == NatToString(year) + "-" + TwoDigits(month) + "-" + TwoDigits(DaysInMonth(year, month))
  {
    var lastDay := DaysInMonth(year, month);
    var monthText := Str(SetLeadingZero(month));
    assert NatToString(lastDay) == TwoDigits(lastDay) by {
      assert NatToString(lastDay) == NatToString(lastDay / 10) + [DigitChar(lastDay % 10)];
    }
    (NatToString(year) + "-" + monthText + "-" + "01", NatToString(year) + "-" + monthText + "-" + NatToString(lastDay))
  }

  /** The period `get_cost_forecast` asks for, from today to the month's
      last day, or None on the last day itself. The day is compared as
      `set_leading_zero` left it: a padded one-digit day is a string and
      never equals the integer last day, which is harmless since no month
      ends before the 28th. */
  function ForecastPeriod(today: Date): (r: Option<(string, string)>)
    requires Valid(today)
    ensures r.None? <==> today.day == DaysInMonth(today.year, today.month)
    ensures r.Some? ==>
      && r.value.0 == NatToString(today.year) + "-" + TwoDigits(today.month) + "-" + TwoDigits(today.day)
      && r.value.1 == MonthPeriod(today.year, today.month).1
  {
    var lastDay := DaysInMonth(today.year, today.month);
    var monthText := Str(SetLeadingZero(today.month));
    var day := SetLeadingZero(today.day);
    var first := NatToString(today.year) + "-" + monthText + "-" + Str(day);
    var last := NatToString(today.year) + "-" + monthText + "-" + NatToString(lastDay);
    assert NatToString(lastDay) == TwoDigits(lastDay) by {
      assert NatToString(lastDay) == NatToString(lastDay / 10) + [DigitChar(lastDay % 10)];
    }
    if day != PyInt(lastDay) then Some((first, last)) else None
  }

  /** A cost as the lambda reports it: zero, or the amount Cost Explorer
      returned (rounding to cents is floating point and not modelled). */
  datatype Amount = Zero | Reported(amount: string)

  /** A `get_cost_and_usage` response: status and the amounts of
      `ResultsByTime`, in order. */
  datatype UsageResponse = UsageResponse(status: int, results: seq<string>)

  /** A `get_cost_forecast` response: status and total amount. */
  datatype ForecastResponse = ForecastResponse(status: int, total: string)

  /** `get_cost_and_usage`: the first result's amount, or zero when there
      are no results. */
  function CostAndUsage(year: nat, month: int, usage: (string, string) -> UsageResponse): (r: Result<Amount>)
    requires 1 <= month <= 12
    ensures var resp := usage(MonthPeriod(year, month).0, MonthPeriod(year, month).1);
      && (resp.status != HttpOk ==> r == Err(RuntimeError("Error in get_cost_and_usage_response")))
      && (resp.status == HttpOk && |resp.results| == 0 ==> r == Ok(Zero))
      && (resp.status == HttpOk && |resp.results| > 0 ==> r == Ok(Reported(resp.results[0])))
  {
    var (first, last) := MonthPeriod(year, month);
    var resp := usage(first, last);
    if resp.status != HttpOk then Err(RuntimeError("Error in get_cost_and_usage_response"))
    else if |resp.results| == 0 then Ok(Zero)
    else Ok(Reported(resp.results[0]))
  }

  /** `get_cost_forecast`: no request and zero on the month's last day. */
  function CostForecast(today: Date, forecast: (string, string) -> ForecastResponse): (r: Result<Amount>)
    requires Valid(today)
    ensures today.day == DaysInMonth(today.year, today.month) ==> r == Ok(Zero)
    ensures today.day != DaysInMonth(today.year, today.month) ==>
      var resp := forecast(ForecastPeriod(today).value.0, ForecastPeriod(today).value.1);
      && (resp.status != HttpOk ==> r == Err(RuntimeError("Error in get_usage_forecast_response")))
      && (resp.status == HttpOk ==> r == Ok(Reported(resp.total)))
  {
    match ForecastPeriod(today)
    case None => Ok(Zero)
    case Some((first, last)) =>
      var resp := forecast(first, last);
      if resp.status != HttpOk then Err(RuntimeError("Error in get_usage_forecast_response"))
      else Ok(Reported(resp.total))
  }

  /** The parts of the event the lambda reads; `authorized` stands for a
      truthy `requestContext.authorizer`. */
  datatype BillingEvent = BillingEvent(httpMethod: Option<string>, authorized: bool)

  /** `_require_authorizer`: only an event that names a method other than
      OPTIONS needs an authorizer; direct invocations carry no method. */
  function RequireAuthorizer(event: BillingEvent): (r: Option<int>)
    ensures r.Some? <==> Given(event.httpMethod) && event.httpMethod.value != "OPTIONS" && !event.authorized
    ensures r.Some? ==> r.value == HttpUnauthorized
  {
    if Given(event.httpMethod) && event.httpMethod.value != "OPTIONS" && !event.authorized
    then Some(HttpUnauthorized) else None
  }

  /** What the lambda answers: 401, or the three amounts with status 200. */
  datatype Report = Unauthorized | Costs(thisMonth: Amount, lastMonth: Amount, forecast: Amount)

  /** `lambda_handler`. */
  function LambdaHandler(event: BillingEvent, today: Date, usage: (string, string) -> UsageResponse,
                         forecast: (string, string) -> ForecastResponse): (r: Result<Report>)
    requires Valid(today)
    ensures RequireAuthorizer(event).Some? ==> r == Ok(Unauthorized)
    ensures r.Ok? && r.value.Costs? ==>
      && RequireAuthorizer(event).None?
      && PreviousMonth(today).Ok?
      && var (lastYear, lastMonth) := PreviousMonth(today).value;
      && CostAndUsage(today.year, today.month, usage) == Ok(r.value.thisMonth)
      && CostAndUsage(lastYear, lastMonth, usage) == Ok(r.value.lastMonth)
      && CostForecast(today, forecast) == Ok(r.value.forecast)
    ensures RequireAuthorizer(event).None? && CostAndUsage(today.year, today.month, usage).Err? ==>
      r == Err(CostAndUsage(today.year, today.month, usage).error)
    ensures RequireAuthorizer(event).None? && CostAndUsage(today.year, today.month, usage).Ok? ==>
      if PreviousMonth(today).Err? then r == Err(PreviousMonth(today).error)
      else
        var (lastYear, lastMonth) := PreviousMonth(today).value;
        if CostAndUsage(lastYear, lastMonth, usage).Err? then r == Err(CostAndUsage(lastYear, lastMonth, usage).error)
        else if CostForecast(today, forecast).Err? then r == Err(CostForecast(today, forecast).error)
        else r == Ok(Costs(CostAndUsage(today.year, today.month, usage).value,
                           CostAndUsage(lastYear, lastMonth, usage).value,
                           CostForecast(today, forecast).value))
  {
    if RequireAuthorizer(event).Some? then Ok(Unauthorized)
    else
      var thisMonth :- CostAndUsage(today.year, today.month, usage);
      var previous :- PreviousMonth(today);
      var lastMonth :- CostAndUsage(previous.0, previous.1, usage);
      var forecastAmount :- CostForecast(today, forecast);
      Ok(Costs(thisMonth, lastMonth, forecastAmount))
  }

  /** An account with no recorded costs reports zero for both months, and
      zero forecast on the month's last day. */
  lemma EmptyResultsCostZero(event: BillingEvent, today: Date, usage: (string, string) -> UsageResponse,
                             forecast: (string, string) -> ForecastResponse)
    requires Valid(today) && (today.month > 1 || today.year > 1)
    requires RequireAuthorizer(event).None?
    requires forall first, last :: usage(first, last) == UsageResponse(HttpOk, [])
    requires forall first, last :: forecast(first, last).status == HttpOk
    ensures LambdaHandler(event, today, usage, forecast).Ok?
    ensures LambdaHandler(event, today, usage, forecast).value.thisMonth == Zero
    ensures LambdaHandler(event, today, usage, forecast).value.lastMonth == Zero
  {
  }
}
