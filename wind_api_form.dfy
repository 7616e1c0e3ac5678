/** The date-range validation of the weather-API request form (WindAPIForm.clean).
    Dates are whole day numbers; the current date is passed in as `today`
    instead of being read from the clock. */
module WindApiForm {

  /** A calendar date as a day number: consecutive days differ by one. */
  type Date = int

  datatype Option<T> = None | Some(value: T)

  datatype Result<T, E> = Ok(value: T) | Err(error: E)

  /** The form's cleaned data. A field that failed its own validation is
      absent from it. */
  datatype WindApiData = WindApiData(
    location: Option<string>,
    latitude: Option<real>,
    longitude: Option<real>,
    startDate: Option<Date>,
    endDate: Option<Date>)

  /** The four ways a date range is rejected, one per check of the form. */
  datatype DateRangeError = StartNotInPast | EndNotInPast | StartAfterEnd | RangeTooLong

  /** Longest accepted distance, in days, between the start and the end date. */
  const MaxSpanDays: int := 365

  /** The message the form raises for each rejection. */
  function Message(e: DateRangeError): string
  {
    match e
    case StartNotInPast => "Start date must be in the past."
    case EndNotInPast => "End date must be in the past."
    case StartAfterEnd => "Start date must be before end date."
    case RangeTooLong => "The date range must be less than one year."
  }

  lemma MessagesIdentifyError(a: DateRangeError, b: DateRangeError)
    ensures Message(a) == Message(b) <==> a == b
  {
  }

  // ---------------------------------------------------------------------
  // Reference definition: each rule on its own, and the order they are tried in.

  /** The condition under which rule `rule` rejects the pair (start, end). */
  predicate Violates(rule: DateRangeError, start: Date, end: Date, today: Date)
  {
    match rule
    case StartNotInPast => !(start < today)
    case EndNotInPast => !(end < today)
    case StartAfterEnd => !(start <= end)
    case RangeTooLong => !(end - start <= MaxSpanDays)
  }

  /** The order in which the form tries the rules. */
  const CheckOrder: seq<DateRangeError> := [StartNotInPast, EndNotInPast, StartAfterEnd, RangeTooLong]

  /** `e` is the first rule of CheckOrder that the pair violates. */
  ghost predicate IsFirstViolated(e: DateRangeError, start: Date, end: Date, today: Date)
  {
    exists i :: 0 <= i < |CheckOrder| && CheckOrder[i] == e && Violates(e, start, end, today) &&
      forall j :: 0 <= j < i ==> !Violates(CheckOrder[j], start, end, today)
  }

  /** A pair of dates the form accepts: both strictly before today, in order,
      and at most MaxSpanDays days apart. */
  predicate ValidRange(start: Date, end: Date, today: Date)
  {
    start <= end < today && end - start <= MaxSpanDays
  }

  // ---------------------------------------------------------------------
  // The validator.

  /** The chain of checks applied when both dates are present. */
  function CheckDates(start: Date, end: Date, today: Date): (r: Option<DateRangeError>)
    ensures r == None <==> ValidRange(start, end, today)
    ensures r.Some? ==> Violates(r.value, start, end, today)
  {
    if start >= today then Some(StartNotInPast)
    else if end >= today then Some(EndNotInPast)
    else if start > end then Some(StartAfterEnd)
    else if end - start > MaxSpanDays then Some(RangeTooLong)
    else None
  }

  /** The form's clean step: the cleaned data, or the rejection it raises. */
  function Clean(data: WindApiData, today: Date): (r: Result<WindApiData, DateRangeError>)
    ensures data.startDate.None? || data.endDate.None? ==> r == Ok(data)
    ensures r.Ok? ==> r.value == data
    ensures r.Ok? <==> (data.startDate.Some? && data.endDate.Some? ==>
                         ValidRange(data.startDate.value, data.endDate.value, today))
  {
    match (data.startDate, data.endDate)
    case (Some(start), Some(end)) =>
      (match CheckDates(start, end, today)
       case None => Ok(data)
       case Some(e) => Err(e))
    case _ => Ok(data)
  }

  // ---------------------------------------------------------------------
  // Properties.

  /** The error reported is exactly the first rule, in the form's order, that
      the two dates violate; no error is reported when only one date is present. */
  lemma ReportedErrorIsFirstViolated(data: WindApiData, today: Date, e: DateRangeError)
    ensures Clean(data, today) == Err(e) <==>
              (data.startDate.Some? && data.endDate.Some? &&
               IsFirstViolated(e, data.startDate.value, data.endDate.value, today))
  {
    if data.startDate.Some? && data.endDate.Some? {
      var start, end := data.startDate.value, data.endDate.value;
      if Clean(data, today) == Err(e) {
        var i := if e == StartNotInPast then 0 else if e == EndNotInPast then 1
                 else if e == StartAfterEnd then 2 else 3;
        assert CheckOrder[i] == e;
        assert forall j :: 0 <= j < i ==> !Violates(CheckOrder[j], start, end, today);
      }
      if IsFirstViolated(e, start, end, today) {
        var i :| 0 <= i < |CheckOrder| && CheckOrder[i] == e && Violates(e, start, end, today) &&
          forall j :: 0 <= j < i ==> !Violates(CheckOrder[j], start, end, today);
        if i > 0 { assert !Violates(CheckOrder[0], start, end, today); }
        if i > 1 { assert !Violates(CheckOrder[1], start, end, today); }
        if i > 2 { assert !Violates(CheckOrder[2], start, end, today); }
      }
    }
  }

  /** A start date on or after today is reported as such, whatever the end date. */
  lemma StartCheckComesFirst(data: WindApiData, today: Date)
    requires data.startDate.Some? && data.endDate.Some?
    requires data.startDate.value >= today
    ensures Clean(data, today) == Err(StartNotInPast)
  {
  }

  /** The exact edges of each rule, for dates written relative to today.
      Nothing bounds how far back the range lies (the last clause), and a
      span of exactly 365 days is accepted (the fifth). */
  lemma BoundaryCases(data: WindApiData, today: Date)
    ensures Clean(data.(startDate := Some(today), endDate := Some(today - 1)), today) == Err(StartNotInPast)
    ensures Clean(data.(startDate := Some(today - 1), endDate := Some(today)), today) == Err(EndNotInPast)
    ensures Clean(data.(startDate := Some(today - 1), endDate := Some(today - 2)), today) == Err(StartAfterEnd)
    ensures Clean(data.(startDate := Some(today - 1), endDate := Some(today - 1)), today).Ok?
    ensures Clean(data.(startDate := Some(today - 366), endDate := Some(today - 1)), today).Ok?
    ensures Clean(data.(startDate := Some(today - 367), endDate := Some(today - 1)), today) == Err(RangeTooLong)
    ensures Clean(data.(startDate := Some(today - 1000), endDate := Some(today - 900)), today).Ok?
  {
  }
}
