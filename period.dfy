/** Resolution of the `period` and `date` query parameters of the statistics
    route into an optional inclusive date window. */
module Period {
  import opened Wrappers
  import opened Transactions

  /** Milliseconds in one day. */
  const DayMs: int := 86_400_000

  /** What the route reads from its surroundings: the current instant, the
      fixed offset (in milliseconds) of the local time zone from UTC, the date
      parser `new Date(string)`, and the calendar-month boundaries of
      `startOfMonth` and `endOfMonth`. */
  datatype Clock = Clock(
    now: int,
    utcOffset: int,
    parseDate: string -> int,
    startOfMonth: int -> int,
    endOfMonth: int -> int)

  /** The local calendar day an instant falls on (days since the epoch). */
  function LocalDay(clock: Clock, t: int): int
  {
    (t + clock.utcOffset) / DayMs
  }

  /** `startOfDay(t)`: local midnight at the start of `t`'s day. */
  function StartOfDay(clock: Clock, t: int): int
  {
    t - (t + clock.utcOffset) % DayMs
  }

  /** `endOfDay(t)`: the last millisecond (23:59:59.999) of `t`'s day. */
  function EndOfDay(clock: Clock, t: int): int
  {
    StartOfDay(clock, t) + DayMs - 1
  }

  /** The inclusive window of one local day. */
  function DayWindow(clock: Clock, t: int): Window
  {
    Window(StartOfDay(clock, t), EndOfDay(clock, t))
  }

  /** The period a request asks for, after the route's defaulting. */
  datatype PeriodKind =
    | Month
    | Today
    | All
    | Custom(date: Option<string>)
    | Unrecognised(token: string)

  /** A query parameter counts as given when it is present and non-empty
      (JavaScript truthiness of the string). */
  predicate Given(param: Option<string>)
  {
    param.Some? && param.value != ""
  }

  /** `searchParams.get('period') || 'month'` read as a period, with the
      `date` parameter attached to `custom`. */
  function ParsePeriod(period: Option<string>, date: Option<string>): PeriodKind
  {
    var token := if Given(period) then period.value else "month";
    if token == "month" then Month
    else if token == "today" then Today
    else if token == "all" then All
    else if token == "custom" then Custom(if Given(date) then date else None)
    else Unrecognised(token)
  }

  /** The window each period selects: this month, today, the given day, or
      no window at all. */
  function PeriodWindow(p: PeriodKind, clock: Clock): Option<Window>
  {
    match p
    case Month => Some(Window(clock.startOfMonth(clock.now), clock.endOfMonth(clock.now)))
    case Today => Some(DayWindow(clock, clock.now))
    case Custom(Some(d)) => Some(DayWindow(clock, clock.parseDate(d)))
    case _ => None
  }

  /** The route's branch chain: `startDate` and `endDate` are assigned by the
      first matching branch, and a query is built only when both are set. */
  method ResolveWindow(period: Option<string>, customDate: Option<string>, clock: Clock)
    returns (query: Option<Window>)
    ensures query == PeriodWindow(ParsePeriod(period, customDate), clock)
    ensures !Given(period) ==> query == PeriodWindow(Month, clock)
    ensures query.None? <==> ParsePeriod(period, customDate) in {All, Custom(None)}
                             || ParsePeriod(period, customDate).Unrecognised?
  {
    var token := if Given(period) then period.value else "month";
    var startDate: Option<int> := None;
    var endDate: Option<int> := None;
    if token == "custom" && Given(customDate) {
      startDate := Some(StartOfDay(clock, clock.parseDate(customDate.value)));
      endDate := Some(EndOfDay(clock, clock.parseDate(customDate.value)));
    } else if token == "month" {
      startDate := Some(clock.startOfMonth(clock.now));
      endDate := Some(clock.endOfMonth(clock.now));
    } else if token == "today" {
      startDate := Some(StartOfDay(clock, clock.now));
      endDate := Some(EndOfDay(clock, clock.now));
    }
    query := None;
    if startDate.Some? && endDate.Some? {
      query := Some(Window(startDate.value, endDate.value));
    }
  }

  /** `x / DayMs == q` exactly when `x` lies in the `q`-th block of `DayMs`. */
  lemma DivByDay(x: int, q: int)
    ensures x / DayMs == q <==> q * DayMs <= x < q * DayMs + DayMs
  {
    var r := x % DayMs;
    assert x == (x / DayMs) * DayMs + r && 0 <= r < DayMs;
  }

  /** A day window holds exactly the instants of that local day, and both of
      its bounds are on that day. */
  lemma DayWindowIsTheDay(clock: Clock, d: int, t: int)
    ensures InWindow(t, DayWindow(clock, d)) <==> LocalDay(clock, t) == LocalDay(clock, d)
    ensures LocalDay(clock, StartOfDay(clock, d)) == LocalDay(clock, d)
    ensures LocalDay(clock, EndOfDay(clock, d)) == LocalDay(clock, d)
  {
    var x := d + clock.utcOffset;
    var q := x / DayMs;
    assert StartOfDay(clock, d) + clock.utcOffset == q * DayMs;
    DivByDay(t + clock.utcOffset, q);
    DivByDay(StartOfDay(clock, d) + clock.utcOffset, q);
    DivByDay(EndOfDay(clock, d) + clock.utcOffset, q);
  }

  /** The `today` window contains the current instant, and a custom day's
      window contains the instant the date parses to. */
  lemma WindowsContainTheirDay(clock: Clock, d: string)
    requires d != ""
    ensures PeriodWindow(ParsePeriod(Some("today"), None), clock).Some?
    ensures InWindow(clock.now, PeriodWindow(ParsePeriod(Some("today"), None), clock).value)
    ensures InWindow(clock.parseDate(d), PeriodWindow(ParsePeriod(Some("custom"), Some(d)), clock).value)
  {
    DayWindowIsTheDay(clock, clock.now, clock.now);
    DayWindowIsTheDay(clock, clock.parseDate(d), clock.parseDate(d));
  }
}
