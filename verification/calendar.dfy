/** Proleptic Gregorian dates as Python's `datetime.date` holds them, and the
    month window `month_range` computes from them. */
module Calendar {

  /** `datetime.MINYEAR` and `datetime.MAXYEAR`. */
  const MinYear: int := 1
  const MaxYear: int := 9999

  datatype Date = Date(year: int, month: int, day: int)

  /** The closed interval [start, end] of one month. */
  datatype Window = Window(start: Date, end: Date)

  /** The exceptions `datetime.date` raises: the constructor's ValueError
      and the OverflowError of date arithmetic leaving [MinYear, MaxYear]. */
  datatype DateError = ValueError | OverflowError

  datatype Result<T> = Ok(value: T) | Err(error: DateError)

  predicate IsLeapYear(y: int) {
    y % 4 == 0 && (y % 100 != 0 || y % 400 == 0)
  }

  function DaysInMonth(y: int, m: int): (n: int)
    requires 1 <= m <= 12
    ensures 28 <= n <= 31
    ensures m == 2 ==> (n == 29 <==> IsLeapYear(y))
    ensures m != 2 ==> (n == 30 <==> m in {4, 6, 9, 11})
  {
    if m == 2 then (if IsLeapYear(y) then 29 else 28)
    else if m == 4 || m == 6 || m == 9 || m == 11 then 30
    else 31
  }

  /** A day that exists in the proleptic Gregorian calendar. */
  predicate IsCalendarDay(d: Date) {
    1 <= d.month <= 12 && 1 <= d.day <= DaysInMonth(d.year, d.month)
  }

  /** A value `datetime.date` can hold. */
  predicate ValidDate(d: Date) {
    MinYear <= d.year <= MaxYear && IsCalendarDay(d)
  }

  /** The constructor `date(y, m, d)`. */
  function MakeDate(y: int, m: int, d: int): (r: Result<Date>)
    ensures r.Ok? <==> ValidDate(Date(y, m, d))
    ensures r.Ok? ==> r.value == Date(y, m, d)
    ensures r.Err? ==> r.error == ValueError
  {
    if ValidDate(Date(y, m, d)) then Ok(Date(y, m, d)) else Err(ValueError)
  }

  /** The calendar day after `d`. */
  function NextDay(d: Date): (r: Date)
    requires IsCalendarDay(d)
    ensures IsCalendarDay(r)
  {
    if d.day < DaysInMonth(d.year, d.month) then Date(d.year, d.month, d.day + 1)
    else if d.month < 12 then Date(d.year, d.month + 1, 1)
    else Date(d.year + 1, 1, 1)
  }

  /** The calendar day before `d`. */
  function PrevDay(d: Date): (r: Date)
    requires IsCalendarDay(d)
    ensures IsCalendarDay(r)
  {
    if d.day > 1 then Date(d.year, d.month, d.day - 1)
    else if d.month > 1 then Date(d.year, d.month - 1, DaysInMonth(d.year, d.month - 1))
    else Date(d.year - 1, 12, 31)
  }

  /** NextDay and PrevDay are inverse to each other. */
  lemma NextPrevInverse(d: Date)
    requires IsCalendarDay(d)
    ensures NextDay(PrevDay(d)) == d && PrevDay(NextDay(d)) == d
  {
  }

  /** `d - timedelta(days=1)`: the previous day, or OverflowError when it
      falls before year MinYear. */
  function Yesterday(d: Date): (r: Result<Date>)
    requires ValidDate(d)
    ensures r.Ok? <==> d != Date(MinYear, 1, 1)
    ensures r.Ok? ==> ValidDate(r.value) && NextDay(r.value) == d
    ensures r.Err? ==> r.error == OverflowError
  {
    var p := PrevDay(d);
    NextPrevInverse(d);
    if p.year < MinYear then Err(OverflowError) else Ok(p)
  }

  /** The months `month_range` accepts: both ends of the window must be
      dates, so December of MaxYear is out. */
  predicate HasWindow(year: int, month: int) {
    MinYear <= year <= MaxYear && 1 <= month <= 12 && !(year == MaxYear && month == 12)
  }

  /** `month_range(year, month)`: the first day of the month and the day
      before the first day of the next month, rolling December over to
      January of the next year. The constructor raises ValueError when the
      year or month is out of range, including the rollover from December
      of MaxYear. On success the window runs from day 1 to the last day of
      the month. */
  function MonthRange(year: int, month: int): (r: Result<Window>)
    ensures r.Ok? <==> HasWindow(year, month)
    ensures r.Ok? ==> r.value.start == Date(year, month, 1)
    ensures r.Ok? ==> r.value.end == Date(year, month, DaysInMonth(year, month))
    ensures r.Err? ==> r.error == ValueError
  {
    match MakeDate(year, month, 1)
    case Err(e) => Err(e)
    case Ok(start) =>
      var next := if month == 12 then MakeDate(year + 1, 1, 1) else MakeDate(year, month + 1, 1);
      match next
      case Err(e) => Err(e)
      case Ok(first) =>
        match Yesterday(first)
        case Err(e) => Err(e)
        case Ok(end) => Ok(Window(start, end))
  }

  /** Chronological order on calendar days. */
  predicate Before(a: Date, b: Date) {
    a.year < b.year
    || (a.year == b.year && a.month < b.month)
    || (a.year == b.year && a.month == b.month && a.day < b.day)
  }

  predicate InWindow(d: Date, w: Window) {
    !Before(d, w.start) && !Before(w.end, d)
  }

  /** A window holds exactly the calendar days of its month. */
  lemma WindowHoldsItsMonth(year: int, month: int, d: Date)
    requires MonthRange(year, month).Ok?
    requires IsCalendarDay(d)
    ensures InWindow(d, MonthRange(year, month).value) <==> d.year == year && d.month == month
  {
  }

  /** The day after one window's end is the next window's start, December
      rolling over to January of the next year. */
  lemma WindowsAreContiguous(year: int, month: int)
    requires MonthRange(year, month).Ok?
    ensures var ny := if month == 12 then year + 1 else year;
            var nm := if month == 12 then 1 else month + 1;
            NextDay(MonthRange(year, month).value.end) == Date(ny, nm, 1)
            && (MonthRange(ny, nm).Ok? ==> NextDay(MonthRange(year, month).value.end) == MonthRange(ny, nm).value.start)
  {
  }

  /** The twelve windows of a year cover each of its days exactly once, and
      no day of another year. */
  lemma YearPartition(year: int, d: Date)
    requires MinYear <= year < MaxYear
    requires IsCalendarDay(d)
    ensures forall m :: 1 <= m <= 12 ==> MonthRange(year, m).Ok?
    ensures d.year == year ==> InWindow(d, MonthRange(year, d.month).value)
    ensures forall m :: 1 <= m <= 12 && m != d.month ==> !InWindow(d, MonthRange(year, m).value)
    ensures d.year != year ==> forall m :: 1 <= m <= 12 ==> !InWindow(d, MonthRange(year, m).value)
  {
    forall m | 1 <= m <= 12 ensures InWindow(d, MonthRange(year, m).value) <==> d.year == year && d.month == m {
      WindowHoldsItsMonth(year, m, d);
    }
  }
}
