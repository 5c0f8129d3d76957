/**
  Periods of an overview: rolling ones, and those of the calendar in the owner's time zone. The zone
  is an arbitrary function from instants to offsets (in milliseconds, like instants): a clock in it
  displays `t + offset(t)` at the instant `t`.
*/
module Zone {
  import opened Common
  import opened Calendar

  type Offset = int -> int

  const HOUR := 3_600_000
  const DAY := 86_400_000

  function Displays(offset: Offset, t: int): int {
    t + offset(t)
  }

  ghost predicate Shows(offset: Offset, wanted: int) {
    exists t :: Displays(offset, t) == wanted
  }

  /** Offsets stay within `bound` of zero; real zones stay within 14 hours. */
  ghost predicate Bounded(offset: Offset, bound: nat) {
    forall t :: 0 - bound <= offset(t) <= bound
  }

  /** In the window the offset is `before` up to the instant `change`, and `after` from it on. */
  ghost predicate OneChange(offset: Offset, lo: int, hi: int, change: int, before: int, after: int) {
    forall t :: lo <= t <= hi ==> offset(t) == if t < change then before else after
  }

  function Corrected(offset: Offset, wanted: int, value: int): int {
    value + (wanted - Displays(offset, value))
  }

  /** The result of `zonedDate`. */
  function Zoned(offset: Offset, wanted: int): int {
    Corrected(offset, wanted, Corrected(offset, wanted, wanted))
  }

  /** `zonedDate`: two corrections of the first guess. */
  method ZonedDate(offset: Offset, wanted: int) returns (value: int)
    ensures value == Zoned(offset, wanted)
  {
    value := wanted;
    for attempt := 0 to 2
      invariant attempt == 0 ==> value == wanted
      invariant attempt == 1 ==> value == Corrected(offset, wanted, wanted)
      invariant attempt == 2 ==> value == Corrected(offset, wanted, Corrected(offset, wanted, wanted))
    {
      var represented := value + offset(value);
      value := value + wanted - represented;
    }
  }

  /**
    Two corrections suffice exactly when they can: with at most one offset change in the window
    around the wanted time, the result displays as wanted if and only if some instant does.
  */
  lemma TwoCorrectionsSuffice(offset: Offset, bound: nat, wanted: int, change: int, before: int, after: int)
    requires Bounded(offset, bound)
    requires OneChange(offset, wanted - bound, wanted + bound, change, before, after)
    ensures Displays(offset, Zoned(offset, wanted)) == wanted <==> Shows(offset, wanted)
  {
  }

  /** When the wanted time is skipped by a change, the result is off by exactly the size of the change. */
  lemma SkippedTimesMoveByTheChange(offset: Offset, bound: nat, wanted: int, change: int, before: int, after: int)
    requires Bounded(offset, bound)
    requires OneChange(offset, wanted - bound, wanted + bound, change, before, after)
    requires !Shows(offset, wanted)
    ensures before < after && change + before <= wanted < change + after
    ensures Displays(offset, Zoned(offset, wanted)) - wanted == if wanted < change then before - after else after - before
  {
    var v := Corrected(offset, wanted, wanted);
    assert v == wanted - offset(wanted) && Zoned(offset, wanted) == wanted - offset(v);
    assert Displays(offset, wanted - before) != wanted && Displays(offset, wanted - after) != wanted;
  }

  // ---------- periods ----------

  datatype Period = Today | Last24Hours | Week | Last7Days | Month | Last30Days | Year | Last365Days | All

  /** The local weekday, Sunday as 0: day 0 of the epoch was a Thursday. */
  function Weekday(day: int): int {
    (day + 4) % 7
  }

  predicate InCalendar(period: Period) {
    period.Today? || period.Week? || period.Month? || period.Year?
  }

  /** The day a calendar period starts on, seen from the given day. */
  function FirstDay(period: Period, today: int): int
    requires InCalendar(period)
  {
    match period
    case Today => DayNumber(DateOf(today))
    case Week => today - (Weekday(today) + 6) % 7
    case Month => DayNumber(DateOf(today).(day := 1))
    case Year => DayNumber(DateOf(today).(month := 1, day := 1))
  }

  /** The displayed midnight a calendar period starts at. */
  function WantedStart(offset: Offset, period: Period, reference: int): int
    requires InCalendar(period)
  {
    FirstDay(period, Displays(offset, reference) / DAY) * DAY
  }

  /** How many days a rolling period lasts. */
  function Durations(period: Period): Option<int> {
    match period
    case Last24Hours => Some(1)
    case Last7Days => Some(7)
    case Last30Days => Some(30)
    case Last365Days => Some(365)
    case _ => None
  }

  /** The result of `periodStart`; None is the whole history. */
  function StartOf(offset: Offset, period: Period, reference: int): Option<int> {
    if Durations(period).Some? then Some(reference - Durations(period).value * 24 * HOUR)
    else if period.All? then None
    else Some(Zoned(offset, WantedStart(offset, period, reference)))
  }

  /** `periodStart`: the rolling periods, the whole history, and the midnight a calendar period starts at. */
  method PeriodStart(offset: Offset, period: Period, reference: int) returns (start: Option<int>)
    ensures start == StartOf(offset, period, reference)
    ensures period.All? ==> start == None
    ensures period.Last24Hours? ==> start == Some(reference - 86_400_000)
    ensures period.Last7Days? ==> start == Some(reference - 604_800_000)
    ensures period.Last30Days? ==> start == Some(reference - 2_592_000_000)
    ensures period.Last365Days? ==> start == Some(reference - 31_536_000_000)
  {
    var days := Durations(period);
    if days.Some? { return Some(reference - days.value * 24 * HOUR); }
    if period.All? { return None; }
    var first := StartDay(period, Displays(offset, reference) / DAY);
    var at := ZonedDate(offset, first * DAY);
    return Some(at);
  }

  /** The day a calendar period starts on, from the parts of the local date. */
  method StartDay(period: Period, today: int) returns (first: int)
    requires InCalendar(period)
    ensures first == FirstDay(period, today)
  {
    var local := DateOf(today);
    if period.Today? { return DayNumber(local); }
    if period.Month? { return DayNumber(local.(day := 1)); }
    if period.Year? { return DayNumber(local.(month := 1, day := 1)); }
    var weekday := Weekday(DayNumber(local));
    return DayNumber(local) - (weekday + 6) % 7;
  }

  /** Which day that is: the day itself, its Monday, or the first of its month or year. */
  predicate Opens(period: Period, first: int, today: int)
    requires InCalendar(period)
  {
    && first <= today
    && match period
       case Today => first == today
       case Week => first % 7 == 4 && today < first + 7  // 5 January 1970, day 4, was a Monday
       case Month => DateOf(first) == DateOf(today).(day := 1)
       case Year => DateOf(first) == DateOf(today).(month := 1, day := 1)
  }

  lemma FirstDayOpens(period: Period, today: int)
    requires InCalendar(period)
    ensures Opens(period, FirstDay(period, today), today)
  {
    var date := DateOf(today);
    match period
    case Today =>
    case Week => MondayOf(today);
    case Month => DateOfDayNumber(date.(day := 1));
    case Year =>
      var first := date.(month := 1, day := 1);
      DateOfDayNumber(first);
      if date.month > 1 { Earlier(first, date); }
  }

  /**
    A calendar period starts at the local midnight of the reference's own day, of the Monday of its
    week, or of the first of its month or year, whenever the local clock shows that midnight at all.
  */
  lemma CalendarPeriods(offset: Offset, bound: nat, period: Period, reference: int, change: int, before: int, after: int)
    requires InCalendar(period)
    requires Bounded(offset, bound)
    requires var w := WantedStart(offset, period, reference);
             OneChange(offset, w - bound, w + bound, change, before, after) && Shows(offset, w)
    ensures var start := StartOf(offset, period, reference);
            && start.Some?
            && var shown := Displays(offset, start.value);
               shown % DAY == 0 && Opens(period, shown / DAY, Displays(offset, reference) / DAY)
  {
    var today := Displays(offset, reference) / DAY;
    TwoCorrectionsSuffice(offset, bound, WantedStart(offset, period, reference), change, before, after);
    Midnight(FirstDay(period, today));
    FirstDayOpens(period, today);
  }

  lemma Midnight(day: int)
    ensures day * DAY % DAY == 0 && day * DAY / DAY == day
  {
  }

  lemma MondayOf(day: int)
    ensures var back := (Weekday(day) + 6) % 7; 0 <= back < 7 && (day - back) % 7 == 4
  {
  }
}
