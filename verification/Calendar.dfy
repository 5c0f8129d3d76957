/**
  The Gregorian calendar, as far as dates and day numbers go. Day 0 is 1 January 1970, and both
  directions are total: days may be negative.
*/
module Calendar {
  datatype Date = Date(year: int, month: int, day: int)

  predicate Leap(year: int) {
    year % 4 == 0 && (year % 100 != 0 || year % 400 == 0)
  }

  function MonthLength(leap: bool, month: int): int {
    if month == 2 then (if leap then 29 else 28)
    else if month == 4 || month == 6 || month == 9 || month == 11 then 30
    else 31
  }

  predicate Valid(date: Date) {
    1 <= date.month <= 12 && 1 <= date.day <= MonthLength(Leap(date.year), date.month)
  }

  function YearStart(year: int): int {
    365 * (year - 1970) + (year - 1) / 4 - (year - 1) / 100 + (year - 1) / 400 - 477
  }

  /** The days of a year before a month; month 13 is the next January. */
  function DaysBefore(leap: bool, month: int): int
    requires 1 <= month <= 13
  {
    if month == 1 then 0 else DaysBefore(leap, month - 1) + MonthLength(leap, month - 1)
  }

  function MonthStart(year: int, month: int): int
    requires 1 <= month <= 13
  {
    YearStart(year) + DaysBefore(Leap(year), month)
  }

  function DayNumber(date: Date): int
    requires Valid(date)
  {
    MonthStart(date.year, date.month) + date.day - 1
  }

  function YearFrom(year: int, day: int): (found: int)
    ensures YearStart(found) <= day < YearStart(found + 1)
    decreases if day < YearStart(year) then YearStart(year) - day
              else if YearStart(year + 1) <= day then day - YearStart(year) else 0
  {
    if day < YearStart(year) then YearFrom(year - 1, day)
    else if YearStart(year + 1) <= day then YearFrom(year + 1, day)
    else year
  }

  function MonthFrom(year: int, month: int, day: int): (found: int)
    requires 1 <= month <= 12 && MonthStart(year, month) <= day < MonthStart(year, 13)
    ensures 1 <= found <= 12 && MonthStart(year, found) <= day < MonthStart(year, found + 1)
    decreases 12 - month
  {
    if month < 12 && MonthStart(year, month + 1) <= day then MonthFrom(year, month + 1, day) else month
  }

  /** The date of a day. */
  function DateOf(day: int): (date: Date)
    ensures Valid(date) && DayNumber(date) == day
  {
    var year := YearFrom(1970, day);
    YearEnds(year);
    var month := MonthFrom(year, 1, day);
    Date(year, month, day - MonthStart(year, month) + 1)
  }

  lemma YearDays(leap: bool)
    ensures DaysBefore(leap, 13) == if leap then 366 else 365
  {
    var extra := if leap then 1 else 0;
    assert DaysBefore(leap, 2) == 31;
    assert DaysBefore(leap, 4) == 90 + extra;
    assert DaysBefore(leap, 6) == 151 + extra;
    assert DaysBefore(leap, 8) == 212 + extra;
    assert DaysBefore(leap, 10) == 273 + extra;
    assert DaysBefore(leap, 12) == 334 + extra;
  }

  lemma Steps(n: int)
    ensures n / 4 == (n - 1) / 4 + if n % 4 == 0 then 1 else 0
    ensures n / 100 == (n - 1) / 100 + if n % 100 == 0 then 1 else 0
    ensures n / 400 == (n - 1) / 400 + if n % 400 == 0 then 1 else 0
    ensures (n % 400 == 0 ==> n % 100 == 0) && (n % 100 == 0 ==> n % 4 == 0)
  {
  }

  lemma YearEnds(year: int)
    ensures MonthStart(year, 13) == YearStart(year + 1)
  {
    YearDays(Leap(year));
    Steps(year);
  }

  lemma {:induction false} MonthsGrow(leap: bool, first: int, second: int)
    requires 1 <= first < second <= 13
    ensures DaysBefore(leap, first) + MonthLength(leap, first) <= DaysBefore(leap, second)
  {
    if first + 1 < second { MonthsGrow(leap, first, second - 1); }
  }

  lemma Earlier(first: Date, second: Date)
    requires Valid(first) && Valid(second)
    requires first.year < second.year || (first.year == second.year && first.month < second.month)
    ensures DayNumber(first) < DayNumber(second)
  {
    if first.year < second.year {
      MonthsGrow(Leap(first.year), first.month, 13);
      YearEnds(first.year);
      assert YearStart(first.year + 1) <= YearStart(second.year);
      if second.month > 1 { MonthsGrow(Leap(second.year), 1, second.month); }
    } else {
      MonthsGrow(Leap(first.year), first.month, second.month);
    }
  }

  /** Every day is one date: the two directions are inverse to each other. */
  lemma DateOfDayNumber(date: Date)
    requires Valid(date)
    ensures DateOf(DayNumber(date)) == date
  {
    var found := DateOf(DayNumber(date));
    if found.year != date.year || found.month != date.month {
      if found.year < date.year || (found.year == date.year && found.month < date.month) {
        Earlier(found, date);
      } else {
        Earlier(date, found);
      }
    }
  }

  lemma StartOfMarch(year: int)
    ensures MonthStart(year, 2) == YearStart(year) + 31
    ensures MonthStart(year, 3) == YearStart(year) + if Leap(year) then 60 else 59
  {
    assert DaysBefore(Leap(year), 2) == 31;
  }

  lemma DateIs(day: int, date: Date)
    requires Valid(date) && DayNumber(date) == day
    ensures DateOf(day) == date
  {
    DateOfDayNumber(date);
  }

  /** Days everybody knows: the start of the count, a leap day, and the end of February in a year without one. */
  lemma KnownDays(day: int, date: Date)
    requires (day == 0 && date == Date(1970, 1, 1)) || (day == 11_016 && date == Date(2000, 2, 29))
          || (day == -25_509 && date == Date(1900, 2, 28)) || (day == -25_508 && date == Date(1900, 3, 1))
    ensures DateOf(day) == date
  {
    StartOfMarch(2000);
    StartOfMarch(1900);
    DateIs(day, date);
  }

  const LENGTHS := [31, 28, 31, 30, 31, 30, 31, 31, 30, 31, 30, 31]

  predicate LeapDayIn(date: Date) {
    date.month == 2 && (date.year % 400 == 0 || (date.year % 4 == 0 && date.year % 100 != 0))
  }

  function DaysIn(date: Date): int
    requires 1 <= date.month <= 12
  {
    LENGTHS[date.month - 1] + if LeapDayIn(date) then 1 else 0
  }

  /** One day more, or the first of the next month, or of the next year. */
  function DayAfter(date: Date): Date
    requires 1 <= date.month <= 12
  {
    if date.day < DaysIn(date) then date.(day := date.day + 1)
    else if date.month < 12 then Date(date.year, date.month + 1, 1)
    else Date(date.year + 1, 1, 1)
  }

  lemma DaysAre(date: Date)
    requires 1 <= date.month <= 12
    ensures DaysIn(date) == MonthLength(Leap(date.year), date.month)
  {
  }

  lemma NumberAfter(date: Date)
    requires Valid(date)
    ensures Valid(DayAfter(date)) && DayNumber(DayAfter(date)) == DayNumber(date) + 1
  {
    DaysAre(date);
    if date.month == 12 { YearEnds(date.year); }
  }

  /** Counting on by one day is going on to the next date. */
  lemma NextDay(day: int)
    ensures DateOf(day + 1) == DayAfter(DateOf(day))
  {
    NumberAfter(DateOf(day));
    DateIs(day + 1, DayAfter(DateOf(day)));
  }
}
