/** Day numbers and dates of the proleptic Gregorian calendar, as section 21.4.1 of ECMA-262 defines them. */
module Calendar {
  const MS_PER_MINUTE := 60_000
  const MS_PER_DAY := 86_400_000

  datatype Date = Date(year: int, month: int, day: int)

  predicate Leap(y: int) {
    y % 4 == 0 && (y % 100 != 0 || y % 400 == 0)
  }

  /** The number of the first day of a year, day 0 being 1 January 1970. */
  function DayFromYear(y: int): int {
    365 * (y - 1970) + (y - 1969) / 4 - (y - 1901) / 100 + (y - 1601) / 400
  }

  function DaysIn(month: int, leap: bool): (n: int)
    ensures 28 <= n <= 31
  {
    match month
    case 2 => if leap then 29 else 28
    case 4 => 30 case 6 => 30 case 9 => 30 case 11 => 30
    case _ => 31
  }

  /** Days of the year before the first of month m. */
  function DaysBefore(m: nat, leap: bool): int {
    if m <= 1 then 0 else DaysBefore(m - 1, leap) + DaysIn(m - 1, leap)
  }

  predicate Valid(d: Date) {
    1 <= d.month <= 12 && 1 <= d.day <= DaysIn(d.month, Leap(d.year))
  }

  /** MakeDay. */
  function DayNumber(d: Date): int
    requires 1 <= d.month <= 12
  {
    DayFromYear(d.year) + DaysBefore(d.month, Leap(d.year)) + d.day - 1
  }

  lemma YearLength(y: int)
    ensures DayFromYear(y + 1) == DayFromYear(y) + DaysBefore(13, Leap(y))
  {
    assert DaysBefore(13, true) == 366 && DaysBefore(13, false) == 365;
    LeapDays(y);
  }

  lemma LeapDays(y: int)
    ensures (y - 1968) / 4 == (y - 1969) / 4 + if y % 4 == 0 then 1 else 0
    ensures (y - 1900) / 100 == (y - 1901) / 100 + if y % 100 == 0 then 1 else 0
    ensures (y - 1600) / 400 == (y - 1601) / 400 + if y % 400 == 0 then 1 else 0
  {
    FloorStep(y - 1968, 4);
    FloorStep(y - 1900, 100);
    FloorStep(y - 1600, 400);
  }

  lemma FloorStep(n: int, k: int)
    requires k in {4, 100, 400}
    ensures n / k == (n - 1) / k + if n % k == 0 then 1 else 0
  {
  }

  lemma YearsAscend(y: int, z: int)
    requires y < z
    ensures DayFromYear(y + 1) <= DayFromYear(z)
  {
  }

  /** How many days a guess of the year is off. */
  ghost function Distance(day: int, guess: int): nat {
    if DayFromYear(guess) > day then DayFromYear(guess) - day
    else if DayFromYear(guess + 1) <= day then day - DayFromYear(guess)
    else 0
  }

  lemma Nearer(day: int, guess: int)
    ensures DayFromYear(guess) > day ==> Distance(day, guess - 1) < Distance(day, guess)
    ensures DayFromYear(guess + 1) <= day ==> Distance(day, guess + 1) < Distance(day, guess)
  {
    YearLength(guess);
    YearLength(guess - 1);
  }

  /** YearFromTime: the year a day falls in, searched from a guess. */
  function YearOf(day: int, guess: int): (y: int)
    ensures DayFromYear(y) <= day < DayFromYear(y + 1)
    decreases Distance(day, guess)
  {
    Nearer(day, guess);
    if DayFromYear(guess) > day then YearOf(day, guess - 1)
    else if DayFromYear(guess + 1) <= day then YearOf(day, guess + 1)
    else guess
  }

  /** The month a day of the year falls in, searched downwards. */
  function MonthOf(n: int, leap: bool, m: int): (r: int)
    requires 1 <= m <= 12 && 0 <= n < DaysBefore(m + 1, leap)
    ensures 1 <= r <= m && DaysBefore(r, leap) <= n < DaysBefore(r, leap) + DaysIn(r, leap)
    decreases m
  {
    if n < DaysBefore(m, leap) then MonthOf(n, leap, m - 1) else m
  }

  /** The date of a day: DayNumber's inverse. */
  function DateOf(day: int): (d: Date)
    ensures Valid(d) && DayNumber(d) == day
  {
    var y := YearOf(day, 1970);
    YearLength(y);
    var n := day - DayFromYear(y);
    var m := MonthOf(n, Leap(y), 12);
    Date(y, m, n - DaysBefore(m, Leap(y)) + 1)
  }

  /** The first day of a date's month. */
  function MonthStart(d: Date): int
    requires 1 <= d.month <= 12
  {
    DayFromYear(d.year) + DaysBefore(d.month, Leap(d.year))
  }

  function MonthIndex(d: Date): int {
    12 * d.year + d.month
  }

  lemma MonthInYear(d: Date)
    requires Valid(d)
    ensures DayFromYear(d.year) <= MonthStart(d) <= DayNumber(d) < DayFromYear(d.year + 1)
  {
    YearLength(d.year);
    MonthsOfYearAscend(d.month, 13, Leap(d.year));
    if 1 < d.month {
      MonthsOfYearAscend(1, d.month, Leap(d.year));
    }
  }

  lemma {:induction false} MonthsOfYearAscend(m: nat, n: nat, leap: bool)
    requires 1 <= m < n
    ensures DaysBefore(m, leap) + DaysIn(m, leap) <= DaysBefore(n, leap)
  {
    if m + 1 < n {
      MonthsOfYearAscend(m, n - 1, leap);
    }
  }

  /** A later month starts after every day of an earlier one. */
  lemma MonthsAscend(d: Date, e: Date)
    requires Valid(d) && Valid(e) && MonthIndex(d) < MonthIndex(e)
    ensures DayNumber(d) < MonthStart(e) <= DayNumber(e)
  {
    MonthInYear(d);
    MonthInYear(e);
    if d.year < e.year {
      YearsAscend(d.year, e.year);
    } else {
      assert d.year == e.year;
      MonthsOfYearAscend(d.month, e.month, Leap(d.year));
    }
  }

  lemma SameMonth(d: Date, e: Date)
    requires Valid(d) && Valid(e) && MonthIndex(d) == MonthIndex(e)
    ensures d.year == e.year && d.month == e.month && MonthStart(d) == MonthStart(e)
  {
  }

  /** DayNumber tells dates apart. */
  lemma DaysAreUnique(d: Date, e: Date)
    requires Valid(d) && Valid(e) && DayNumber(d) == DayNumber(e)
    ensures d == e
  {
    if MonthIndex(d) < MonthIndex(e) {
      MonthsAscend(d, e);
    } else if MonthIndex(e) < MonthIndex(d) {
      MonthsAscend(e, d);
    } else {
      SameMonth(d, e);
    }
  }

  /** DateOf inverts DayNumber on valid dates. */
  lemma DateOfDayNumber(d: Date)
    requires Valid(d)
    ensures DateOf(DayNumber(d)) == d
  {
    DaysAreUnique(d, DateOf(DayNumber(d)));
  }

  function WeekDay(day: int): int {
    (day + 4) % 7
  }
}
