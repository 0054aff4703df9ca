/** Next-run times of recurring schedules (src/utils/compute-next-run.util.js), for zones with a constant offset.
    Instants are milliseconds since 1970-01-01T00:00Z, zones minutes east of UTC. */
module NextRun {
  import opened Calendar

  /** hours and minutes of time_of_day; its seconds are ignored. */
  datatype Time = Time(hours: int, minutes: int)

  predicate IsTime(t: Time) {
    0 <= t.hours < 24 && 0 <= t.minutes < 60
  }

  predicate IsZone(zone: int) {
    -1440 < zone < 1440
  }

  datatype Fields = Fields(date: Date, hours: int, minutes: int)

  /** Milliseconds a zone's clock shows. */
  function Local(instant: int, zone: int): int {
    instant + zone * MS_PER_MINUTE
  }

  /** What Intl.DateTimeFormat shows of an instant in a zone. */
  function InZone(instant: int, zone: int): Fields {
    var local := Local(instant, zone);
    Fields(DateOf(local / MS_PER_DAY), local % MS_PER_DAY / 3_600_000, local % 3_600_000 / MS_PER_MINUTE)
  }

  function TimeOfDay(hours: int, minutes: int): int {
    hours * 3_600_000 + minutes * MS_PER_MINUTE
  }

  /** Date.UTC. */
  function Utc(d: Date, hours: int, minutes: int): int
    requires 1 <= d.month <= 12
  {
    DayNumber(d) * MS_PER_DAY + TimeOfDay(hours, minutes)
  }

  /** createDateInTimezone: the offset is read off what the zone shows of the same fields taken as UTC. */
  function CreateDate(d: Date, time: Time, zone: int): int
    requires Valid(d)
  {
    var utc := Utc(d, time.hours, time.minutes);
    var shown := InZone(utc, zone);
    utc + (utc - Utc(shown.date, shown.hours, shown.minutes))
  }

  function ComputeDaily(time: Time, zone: int, now: int): int {
    var today := CreateDate(InZone(now, zone).date, time, zone);
    if today <= now then CreateDate(InZone(now + MS_PER_DAY, zone).date, time, zone) else today
  }

  /** UTC noon of the date the zone shows. */
  function Noon(zone: int, now: int): int {
    Utc(InZone(now, zone).date, 12, 0)
  }

  function DaysUntil(dayOfWeek: int, zone: int, now: int): int {
    var days := dayOfWeek - WeekDay(Noon(zone, now) / MS_PER_DAY);
    if days < 0 then days + 7 else days
  }

  /** The time on the date the zone shows at `target`, a week later if that is past. */
  function WeeklyFrom(target: int, time: Time, zone: int, now: int): int {
    var candidate := CreateDate(InZone(target, zone).date, time, zone);
    if candidate <= now then CreateDate(InZone(target + 7 * MS_PER_DAY, zone).date, time, zone) else candidate
  }

  /** UTC noon that many days on. */
  function WeeklyTarget(dayOfWeek: int, zone: int, now: int): int {
    Noon(zone, now) + DaysUntil(dayOfWeek, zone, now) * MS_PER_DAY
  }

  function ComputeWeekly(dayOfWeek: int, time: Time, zone: int, now: int): int {
    WeeklyFrom(WeeklyTarget(dayOfWeek, zone, now), time, zone, now)
  }

  function Capped(dayOfMonth: int): int {
    if dayOfMonth < 28 then dayOfMonth else 28
  }

  function NextMonth(d: Date): Date {
    if d.month + 1 > 12 then Date(d.year + 1, 1, d.day) else Date(d.year, d.month + 1, d.day)
  }

  function ComputeMonthly(dayOfMonth: int, time: Time, zone: int, now: int): int
    requires 1 <= dayOfMonth
  {
    var thisMonth := InZone(now, zone).date.(day := Capped(dayOfMonth));
    var candidate := CreateDate(thisMonth, time, zone);
    if candidate <= now then CreateDate(NextMonth(thisMonth), time, zone) else candidate
  }

  // ---------------------------------------------------------------- the specification

  datatype Schedule = Daily | Weekly(dayOfWeek: int) | Monthly(dayOfMonth: int)

  predicate IsSchedule(s: Schedule) {
    match s
    case Daily => true
    case Weekly(dayOfWeek) => 0 <= dayOfWeek < 7
    case Monthly(dayOfMonth) => 1 <= dayOfMonth
  }

  /** The zone's calendar shows a day the schedule runs on. */
  predicate OnDay(s: Schedule, day: int) {
    match s
    case Daily => true
    case Weekly(dayOfWeek) => WeekDay(day) == dayOfWeek
    case Monthly(dayOfMonth) => DateOf(day).day == Capped(dayOfMonth)
  }

  /** The zone's clock shows the schedule's day and time. */
  predicate Matches(s: Schedule, time: Time, zone: int, instant: int) {
    && OnDay(s, Local(instant, zone) / MS_PER_DAY)
    && Local(instant, zone) % MS_PER_DAY == TimeOfDay(time.hours, time.minutes)
  }

  /** `r` is the first matching instant after now. */
  ghost predicate IsNext(s: Schedule, time: Time, zone: int, now: int, r: int) {
    now < r && Matches(s, time, zone, r) && forall t | now < t < r :: !Matches(s, time, zone, t)
  }

  function ComputeNextRun(s: Schedule, time: Time, zone: int, now: int): int
    requires IsSchedule(s)
  {
    match s
    case Daily => ComputeDaily(time, zone, now)
    case Weekly(dayOfWeek) => ComputeWeekly(dayOfWeek, time, zone, now)
    case Monthly(dayOfMonth) => ComputeMonthly(dayOfMonth, time, zone, now)
  }

  // ---------------------------------------------------------------- days

  /** The instant at which the zone's clock shows a time of a day. */
  function At(day: int, time: Time, zone: int): int {
    day * MS_PER_DAY + TimeOfDay(time.hours, time.minutes) - zone * MS_PER_MINUTE
  }

  lemma HourOfDay(n: int)
    ensures n % MS_PER_DAY % 3_600_000 == n % 3_600_000
  {
  }

  lemma MinuteOfHour(n: int)
    ensures n % 3_600_000 % MS_PER_MINUTE == n % MS_PER_MINUTE
  {
  }

  lemma SplitMinutes(n: int)
    requires n % MS_PER_MINUTE == 0
    ensures n / MS_PER_DAY * MS_PER_DAY + n % MS_PER_DAY / 3_600_000 * 3_600_000
            + n % 3_600_000 / MS_PER_MINUTE * MS_PER_MINUTE == n
  {
    HourOfDay(n);
    MinuteOfHour(n);
  }

  /** createDateInTimezone gives the instant at which the zone shows the fields. */
  lemma CreateDateIs(d: Date, time: Time, zone: int)
    requires Valid(d)
    ensures CreateDate(d, time, zone) == At(DayNumber(d), time, zone)
  {
    var utc := Utc(d, time.hours, time.minutes);
    var local := Local(utc, zone);
    assert local == MS_PER_MINUTE * (DayNumber(d) * 1440 + time.hours * 60 + time.minutes + zone);
    SplitMinutes(local);
    assert DayNumber(DateOf(local / MS_PER_DAY)) == local / MS_PER_DAY;
  }

  function Today(zone: int, now: int): int {
    Local(now, zone) / MS_PER_DAY
  }

  lemma AtShows(day: int, time: Time, zone: int)
    requires IsTime(time)
    ensures Local(At(day, time, zone), zone) / MS_PER_DAY == day
    ensures Local(At(day, time, zone), zone) % MS_PER_DAY == TimeOfDay(time.hours, time.minutes)
  {
  }

  /** A schedule matches exactly at its time on its days. */
  lemma MatchesIs(s: Schedule, time: Time, zone: int, t: int)
    requires IsTime(time)
    ensures Matches(s, time, zone, t) <==> OnDay(s, Today(zone, t)) && t == At(Today(zone, t), time, zone)
  {
  }

  /** The next run is at its time on the first scheduled day whose time is still to come. */
  lemma NextIs(s: Schedule, time: Time, zone: int, now: int, day: int)
    requires IsTime(time) && OnDay(s, day) && Today(zone, now) <= day && now < At(day, time, zone)
    requires forall x | Today(zone, now) <= x < day && OnDay(s, x) :: At(x, time, zone) <= now
    ensures IsNext(s, time, zone, now, At(day, time, zone))
  {
    AtShows(day, time, zone);
    forall t | now < t < At(day, time, zone) ensures !Matches(s, time, zone, t) {
      MatchesIs(s, time, zone, t);
      Ordered(now, t, zone);
    }
  }

  lemma Ordered(t: int, u: int, zone: int)
    requires t <= u
    ensures Today(zone, t) <= Today(zone, u)
  {
  }

  /** Only today's time can be past. */
  lemma LaterDaysAreAhead(day: int, time: Time, zone: int, now: int)
    requires IsTime(time) && Today(zone, now) < day
    ensures now < At(day, time, zone)
  {
  }

  lemma AheadIsNotPast(day: int, time: Time, zone: int, now: int)
    requires IsTime(time) && now < At(day, time, zone)
    ensures Today(zone, now) <= day
  {
  }

  /** The shape of all three: the first scheduled day if its time is still to come, else the second. */
  lemma FirstOrSecond(s: Schedule, time: Time, zone: int, now: int, first: int, second: int)
    requires IsTime(time) && OnDay(s, first) && OnDay(s, second) && Today(zone, now) < second
    requires forall x | Today(zone, now) <= x < second && OnDay(s, x) :: x == first
    requires first < second
    ensures IsNext(s, time, zone, now, At(if At(first, time, zone) <= now then second else first, time, zone))
  {
    if At(first, time, zone) <= now {
      LaterDaysAreAhead(second, time, zone, now);
      NextIs(s, time, zone, now, second);
    } else {
      AheadIsNotPast(first, time, zone, now);
      NextIs(s, time, zone, now, first);
    }
  }

  // ---------------------------------------------------------------- the three frequencies

  lemma DailyIsNext(time: Time, zone: int, now: int)
    requires IsTime(time)
    ensures IsNext(Daily, time, zone, now, ComputeDaily(time, zone, now))
  {
    var today := Today(zone, now);
    CreateDateIs(DateOf(today), time, zone);
    CreateDateIs(DateOf(today + 1), time, zone);
    assert Local(now + MS_PER_DAY, zone) / MS_PER_DAY == today + 1;
    FirstOrSecond(Daily, time, zone, now, today, today + 1);
  }

  /** How many days UTC noon is off in the zone. */
  function NoonShift(zone: int): int {
    (720 + zone) / 1440
  }

  lemma NoonInZone(day: int, zone: int)
    ensures Local(day * MS_PER_DAY + TimeOfDay(12, 0), zone) / MS_PER_DAY == day + NoonShift(zone)
  {
  }

  lemma NoonIsToday(zone: int, now: int)
    ensures Noon(zone, now) == Today(zone, now) * MS_PER_DAY + TimeOfDay(12, 0)
    ensures Noon(zone, now) / MS_PER_DAY == Today(zone, now)
  {
  }

  lemma WeekDayAfter(day: int, k: int)
    requires 0 <= k <= 7
    ensures WeekDay(day + k) == if WeekDay(day) + k < 7 then WeekDay(day) + k else WeekDay(day) + k - 7
  {
  }

  /** The code's count of days reaches the first such weekday from today on. */
  lemma WeekDaysUntil(dayOfWeek: int, zone: int, now: int)
    requires 0 <= dayOfWeek < 7
    ensures var n, today := DaysUntil(dayOfWeek, zone, now), Today(zone, now);
            && 0 <= n < 7 && WeekDay(today + n) == dayOfWeek
            && forall x | today <= x < today + n :: WeekDay(x) != dayOfWeek
  {
    var n, today := DaysUntil(dayOfWeek, zone, now), Today(zone, now);
    NoonIsToday(zone, now);
    WeekDayAfter(today, n);
    forall x | today <= x < today + n ensures WeekDay(x) != dayOfWeek {
      WeekDayAfter(today, x - today);
    }
  }

  /** From such a day, the next one is a week later. */
  lemma WeeksRepeat(day: int)
    ensures WeekDay(day + 7) == WeekDay(day) && forall x | day < x < day + 7 :: WeekDay(x) != WeekDay(day)
  {
    WeekDayAfter(day, 7);
    forall x | day < x < day + 7 ensures WeekDay(x) != WeekDay(day) {
      WeekDayAfter(day, x - day);
    }
  }

  lemma NoonRunIs(target: int, day: int, time: Time, zone: int)
    requires target == day * MS_PER_DAY + TimeOfDay(12, 0)
    ensures CreateDate(InZone(target, zone).date, time, zone) == At(day + NoonShift(zone), time, zone)
  {
    NoonInZone(day, zone);
    CreateDateIs(DateOf(day + NoonShift(zone)), time, zone);
  }

  lemma NextNoon(target: int, base: int)
    requires target == base * MS_PER_DAY + TimeOfDay(12, 0)
    ensures target + 7 * MS_PER_DAY == (base + 7) * MS_PER_DAY + TimeOfDay(12, 0)
  {
  }

  lemma WeeklyFromTwo(target: int, time: Time, zone: int, now: int, first: int, second: int)
    requires CreateDate(InZone(target, zone).date, time, zone) == first
    requires CreateDate(InZone(target + 7 * MS_PER_DAY, zone).date, time, zone) == second
    ensures WeeklyFrom(target, time, zone, now) == if first <= now then second else first
  {
  }

  lemma WeeklyFromIs(target: int, base: int, time: Time, zone: int, now: int)
    requires target == base * MS_PER_DAY + TimeOfDay(12, 0)
    ensures WeeklyFrom(target, time, zone, now) == WeeklyAt(base, time, zone, now)
  {
    NextNoon(target, base);
    NoonRunIs(target, base, time, zone);
    NoonRunIs(target + 7 * MS_PER_DAY, base + 7, time, zone);
    WeeklyFromTwo(target, time, zone, now, At(base + NoonShift(zone), time, zone),
                  At(base + 7 + NoonShift(zone), time, zone));
  }

  /** The time on a day moved by the days UTC noon is off, or a week later. */
  function WeeklyAt(base: int, time: Time, zone: int, now: int): int {
    var day := base + NoonShift(zone);
    At(if At(day, time, zone) <= now then day + 7 else day, time, zone)
  }

  /** `base` is the first such weekday from today on. */
  ghost predicate FirstSuchDay(dayOfWeek: int, today: int, base: int) {
    today <= base && WeekDay(base) == dayOfWeek && forall x | today <= x < base :: WeekDay(x) != dayOfWeek
  }

  /** The code's target is UTC noon of the first such weekday. */
  lemma TargetIs(dayOfWeek: int, zone: int, now: int) returns (base: int)
    requires 0 <= dayOfWeek < 7
    ensures FirstSuchDay(dayOfWeek, Today(zone, now), base)
    ensures WeeklyTarget(dayOfWeek, zone, now) == base * MS_PER_DAY + TimeOfDay(12, 0)
  {
    WeekDaysUntil(dayOfWeek, zone, now);
    NoonIsToday(zone, now);
    base := Today(zone, now) + DaysUntil(dayOfWeek, zone, now);
  }

  lemma WeeklyIsFrom(dayOfWeek: int, time: Time, zone: int, now: int, target: int, r: int)
    requires target == WeeklyTarget(dayOfWeek, zone, now) && WeeklyFrom(target, time, zone, now) == r
    ensures ComputeWeekly(dayOfWeek, time, zone, now) == r
  {
  }

  /** The weekly result is the time on the first such weekday, moved by the days UTC noon is off. */
  lemma WeeklyIs(dayOfWeek: int, time: Time, zone: int, now: int) returns (base: int)
    requires 0 <= dayOfWeek < 7
    ensures FirstSuchDay(dayOfWeek, Today(zone, now), base)
    ensures ComputeWeekly(dayOfWeek, time, zone, now) == WeeklyAt(base, time, zone, now)
  {
    base := TargetIs(dayOfWeek, zone, now);
    var target := WeeklyTarget(dayOfWeek, zone, now);
    WeeklyFromIs(target, base, time, zone, now);
    WeeklyIsFrom(dayOfWeek, time, zone, now, target, WeeklyAt(base, time, zone, now));
  }

  lemma FirstWeekday(dayOfWeek: int, today: int, first: int)
    requires FirstSuchDay(dayOfWeek, today, first)
    ensures WeekDay(first + 7) == dayOfWeek
    ensures forall x | today <= x < first + 7 && OnDay(Weekly(dayOfWeek), x) :: x == first
  {
    WeeksRepeat(first);
  }

  lemma WeeklyIsNext(dayOfWeek: int, time: Time, zone: int, now: int, base: int)
    requires IsTime(time) && -720 <= zone < 720 && FirstSuchDay(dayOfWeek, Today(zone, now), base)
    ensures IsNext(Weekly(dayOfWeek), time, zone, now, WeeklyAt(base, time, zone, now))
  {
    FirstWeekday(dayOfWeek, Today(zone, now), base);
    FirstOrSecond(Weekly(dayOfWeek), time, zone, now, base, base + 7);
  }

  lemma ShiftedWeekday(day: int, shift: int)
    requires shift in {-1, 1}
    ensures WeekDay(day + shift) != WeekDay(day) && WeekDay(day + shift + 7) != WeekDay(day)
  {
  }

  /** Where UTC noon is on another date, so is the result: on the weekday after, or before, the wanted one. */
  lemma WeeklyMissesDay(dayOfWeek: int, time: Time, zone: int, now: int, base: int)
    requires IsTime(time) && IsZone(zone) && !(-720 <= zone < 720) && WeekDay(base) == dayOfWeek
    ensures !Matches(Weekly(dayOfWeek), time, zone, WeeklyAt(base, time, zone, now))
  {
    ShiftedWeekday(base, NoonShift(zone));
    AtShows(base + NoonShift(zone), time, zone);
    AtShows(base + NoonShift(zone) + 7, time, zone);
  }

  /** The weekly result is right exactly in zones where UTC noon falls on the same date. */
  lemma WeeklyIsNextIff(dayOfWeek: int, time: Time, zone: int, now: int)
    requires IsTime(time) && IsZone(zone) && 0 <= dayOfWeek < 7
    ensures IsNext(Weekly(dayOfWeek), time, zone, now, ComputeWeekly(dayOfWeek, time, zone, now))
            <==> -720 <= zone < 720
  {
    var base := WeeklyIs(dayOfWeek, time, zone, now);
    if -720 <= zone < 720 {
      WeeklyIsNext(dayOfWeek, time, zone, now, base);
    } else {
      WeeklyMissesDay(dayOfWeek, time, zone, now, base);
    }
  }

  /** A month on: the same day of the next month. */
  lemma NextMonthIsNext(d: Date)
    requires Valid(d) && d.day <= 28
    ensures Valid(NextMonth(d)) && MonthIndex(NextMonth(d)) == MonthIndex(d) + 1
  {
  }

  /** From a date on, the first one with d's day of the month, d being in that date's month, is not before d. */
  lemma NotBeforeThisMonth(today: Date, d: Date, f: Date)
    requires Valid(today) && Valid(d) && Valid(f) && MonthIndex(today) == MonthIndex(d)
    requires f.day == d.day && DayNumber(today) <= DayNumber(f)
    ensures DayNumber(d) <= DayNumber(f)
  {
    if MonthIndex(f) < MonthIndex(d) {
      MonthsAscend(f, today);
    } else if MonthIndex(d) < MonthIndex(f) {
      MonthsAscend(d, f);
    } else {
      SameMonth(d, f);
    }
  }

  /** Between a date and the same day a month later no other date has that day of the month. */
  lemma SameDayOfMonth(d: Date, e: Date, f: Date)
    requires Valid(d) && Valid(e) && Valid(f) && f.day == d.day == e.day && MonthIndex(e) == MonthIndex(d) + 1
    requires DayNumber(d) <= DayNumber(f) < DayNumber(e)
    ensures f == d
  {
    if MonthIndex(f) < MonthIndex(d) {
      MonthsAscend(f, d);
    } else if MonthIndex(e) < MonthIndex(f) {
      MonthsAscend(e, f);
    } else if MonthIndex(e) == MonthIndex(f) {
      SameMonth(e, f);
    } else {
      SameMonth(d, f);
    }
  }

  /** Of the days from today until a month after d, only d's can be past. */
  lemma DaysOfMonth(dayOfMonth: int, today: int, d: Date, x: int)
    requires 1 <= dayOfMonth && Valid(d) && d == DateOf(today).(day := Capped(dayOfMonth))
    requires today <= x < DayNumber(NextMonth(d)) && OnDay(Monthly(dayOfMonth), x)
    ensures x == DayNumber(d)
  {
    NextMonthIsNext(d);
    NotBeforeThisMonth(DateOf(today), d, DateOf(x));
    SameDayOfMonth(d, NextMonth(d), DateOf(x));
  }

  lemma MonthlyDays(dayOfMonth: int, today: int, d: Date)
    requires 1 <= dayOfMonth && Valid(d) && d == DateOf(today).(day := Capped(dayOfMonth))
    ensures var s, first, second := Monthly(dayOfMonth), DayNumber(d), DayNumber(NextMonth(d));
            && OnDay(s, first) && OnDay(s, second) && today < second && first < second
            && forall x | today <= x < second && OnDay(s, x) :: x == first
  {
    NextMonthIsNext(d);
    DateOfDayNumber(d);
    DateOfDayNumber(NextMonth(d));
    MonthsAscend(DateOf(today), NextMonth(d));
    MonthsAscend(d, NextMonth(d));
    forall x | today <= x < DayNumber(NextMonth(d)) && OnDay(Monthly(dayOfMonth), x) ensures x == DayNumber(d) {
      DaysOfMonth(dayOfMonth, today, d, x);
    }
  }

  lemma MonthlyIs(dayOfMonth: int, time: Time, zone: int, now: int, d: Date)
    requires 1 <= dayOfMonth && d == InZone(now, zone).date.(day := Capped(dayOfMonth)) && Valid(d)
             && Valid(NextMonth(d))
    ensures ComputeMonthly(dayOfMonth, time, zone, now)
              == At(if At(DayNumber(d), time, zone) <= now then DayNumber(NextMonth(d)) else DayNumber(d), time, zone)
  {
    CreateDateIs(d, time, zone);
    CreateDateIs(NextMonth(d), time, zone);
  }

  lemma MonthlyFirstOrSecond(dayOfMonth: int, time: Time, zone: int, now: int, d: Date)
    requires IsTime(time) && 1 <= dayOfMonth && Valid(d) && Valid(NextMonth(d))
    requires d == DateOf(Today(zone, now)).(day := Capped(dayOfMonth))
    ensures IsNext(Monthly(dayOfMonth), time, zone, now,
                   At(if At(DayNumber(d), time, zone) <= now then DayNumber(NextMonth(d))
                      else DayNumber(d), time, zone))
  {
    MonthlyDays(dayOfMonth, Today(zone, now), d);
    FirstOrSecond(Monthly(dayOfMonth), time, zone, now, DayNumber(d), DayNumber(NextMonth(d)));
  }

  /** The monthly result is the next run, across year ends too. */
  lemma MonthlyIsNext(dayOfMonth: int, time: Time, zone: int, now: int)
    requires IsTime(time) && 1 <= dayOfMonth
    ensures IsNext(Monthly(dayOfMonth), time, zone, now, ComputeMonthly(dayOfMonth, time, zone, now))
  {
    var d := DateOf(Today(zone, now)).(day := Capped(dayOfMonth));
    NextMonthIsNext(d);
    MonthlyIs(dayOfMonth, time, zone, now, d);
    MonthlyFirstOrSecond(dayOfMonth, time, zone, now, d);
  }

  /** The next run is the first matching instant after now, in every zone for daily and monthly schedules, and
      exactly in those within twelve hours of UTC for weekly ones. */
  lemma NextRunIsNextIff(s: Schedule, time: Time, zone: int, now: int)
    requires IsTime(time) && IsZone(zone) && IsSchedule(s)
    ensures IsNext(s, time, zone, now, ComputeNextRun(s, time, zone, now)) <==> (s.Weekly? ==> -720 <= zone < 720)
  {
    match s
    case Daily => DailyIsNext(time, zone, now);
    case Weekly(dayOfWeek) => WeeklyIsNextIff(dayOfWeek, time, zone, now);
    case Monthly(dayOfMonth) => MonthlyIsNext(dayOfMonth, time, zone, now);
  }

  /** Whatever the zone, the next run lies strictly ahead. */
  lemma NextRunIsAhead(s: Schedule, time: Time, zone: int, now: int)
    requires IsTime(time) && IsZone(zone) && IsSchedule(s)
    ensures now < ComputeNextRun(s, time, zone, now)
  {
    match s
    case Daily => DailyIsNext(time, zone, now);
    case Monthly(dayOfMonth) => MonthlyIsNext(dayOfMonth, time, zone, now);
    case Weekly(dayOfWeek) =>
      var base := WeeklyIs(dayOfWeek, time, zone, now);
      LaterDaysAreAhead(base + NoonShift(zone) + 7, time, zone, now);
  }
}
