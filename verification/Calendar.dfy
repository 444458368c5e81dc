/** The proleptic Gregorian calendar of Python's `datetime`, without its last year: dates, days and minutes. */
module Calendar {

  predicate IsLeap(year: int) {
    year % 4 == 0 && (year % 100 != 0 || year % 400 == 0)
  }

  function DaysInMonth(year: int, month: int): int {
    if month == 2 then (if IsLeap(year) then 29 else 28)
    else if month in {4, 6, 9, 11} then 30
    else 31
  }

  datatype Date = Date(year: int, month: int, day: int)

  predicate ValidDate(d: Date) {
    1 <= d.year && 1 <= d.month <= 12 && 1 <= d.day <= DaysInMonth(d.year, d.month)
  }

  /** A time at minute resolution. */
  datatype Moment = Moment(date: Date, hour: int, minute: int)

  predicate ValidMoment(t: Moment) {
    ValidDate(t.date) && 0 <= t.hour < 24 && 0 <= t.minute < 60
  }

  predicate DateBefore(d: Date, e: Date) {
    d.year < e.year
    || (d.year == e.year && (d.month < e.month || (d.month == e.month && d.day < e.day)))
  }

  /** The order in which `datetime` values compare: field by field. */
  predicate Before(t: Moment, u: Moment) {
    DateBefore(t.date, u.date)
    || (t.date == u.date && (t.hour < u.hour || (t.hour == u.hour && t.minute < u.minute)))
  }

  function DaysBeforeYear(year: int): int {
    365 * (year - 1) + (year - 1) / 4 - (year - 1) / 100 + (year - 1) / 400
  }

  function DaysBeforeMonth(year: int, month: int): int
    decreases month
  {
    if month <= 1 then 0 else DaysBeforeMonth(year, month - 1) + DaysInMonth(year, month - 1)
  }

  /** `toordinal`: day 1 is the first of January of year 1. */
  function Ordinal(d: Date): int {
    DaysBeforeYear(d.year) + DaysBeforeMonth(d.year, d.month) + d.day
  }

  function Minutes(t: Moment): int {
    (Ordinal(t.date) * 24 + t.hour) * 60 + t.minute
  }

  /** Sunday is 0, as in a cron expression. */
  function Weekday(d: Date): int {
    ((Ordinal(d) + 6) % 7 + 1) % 7
  }

  function NextDay(d: Date): Date {
    if d.day < DaysInMonth(d.year, d.month) then d.(day := d.day + 1)
    else if d.month < 12 then Date(d.year, d.month + 1, 1)
    else Date(d.year + 1, 1, 1)
  }

  function AddHour(t: Moment): Moment {
    if t.hour < 23 then t.(hour := t.hour + 1) else Moment(NextDay(t.date), 0, t.minute)
  }

  function AddMinute(t: Moment): Moment {
    if t.minute < 59 then t.(minute := t.minute + 1) else AddHour(t.(minute := 0))
  }

  // ---- Counting days ----

  lemma DivStep4(n: int)
    ensures n / 4 - (n - 1) / 4 == if n % 4 == 0 then 1 else 0
  {
  }

  lemma DivStep100(n: int)
    ensures n / 100 - (n - 1) / 100 == if n % 100 == 0 then 1 else 0
  {
  }

  lemma DivStep400(n: int)
    ensures n / 400 - (n - 1) / 400 == if n % 400 == 0 then 1 else 0
    ensures n % 400 == 0 ==> n % 100 == 0
    ensures n % 100 == 0 ==> n % 4 == 0
  {
  }

  lemma YearLength(year: int)
    ensures DaysBeforeYear(year + 1) == DaysBeforeYear(year) + 365 + (if IsLeap(year) then 1 else 0)
  {
    DivStep4(year);
    DivStep100(year);
    DivStep400(year);
  }

  lemma MonthTable(year: int)
    ensures DaysBeforeMonth(year, 1) == 0 && DaysBeforeMonth(year, 2) == 31
    ensures var n := DaysInMonth(year, 2);
            && DaysBeforeMonth(year, 3) == 31 + n && DaysBeforeMonth(year, 4) == 62 + n
            && DaysBeforeMonth(year, 5) == 92 + n && DaysBeforeMonth(year, 6) == 123 + n
            && DaysBeforeMonth(year, 7) == 153 + n && DaysBeforeMonth(year, 8) == 184 + n
            && DaysBeforeMonth(year, 9) == 215 + n && DaysBeforeMonth(year, 10) == 245 + n
            && DaysBeforeMonth(year, 11) == 276 + n && DaysBeforeMonth(year, 12) == 306 + n
            && DaysBeforeMonth(year, 13) == 337 + n
  {
  }

  lemma {:induction false} YearsApart(y: int, z: int)
    requires y <= z
    ensures 365 * (z - y) <= DaysBeforeYear(z) - DaysBeforeYear(y) <= 366 * (z - y)
    decreases z - y
  {
    if y < z {
      YearsApart(y, z - 1);
      YearLength(z - 1);
    }
  }

  lemma DayOfYear(d: Date)
    requires ValidDate(d)
    ensures DaysBeforeYear(d.year) < Ordinal(d) <= DaysBeforeYear(d.year + 1)
  {
    MonthTable(d.year);
    YearLength(d.year);
  }

  lemma {:induction false} MonthsApart(year: int, m: int, n: int)
    requires 1 <= m < n
    ensures DaysBeforeMonth(year, m) + DaysInMonth(year, m) <= DaysBeforeMonth(year, n)
    decreases n
  {
    if m < n - 1 {
      MonthsApart(year, m, n - 1);
    }
  }

  /** The day number orders dates exactly as the fields do. */
  lemma OrdinalOrder(d: Date, e: Date)
    requires ValidDate(d) && ValidDate(e)
    ensures DateBefore(d, e) <==> Ordinal(d) < Ordinal(e)
    ensures d == e <==> Ordinal(d) == Ordinal(e)
  {
    if DateBefore(d, e) { OrdinalBefore(d, e); }
    if DateBefore(e, d) { OrdinalBefore(e, d); }
  }

  lemma EarlierYear(d: Date, e: Date)
    requires ValidDate(d) && ValidDate(e) && d.year < e.year
    ensures Ordinal(d) < Ordinal(e)
  {
    hide DaysBeforeYear, Ordinal;
    DayOfYear(d);
    DayOfYear(e);
    YearsApart(d.year + 1, e.year);
  }

  lemma OrdinalBefore(d: Date, e: Date)
    requires ValidDate(d) && ValidDate(e) && DateBefore(d, e)
    ensures Ordinal(d) < Ordinal(e)
  {
    if d.year < e.year {
      EarlierYear(d, e);
    } else if d.month < e.month {
      MonthsApart(d.year, d.month, e.month);
    }
  }

  /** The minute number orders moments exactly as the fields do. */
  lemma MinutesOrder(t: Moment, u: Moment)
    requires ValidMoment(t) && ValidMoment(u)
    ensures Before(t, u) <==> Minutes(t) < Minutes(u)
    ensures t == u <==> Minutes(t) == Minutes(u)
  {
    OrdinalOrder(t.date, u.date);
    hide Ordinal;
  }

  lemma NextDayOrdinal(d: Date)
    requires ValidDate(d)
    ensures ValidDate(NextDay(d)) && Ordinal(NextDay(d)) == Ordinal(d) + 1
  {
    MonthTable(d.year);
    MonthTable(d.year + 1);
    YearLength(d.year);
    hide DaysBeforeYear, DaysBeforeMonth;
    if d.day == DaysInMonth(d.year, d.month) && d.month < 12 {
      MonthStep(d.year, d.month);
    }
  }

  lemma MonthStep(year: int, month: int)
    requires 1 <= month
    ensures DaysBeforeMonth(year, month + 1) == DaysBeforeMonth(year, month) + DaysInMonth(year, month)
  {
  }

  /** The days of the week go round from the first of January of year 1, a Monday. */
  lemma WeekdayGoesRound(d: Date)
    ensures Weekday(Date(1, 1, 1)) == 1
    ensures ValidDate(d) ==> Weekday(NextDay(d)) == (Weekday(d) + 1) % 7
  {
    if ValidDate(d) { NextDayOrdinal(d); }
  }

  /** No date lies between a date and the next day. */
  lemma NextDayIsNext(d: Date, e: Date)
    requires ValidDate(d) && ValidDate(e)
    ensures DateBefore(d, NextDay(d)) && !(DateBefore(d, e) && DateBefore(e, NextDay(d)))
  {
  }

  /** The months are as long as in the Gregorian calendar. */
  lemma MonthLengths(year: int, month: int)
    requires 1 <= month <= 12
    ensures DaysInMonth(year, month) == [31, 28, 31, 30, 31, 30, 31, 31, 30, 31, 30, 31][month - 1]
      + if month == 2 && (if year % 100 == 0 then year % 400 == 0 else year % 4 == 0) then 1 else 0
  {
    DivStep400(year);
  }

  /** One minute later is the next minute number. */
  lemma AddMinuteMinutes(t: Moment)
    requires ValidMoment(t)
    ensures ValidMoment(AddMinute(t)) && Minutes(AddMinute(t)) == Minutes(t) + 1
  {
    NextDayOrdinal(t.date);
    hide Ordinal, NextDay;
  }
}
