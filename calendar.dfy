/**
 * Dates and times on the single local clock of the model.
 *
 * A date is its proleptic Gregorian ordinal, as Python's `date.toordinal()`
 * (0001-01-01 is day 1); an instant is a count of minutes, `date * 1440 + minute`,
 * and a time of day is a minute in 0..1439.
 */
module Calendar {

  const MinutesPerDay := 1440
  const MinutesPerHour := 60

  type MinuteOfDay = m: int | 0 <= m < 1440

  /** The instant at a time of day on a date (Python's `datetime.combine`). */
  function Instant(date: int, t: MinuteOfDay): int { date * MinutesPerDay + t }

  /** The date of an instant (Python's `.date()`). */
  function DateOf(instant: int): int { instant / MinutesPerDay }

  /** Python's `date.weekday()`: Monday is 0 and Sunday is 6. */
  function Weekday(ordinal: int): (w: int)
    ensures 0 <= w < 7
  {
    (ordinal + 6) % 7
  }

  /** Moving a date by k days moves its weekday by k, modulo seven. */
  lemma WeekdayShift(ordinal: int, k: int)
    ensures Weekday(ordinal + k) == (Weekday(ordinal) + k) % 7
  {
  }

  /** The operating-hours bucket of a date. */
  datatype DayKey = MonFri | Sat | Sun

  function DayKeyOf(ordinal: int): (key: DayKey)
    ensures key == MonFri <==> Weekday(ordinal) <= 4
    ensures key == Sat <==> Weekday(ordinal) == 5
    ensures key == Sun <==> Weekday(ordinal) == 6
  {
    var w := Weekday(ordinal);
    if w <= 4 then MonFri else if w == 5 then Sat else Sun
  }

  predicate IsLeap(year: int) {
    year % 4 == 0 && (year % 100 != 0 || year % 400 == 0)
  }

  function DaysInMonth(year: int, month: int): (n: int)
    requires 1 <= month <= 12
    ensures 28 <= n <= 31
  {
    if month == 2 then (if IsLeap(year) then 29 else 28)
    else if month == 4 || month == 6 || month == 9 || month == 11 then 30
    else 31
  }

  /** Days in the months of a year before `month` (Python's `_days_before_month`). */
  function DaysBeforeMonth(year: int, month: int): int
    requires 1 <= month <= 12
  {
    [0, 31, 59, 90, 120, 151, 181, 212, 243, 273, 304, 334][month - 1]
      + (if month > 2 && IsLeap(year) then 1 else 0)
  }

  /** Days in the years before `year` (Python's `_days_before_year`). */
  function DaysBeforeYear(year: int): int
    requires year >= 1
  {
    var y := year - 1;
    y * 365 + y / 4 - y / 100 + y / 400
  }

  /** A calendar date as year, month and day. */
  datatype CivilDate = CivilDate(year: int, month: int, day: int)

  /** The dates Python's `date` accepts. */
  predicate ValidDate(d: CivilDate) {
    1 <= d.year <= 9999 && 1 <= d.month <= 12 && 1 <= d.day <= DaysInMonth(d.year, d.month)
  }

  /** Python's `date.toordinal()` (`_ymd2ord`). */
  function Ordinal(d: CivilDate): int
    requires 1 <= d.year && 1 <= d.month <= 12
  {
    DaysBeforeYear(d.year) + DaysBeforeMonth(d.year, d.month) + d.day
  }

  /** The English names `strftime` gives for `%A` and `%B`. */
  function WeekdayName(w: int): string
    requires 0 <= w < 7
  {
    ["Monday", "Tuesday", "Wednesday", "Thursday", "Friday", "Saturday", "Sunday"][w]
  }

  function MonthName(month: int): string
    requires 1 <= month <= 12
  {
    ["January", "February", "March", "April", "May", "June", "July",
     "August", "September", "October", "November", "December"][month - 1]
  }

  /** 2026-10-14 is day 739903 and a Wednesday, as Python computes it. */
  lemma KnownWednesday()
    ensures Ordinal(CivilDate(2026, 10, 14)) == 739903
    ensures Weekday(739903) == 2
  {
    assert DaysBeforeYear(2026) == 739616;
    assert DaysBeforeMonth(2026, 10) == 273;
  }
}
