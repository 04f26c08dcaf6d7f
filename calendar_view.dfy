/**
 * The date ranges of the owner's master calendar: the day, the Monday-based
 * week around a date, and the month grid padded to start on a Monday.
 */
module CalendarView {
  import opened Common
  import opened Calendar

  /** The first and last date of the week containing `d`, Monday to Sunday. */
  function WeekRange(d: int): (r: (int, int))
    ensures Weekday(r.0) == 0 && r.1 == r.0 + 6
    ensures r.0 <= d <= r.1
  {
    var start := d - Weekday(d);
    WeekdayShift(d, -Weekday(d));
    (start, start + 6)
  }

  /** The seven column dates of the week view. */
  function WeekDates(d: int): (dates: seq<int>)
    ensures |dates| == 7
    ensures forall i :: 0 <= i < 7 ==> dates[i] == WeekRange(d).0 + i && Weekday(dates[i]) == i
  {
    var start := WeekRange(d).0;
    var dates := seq(7, i => start + i);
    WeekdaysOfWeek(dates);
    dates
  }

  lemma WeekdaysOfWeek(dates: seq<int>)
    requires |dates| == 7 && Weekday(dates[0]) == 0
    requires forall i :: 0 <= i < 7 ==> dates[i] == dates[0] + i
    ensures forall i :: 0 <= i < 7 ==> Weekday(dates[i]) == i
  {
    forall i | 0 <= i < 7 ensures Weekday(dates[i]) == i {
      WeekdayShift(dates[0], i);
    }
  }

  /** The week of any of its own dates is the same week. */
  lemma WeekRangeStable(d: int, k: int)
    requires 0 <= k < 7
    ensures WeekRange(WeekRange(d).0 + k) == WeekRange(d)
  {
    var start := WeekRange(d).0;
    WeekdayShift(start, k);
    assert Weekday(start + k) == k % 7 == k;
    assert (start + k) - Weekday(start + k) == start;
  }

  /** The first and last date of the month of `d`. */
  function MonthRange(d: CivilDate): (r: (int, int))
    requires ValidDate(d)
    ensures r.0 <= Ordinal(d) <= r.1
    ensures r.1 - r.0 + 1 == DaysInMonth(d.year, d.month)
  {
    (Ordinal(CivilDate(d.year, d.month, 1)), Ordinal(CivilDate(d.year, d.month, DaysInMonth(d.year, d.month))))
  }

  /**
   * The date range the calendar lists for its `scale` parameter: the week or
   * the month around the date, and for any other scale the date alone.
   */
  function ScaleRange(scale: string, d: CivilDate): (r: (int, int))
    requires ValidDate(d)
    ensures r.0 <= Ordinal(d) <= r.1
    ensures scale == "week" ==> Weekday(r.0) == 0 && r.1 == r.0 + 6
    ensures scale == "month" ==> r.1 - r.0 + 1 == DaysInMonth(d.year, d.month)
    ensures scale != "week" && scale != "month" ==> r == (Ordinal(d), Ordinal(d))
  {
    if scale == "week" then WeekRange(Ordinal(d))
    else if scale == "month" then MonthRange(d)
    else (Ordinal(d), Ordinal(d))
  }

  /**
   * The month grid: one empty cell per weekday before the 1st, then the dates
   * of days 1 to the last day of the month.
   */
  method MonthGrid(d: CivilDate) returns (cells: seq<Option<int>>)
    requires ValidDate(d)
    ensures var pad := Weekday(Ordinal(CivilDate(d.year, d.month, 1)));
      |cells| == pad + DaysInMonth(d.year, d.month) &&
      (forall i :: 0 <= i < pad ==> cells[i].None?) &&
      (forall j :: pad <= j < |cells| ==> cells[j] == Some(Ordinal(CivilDate(d.year, d.month, j - pad + 1))))
  {
    var first := Ordinal(CivilDate(d.year, d.month, 1));
    var pad := Weekday(first);
    var numDays := DaysInMonth(d.year, d.month);
    cells := [];
    var i := 0;
    while i < pad
      invariant 0 <= i <= pad
      invariant |cells| == i && forall j :: 0 <= j < i ==> cells[j].None?
    {
      cells := cells + [None];
      i := i + 1;
    }
    var day := 1;
    while day <= numDays
      invariant 1 <= day <= numDays + 1
      invariant |cells| == pad + day - 1
      invariant forall j :: 0 <= j < pad ==> cells[j].None?
      invariant forall j :: pad <= j < |cells| ==> cells[j] == Some(Ordinal(CivilDate(d.year, d.month, j - pad + 1)))
    {
      cells := cells + [Some(Ordinal(CivilDate(d.year, d.month, day)))];
      day := day + 1;
    }
  }

  /** In the grid, day k + 1 sits in the column of its weekday: cell index modulo seven is the weekday. */
  lemma GridColumnsAreWeekdays(d: CivilDate, k: int)
    requires ValidDate(d) && 0 <= k < DaysInMonth(d.year, d.month)
    ensures var pad := Weekday(Ordinal(CivilDate(d.year, d.month, 1)));
      Weekday(Ordinal(CivilDate(d.year, d.month, k + 1))) == (pad + k) % 7
  {
    var first := Ordinal(CivilDate(d.year, d.month, 1));
    assert Ordinal(CivilDate(d.year, d.month, k + 1)) == first + k;
    WeekdayShift(first, k);
  }
}
