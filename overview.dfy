/** The overview tab (main_tab.py): the day, week and month buttons, the previous and
    next arrows, and the report range they hand to the analytics widget. */
module Overview {
  import opened Dates
  import opened Wrappers

  /** current_mode: "week", "month" or "day". */
  datatype Mode = Week | Month | Day

  // ---------------------------------------------------------------------------
  // Ranges

  /** get_week_range: from the Monday of the date's week to the Sunday six days later. */
  function WeekRange(d: Date): (Date, Date) {
    var start := AddDays(d, -Weekday(d));
    (start, AddDays(start, 6))
  }

  /** The first day of the month after the month of `d`, the year wrapping after December. */
  function NextMonthStart(d: Date): (r: Date)
    ensures r.day == 1
    ensures d.month < 12 ==> r.year == d.year && r.month == d.month + 1
    ensures d.month == 12 ==> r.year == d.year + 1 && r.month == 1
  {
    if d.month + 1 == 13 then YMD(d.year + 1, 1, 1) else YMD(d.year, d.month + 1, 1)
  }

  /** The first day of the month before the month of `d`, the year wrapping before January. */
  function PrevMonthStart(d: Date): (r: Date)
    ensures r.day == 1
    ensures d.month > 1 ==> r.year == d.year && r.month == d.month - 1
    ensures d.month == 1 ==> r.year == d.year - 1 && r.month == 12
  {
    if d.month - 1 < 1 then YMD(d.year - 1, 12, 1) else YMD(d.year, d.month - 1, 1)
  }

  /** get_month_range: from day 1 of the month to the day before the next month starts. */
  function MonthRange(d: Date): (Date, Date) {
    var start := YMD(d.year, d.month, 1);
    (start, AddDays(NextMonthStart(start), -1))
  }

  /** The range load_data_for_current_mode sends to the report: the week, the month, or
      the current day alone. */
  function RangeFor(mode: Mode, d: Date): (Date, Date) {
    match mode
    case Week => WeekRange(d)
    case Month => MonthRange(d)
    case Day => (d, d)
  }

  /** on_next_clicked: a week on, to day 1 of the next month, or a day on. */
  function StepNext(mode: Mode, d: Date): Date {
    match mode
    case Week => AddDays(d, 7)
    case Month => NextMonthStart(d)
    case Day => AddDays(d, 1)
  }

  /** on_prev_clicked: a week back, to day 1 of the previous month, or a day back. */
  function StepPrev(mode: Mode, d: Date): Date {
    match mode
    case Week => AddDays(d, -7)
    case Month => PrevMonthStart(d)
    case Day => AddDays(d, -1)
  }

  // ---------------------------------------------------------------------------
  // Weekdays

  lemma ModSevenShift(a: int, n: int)
    ensures (a % 7 + n) % 7 == (a + n) % 7
  {
    var q := a / 7;
    assert a == 7 * q + a % 7;
    assert a + n == 7 * q + (a % 7 + n);
  }

  /** Moving n days moves the weekday n places round the week. */
  lemma WeekdayShift(d: Date, n: int)
    ensures Weekday(AddDays(d, n)) == (Weekday(d) + n) % 7
  {
    AddDaysOrdinal(d, n);
    ModSevenShift(Ordinal(d) + 6, n);
  }

  lemma WeekStartIsMonday(d: Date)
    ensures Weekday(AddDays(d, -Weekday(d))) == 0
  {
    WeekdayShift(d, -Weekday(d));
  }

  /** The week starts on a Monday and ends on a Sunday. */
  lemma WeekRangeWeekdays(d: Date)
    ensures Weekday(WeekRange(d).0) == 0 && Weekday(WeekRange(d).1) == 6
  {
    var start := AddDays(d, -Weekday(d));
    assert WeekRange(d) == (start, AddDays(start, 6));
    WeekStartIsMonday(d);
    WeekdayShift(start, 6);
  }

  /** The week holds the date and spans seven days. */
  lemma WeekRangeHoldsDate(d: Date)
    ensures Le(WeekRange(d).0, d) && Le(d, WeekRange(d).1)
    ensures Ordinal(WeekRange(d).1) == Ordinal(WeekRange(d).0) + 6
  {
    var w := Weekday(d);
    var start := AddDays(d, -w);
    AddDaysCancel(d, -w);
    AddDaysOrder(start, w);
    AddDaysCompose(d, -w, 6);
    AddDaysOrder(d, 6 - w);
    AddDaysOrdinal(start, 6);
  }

  /** The k-th day after a Monday is weekday k. */
  lemma WeekdayInWeek(start: Date, k: int)
    requires Weekday(start) == 0 && 0 <= k < 7
    ensures Weekday(AddDays(start, k)) == k
  {
    WeekdayShift(start, k);
  }

  /** The seven days from a Monday all have the week that starts on that Monday. */
  lemma DaysOfWeek(start: Date, k: int)
    requires Weekday(start) == 0 && 0 <= k < 7
    ensures WeekRange(AddDays(start, k)) == (start, AddDays(start, 6))
  {
    WeekStartOfDay(start, k);
  }

  lemma WeekStartOfDay(start: Date, k: int)
    requires Weekday(start) == 0 && 0 <= k < 7
    ensures AddDays(AddDays(start, k), -Weekday(AddDays(start, k))) == start
  {
    WeekdayInWeek(start, k);
    AddDaysCancel(start, k);
  }

  // ---------------------------------------------------------------------------
  // Months

  lemma PrevDayIsMinusOne(d: Date)
    ensures AddDays(d, -1) == PrevDay(d)
  {
  }

  /** The month range is the whole calendar month of the date. */
  lemma MonthRangeShape(d: Date)
    ensures MonthRange(d) == (FirstOfMonth(d), LastOfMonth(d))
  {
    PrevDayIsMinusOne(NextMonthStart(FirstOfMonth(d)));
  }

  lemma MonthRangeContains(d: Date)
    ensures Le(MonthRange(d).0, d) && Le(d, MonthRange(d).1)
  {
    MonthRangeShape(d);
  }

  // ---------------------------------------------------------------------------
  // What the arrows do to the range

  /** Every mode's range holds the current date. */
  lemma RangeHoldsDate(mode: Mode, d: Date)
    ensures Le(RangeFor(mode, d).0, d) && Le(d, RangeFor(mode, d).1)
    ensures mode == Day ==> RangeFor(mode, d) == (d, d)
  {
    match mode
    case Week => WeekRangeHoldsDate(d);
    case Month => MonthRangeContains(d);
    case Day =>
  }

  /** Pressing ">>" shows the range that starts the day after the current range ends:
      the arrows walk the calendar with no gap and no overlap. */
  lemma NextRangeFollows(mode: Mode, d: Date)
    ensures RangeFor(mode, StepNext(mode, d)).0 == AddDays(RangeFor(mode, d).1, 1)
  {
    match mode
    case Week => NextWeekFollows(d);
    case Month => NextMonthFollows(d);
    case Day =>
  }

  lemma NextWeekFollows(d: Date)
    ensures WeekRange(AddDays(d, 7)).0 == AddDays(WeekRange(d).1, 1)
  {
    var m := AddDays(d, 7 - Weekday(d));
    ShiftedWeekStart(d, 7);
    assert WeekRange(AddDays(d, 7)).0 == m;
    WeekAfterEnd(d);
    assert AddDays(WeekRange(d).1, 1) == m;
  }

  lemma WeekAfterEnd(d: Date)
    ensures AddDays(WeekRange(d).1, 1) == AddDays(d, 7 - Weekday(d))
  {
    WeekRangeEnd(d);
    AddDaysCompose(d, 6 - Weekday(d), 1);
  }

  lemma WholeWeeks(w: int, n: int)
    requires 0 <= w < 7 && n % 7 == 0
    ensures (w + n) % 7 == w
  {
    var q := n / 7;
    assert n == 7 * q;
    assert w + n == 7 * q + w;
  }

  /** Whole weeks later the weekday is the same. */
  lemma ShiftedWeekday(d: Date, n: int)
    requires n % 7 == 0
    ensures Weekday(AddDays(d, n)) == Weekday(d)
  {
    WeekdayShift(d, n);
    WholeWeeks(Weekday(d), n);
  }

  lemma ShiftedWeekStart(d: Date, n: int)
    requires n % 7 == 0
    ensures WeekRange(AddDays(d, n)).0 == AddDays(d, n - Weekday(d))
  {
    ShiftedWeekday(d, n);
    AddDaysCompose(d, n, -Weekday(d));
  }

  lemma WeekRangeEnd(d: Date)
    ensures WeekRange(d).1 == AddDays(d, 6 - Weekday(d))
  {
    AddDaysCompose(d, -Weekday(d), 6);
  }

  lemma NextMonthFollows(d: Date)
    ensures MonthRange(NextMonthStart(d)).0 == AddDays(MonthRange(d).1, 1)
  {
    MonthRangeShape(d);
    var n := NextMonthStart(d);
    assert NextMonthStart(FirstOfMonth(d)) == n;
    PrevDayIsMinusOne(n);
    AddDaysCancel(n, -1);
    assert MonthRange(n).0 == n;
  }

  /** Pressing "<<" shows the range that ends the day before the current range starts. */
  lemma PrevRangePrecedes(mode: Mode, d: Date)
    ensures RangeFor(mode, StepPrev(mode, d)).1 == AddDays(RangeFor(mode, d).0, -1)
  {
    match mode
    case Week => PrevWeekPrecedes(d);
    case Month => PrevMonthPrecedes(d);
    case Day =>
  }

  lemma PrevWeekPrecedes(d: Date)
    ensures WeekRange(AddDays(d, -7)).1 == AddDays(WeekRange(d).0, -1)
  {
    var prev := AddDays(d, -7);
    ShiftedWeekday(d, -7);
    WeekRangeEnd(prev);
    AddDaysCompose(d, -7, 6 - Weekday(d));
    AddDaysCompose(d, -Weekday(d), -1);
  }

  lemma PrevMonthPrecedes(d: Date)
    ensures MonthRange(PrevMonthStart(d)).1 == AddDays(MonthRange(d).0, -1)
  {
    var p := PrevMonthStart(d);
    MonthRangeShape(p);
    MonthRangeShape(d);
    PrevDayIsMinusOne(FirstOfMonth(d));
  }

  /** In week and day mode ">>" then "<<" comes back to the same date; in month mode it
      comes back to day 1 of the month. */
  lemma NextThenPrev(mode: Mode, d: Date)
    ensures mode != Month ==> StepPrev(mode, StepNext(mode, d)) == d
    ensures mode == Month ==> StepPrev(mode, StepNext(mode, d)) == FirstOfMonth(d)
  {
    match mode
    case Week => AddDaysCancel(d, 7);
    case Month =>
    case Day => AddDaysCancel(d, 1);
  }

  lemma PrevThenNext(mode: Mode, d: Date)
    ensures mode != Month ==> StepNext(mode, StepPrev(mode, d)) == d
    ensures mode == Month ==> StepNext(mode, StepPrev(mode, d)) == FirstOfMonth(d)
  {
    match mode
    case Week => AddDaysCancel(d, -7);
    case Month =>
    case Day => AddDaysCancel(d, -1);
  }

  // ---------------------------------------------------------------------------
  // The widget

  /** OverviewWidget: the mode, the current date, the check state of the three mode
      buttons and the date_from/date_to range it last set on the analytics widget. */
  class OverviewWidget {
    var mode: Mode
    var currentDate: Date
    var weekChecked: bool
    var monthChecked: bool
    var dayChecked: bool
    var dateFrom: Date
    var dateTo: Date

    /** The checked button is the one of the current mode, and only that one. */
    predicate ButtonsMatchMode()
      reads this
    {
      && weekChecked == (mode == Week)
      && monthChecked == (mode == Month)
      && dayChecked == (mode == Day)
    }

    /** The report shows the range of the current mode and date. */
    predicate ShowsCurrentRange()
      reads this
    {
      (dateFrom, dateTo) == RangeFor(mode, currentDate)
    }

    predicate Valid()
      reads this
    {
      ButtonsMatchMode() && ShowsCurrentRange()
    }

    /** __init__ with init_ui: week mode on today's date, the week button checked, the
        week loaded. */
    constructor(today: Date)
      ensures mode == Week && currentDate == today
      ensures Valid()
    {
      mode := Week;
      currentDate := today;
      weekChecked, monthChecked, dayChecked := true, false, false;
      var range := WeekRange(today);
      dateFrom, dateTo := range.0, range.1;
    }

    /** load_data_for_current_mode: hand the range of the mode to the report. */
    method LoadData()
      modifies this
      ensures (dateFrom, dateTo) == RangeFor(mode, currentDate)
      ensures mode == old(mode) && currentDate == old(currentDate)
      ensures weekChecked == old(weekChecked) && monthChecked == old(monthChecked) && dayChecked == old(dayChecked)
    {
      var start, end;
      if mode == Week {
        start, end := WeekRange(currentDate).0, WeekRange(currentDate).1;
      } else if mode == Month {
        start, end := MonthRange(currentDate).0, MonthRange(currentDate).1;
      } else {
        start, end := currentDate, currentDate;
      }
      dateFrom, dateTo := start, end;
    }

    /** on_week_clicked. */
    method OnWeekClicked()
      modifies this
      ensures mode == Week && currentDate == old(currentDate)
      ensures Valid()
    {
      mode := Week;
      weekChecked, monthChecked, dayChecked := true, false, false;
      LoadData();
    }

    /** on_month_clicked. */
    method OnMonthClicked()
      modifies this
      ensures mode == Month && currentDate == old(currentDate)
      ensures Valid()
    {
      mode := Month;
      weekChecked, monthChecked, dayChecked := false, true, false;
      LoadData();
    }

    /** on_day_clicked with open_date_picker: `picked` is the date the dialog returns,
        None when it is cancelled. A picked date becomes the current day; a cancel falls
        back to week mode on the unchanged date. */
    method OnDayClicked(picked: Option<Date>)
      modifies this
      ensures picked.Some? ==> mode == Day && currentDate == picked.value
      ensures picked.None? ==> mode == Week && currentDate == old(currentDate)
      ensures Valid()
    {
      mode := Day;
      weekChecked, monthChecked, dayChecked := false, false, true;
      if picked.Some? {
        currentDate := picked.value;
      } else {
        mode := Week;
        weekChecked, dayChecked, monthChecked := true, false, false;
      }
      LoadData();
    }

    /** on_prev_clicked. */
    method OnPrevClicked()
      modifies this
      ensures mode == old(mode) && currentDate == StepPrev(old(mode), old(currentDate))
      ensures weekChecked == old(weekChecked) && monthChecked == old(monthChecked) && dayChecked == old(dayChecked)
      ensures ShowsCurrentRange()
      ensures old(ButtonsMatchMode()) ==> Valid()
    {
      if mode == Week {
        currentDate := AddDays(currentDate, -7);
      } else if mode == Month {
        var year := currentDate.year;
        var month := currentDate.month - 1;
        if month < 1 {
          month := 12;
          year := year - 1;
        }
        currentDate := YMD(year, month, 1);
      } else {
        currentDate := AddDays(currentDate, -1);
      }
      LoadData();
    }

    /** on_next_clicked. */
    method OnNextClicked()
      modifies this
      ensures mode == old(mode) && currentDate == StepNext(old(mode), old(currentDate))
      ensures weekChecked == old(weekChecked) && monthChecked == old(monthChecked) && dayChecked == old(dayChecked)
      ensures ShowsCurrentRange()
      ensures old(ButtonsMatchMode()) ==> Valid()
    {
      if mode == Week {
        currentDate := AddDays(currentDate, 7);
      } else if mode == Month {
        var year := currentDate.year;
        var month := currentDate.month + 1;
        if month > 12 {
          month := 1;
          year := year + 1;
        }
        currentDate := YMD(year, month, 1);
      } else {
        currentDate := AddDays(currentDate, 1);
      }
      LoadData();
    }
  }

  /** Exactly one of the three mode buttons is checked whenever they match the mode. */
  lemma ExactlyOneChecked(mode: Mode, week: bool, month: bool, day: bool)
    requires week == (mode == Week) && month == (mode == Month) && day == (mode == Day)
    ensures (if week then 1 else 0) + (if month then 1 else 0) + (if day then 1 else 0) == 1
  {
  }
}
