/**
 * The month grid shared by the streamer calendar and the home calendar: 42 cells, six
 * weeks of seven, starting on the Sunday on or before the first of the month. The
 * cells are built by stepping a date cursor one day at a time; `GridDay` says in closed
 * form which date each cell holds.
 */
module Calendar {
  import opened Dates

  /** `firstDay.getDay()`: how many cells of the previous month lead the grid. */
  function Lead(y: int, m: int): (k: int)
    requires 1 <= m <= 12
    ensures 0 <= k < 7
  {
    DayOfWeek(Date(y, m, 1))
  }

  /** The date in cell `i`: the tail of the previous month, the month itself, then the head of the next month. */
  function GridDay(y: int, m: int, i: int): (d: Date)
    requires 1 <= m <= 12 && 0 <= i < 42
    ensures ValidDate(d)
  {
    var lead := Lead(y, m);
    var dim := DaysInMonth(y, m);
    if i < lead then
      var pm := PrevMonth(y, m);
      Date(pm.0, pm.1, DaysInMonth(pm.0, pm.1) - lead + i + 1)
    else if i < lead + dim then Date(y, m, i - lead + 1)
    else
      var nm := NextMonth(y, m);
      Date(nm.0, nm.1, i - lead - dim + 1)
  }

  /** `startDate`: the first of the month moved back by its weekday. */
  function GridStart(y: int, m: int): (d: Date)
    requires 1 <= m <= 12
    ensures ValidDate(d) && d == GridDay(y, m, 0)
  {
    var lead := Lead(y, m);
    if lead == 0 then Date(y, m, 1)
    else
      var pm := PrevMonth(y, m);
      Date(pm.0, pm.1, DaysInMonth(pm.0, pm.1) - lead + 1)
  }

  /** Consecutive cells hold consecutive days. */
  lemma GridNext(y: int, m: int, i: int)
    requires 1 <= m <= 12 && 0 <= i < 41
    ensures GridDay(y, m, i + 1) == NextDay(GridDay(y, m, i))
  {
  }

  /** Cell `i` is `i - Lead` days after the first of the month. */
  lemma {:induction false} GridDayNumber(y: int, m: int, i: int)
    requires 1 <= m <= 12 && 0 <= i < 42
    ensures DayNumber(GridDay(y, m, i)) == DayNumber(Date(y, m, 1)) - Lead(y, m) + i
    decreases if i < Lead(y, m) then Lead(y, m) - i else i - Lead(y, m)
  {
    var lead := Lead(y, m);
    if i < lead {
      GridDayNumber(y, m, i + 1);
      GridNext(y, m, i);
      NextDayNumber(GridDay(y, m, i));
    } else if i > lead {
      GridDayNumber(y, m, i - 1);
      GridNext(y, m, i - 1);
      NextDayNumber(GridDay(y, m, i - 1));
    }
  }

  lemma ModAlign(x: int, i: int)
    ensures (x - x % 7 + i) % 7 == i % 7
  {
    var q := x / 7;
    assert x - x % 7 == 7 * q;
  }

  /** Cell `i` falls on weekday `i % 7`: column 0 is Sunday and column 6 Saturday. */
  lemma GridWeekday(y: int, m: int, i: int)
    requires 1 <= m <= 12 && 0 <= i < 42
    ensures DayOfWeek(GridDay(y, m, i)) == i % 7
  {
    GridDayNumber(y, m, i);
    var x := DayNumber(Date(y, m, 1)) + 1;
    assert Lead(y, m) == x % 7;
    assert DayOfWeek(GridDay(y, m, i)) == (x - x % 7 + i) % 7;
    ModAlign(x, i);
  }

  /** The grid starts on the Sunday on or before the first of the month. */
  lemma GridStartsOnSunday(y: int, m: int)
    requires 1 <= m <= 12
    ensures DayOfWeek(GridStart(y, m)) == 0
    ensures 0 <= DayNumber(Date(y, m, 1)) - DayNumber(GridStart(y, m)) < 7
  {
    GridWeekday(y, m, 0);
    GridDayNumber(y, m, 0);
  }

  /** Every day of the month has a cell, the first of them among the first seven. */
  lemma GridCoversMonth(y: int, m: int, d: int)
    requires 1 <= m <= 12 && 1 <= d <= DaysInMonth(y, m)
    ensures 0 <= Lead(y, m) + d - 1 < 42
    ensures GridDay(y, m, Lead(y, m) + d - 1) == Date(y, m, d)
    ensures d == 1 ==> Lead(y, m) < 7
  {
  }

  /** `getDaysInMonth`: 42 dates from the grid start, each the day after the one before. */
  method GetDaysInMonth(y: int, m: int) returns (days: seq<Date>)
    requires 1 <= m <= 12
    ensures |days| == 42
    ensures forall i | 0 <= i < 42 :: days[i] == GridDay(y, m, i)
    ensures days[0] == GridStart(y, m)
    ensures forall i | 0 <= i < 41 :: ValidDate(days[i]) && days[i + 1] == NextDay(days[i])
  {
    var cursor := GridStart(y, m);
    days := [];
    for i := 0 to 42
      invariant |days| == i
      invariant forall j | 0 <= j < i :: days[j] == GridDay(y, m, j)
      invariant i < 42 ==> cursor == GridDay(y, m, i)
    {
      days := days + [cursor];
      if i < 41 {
        GridNext(y, m, i);
      }
      cursor := NextDay(cursor);
    }
    forall i | 0 <= i < 41 ensures days[i + 1] == NextDay(days[i]) {
      GridNext(y, m, i);
    }
  }

  /** `isCurrentMonth`: the cell's month number equals the shown month's; the year is not compared. */
  predicate IsCurrentMonth(d: Date, current: Date) {
    d.month == current.month
  }

  /** Within the grid, exactly the cells of the month itself count as the current month. */
  lemma GridCurrentMonth(y: int, m: int, i: int, current: Date)
    requires 1 <= m <= 12 && 0 <= i < 42 && current.month == m
    ensures IsCurrentMonth(GridDay(y, m, i), current) <==> Lead(y, m) <= i < Lead(y, m) + DaysInMonth(y, m)
  {
  }

  datatype Color = Gray300 | Gray700 | Red500 | Blue500

  /** The weekday header's colour: Sunday red, Saturday blue. */
  function HeaderColor(column: int): (c: Color)
    ensures c == Red500 <==> column == 0
    ensures c == Blue500 <==> column == 6
    ensures c.Red500? || c.Blue500? || c.Gray700?
  {
    if column == 0 then Red500 else if column == 6 then Blue500 else Gray700
  }

  /** The day number's colour in cell `index`: grey outside the month, plain today, else by column. */
  function CellColor(index: int, inMonth: bool, isToday: bool): (c: Color)
    ensures !inMonth <==> c == Gray300
    ensures inMonth && !isToday ==> c == HeaderColor(index % 7)
    ensures inMonth && isToday ==> c == Gray700
  {
    if !inMonth then Gray300
    else if isToday then Gray700
    else if index % 7 == 0 then Red500
    else if index % 7 == 6 then Blue500
    else Gray700
  }

  /** In the grid, the month's Sundays other than today are red and its Saturdays blue. */
  lemma WeekendColors(y: int, m: int, i: int, isToday: bool)
    requires 1 <= m <= 12 && 0 <= i < 42
    requires Lead(y, m) <= i < Lead(y, m) + DaysInMonth(y, m) && !isToday
    ensures CellColor(i, true, isToday) == Red500 <==> DayOfWeek(GridDay(y, m, i)) == 0
    ensures CellColor(i, true, isToday) == Blue500 <==> DayOfWeek(GridDay(y, m, i)) == 6
  {
    GridWeekday(y, m, i);
  }

  /** The last of the month, and `endDate`: that day moved forward to its Saturday. */
  function LastOfMonth(y: int, m: int): (d: Date)
    requires 1 <= m <= 12
    ensures ValidDate(d)
  {
    Date(y, m, DaysInMonth(y, m))
  }

  function GridEnd(y: int, m: int): (d: Date)
    requires 1 <= m <= 12
    ensures ValidDate(d)
  {
    var k := 6 - DayOfWeek(LastOfMonth(y, m));
    if k == 0 then LastOfMonth(y, m)
    else
      var nm := NextMonth(y, m);
      Date(nm.0, nm.1, k)
  }

  /**
   * The fetch range covers whole weeks: it starts on the Sunday on or before the first
   * of the month, ends on the Saturday on or after its last day, and lies inside the
   * 42-cell grid.
   */
  lemma FetchRangeInGrid(y: int, m: int)
    requires 1 <= m <= 12
    ensures DayOfWeek(GridStart(y, m)) == 0 && DayOfWeek(GridEnd(y, m)) == 6
    ensures 0 <= DayNumber(GridEnd(y, m)) - DayNumber(LastOfMonth(y, m)) < 7
    ensures exists j | 0 <= j < 42 :: GridEnd(y, m) == GridDay(y, m, j)
  {
    GridStartsOnSunday(y, m);
    var t := Lead(y, m) + DaysInMonth(y, m) - 1;
    var j := GridEndIndex(y, m);
    GridWeekday(y, m, j);
    GridDayNumber(y, m, j);
    GridDayNumber(y, m, t);
  }

  /** The end of the fetch range is the cell closing the last day's week. */
  lemma GridEndIndex(y: int, m: int) returns (j: int)
    requires 1 <= m <= 12
    ensures var t := Lead(y, m) + DaysInMonth(y, m) - 1;
      0 <= t <= j < 42 && j - t < 7 && j % 7 == 6 && GridEnd(y, m) == GridDay(y, m, j)
  {
    var t := Lead(y, m) + DaysInMonth(y, m) - 1;
    assert GridDay(y, m, t) == LastOfMonth(y, m);
    GridWeekday(y, m, t);
    j := t + 6 - t % 7;
    assert j == 7 * (t / 7) + 6;
  }
}
