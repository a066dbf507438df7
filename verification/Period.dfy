/** Closed period tokens and the calendar windows they name on a given reference day. */
module Period {
  import opened Base
  import opened Calendar

  datatype PeriodToken =
    | LastNDays | Today | Yesterday
    | Last7Days | Last14Days | Last30Days
    | ThisWeek | LastWeek | ThisMonth | LastMonth

  datatype DateWindow = DateWindow(from: string, to: string, token: PeriodToken, days: Option<int>)

  const MAX_PERIOD_DAYS := 365

  /** `getUTCDay` with Sunday moved to 7: 1 is Monday. */
  function IsoWeekday(iso: string): int
    requires IsIsoDate(iso)
  {
    var d := (DayMs(iso) / DAY_MS + 4) % 7;
    if d == 0 then 7 else d
  }

  /** `Math.trunc`. */
  function Trunc(x: real): int {
    if x >= 0.0 then x.Floor else -(-x).Floor
  }

  /** How many days `LAST_N_DAYS` means: the seller's count, truncated and clamped, or seven. */
  function ClampedDays(days: Option<real>): (n: int)
    ensures 1 <= n <= MAX_PERIOD_DAYS
  {
    var n := Trunc(days.GetOr(7.0));
    var capped := if n < MAX_PERIOD_DAYS then n else MAX_PERIOD_DAYS;
    if capped > 1 then capped else 1
  }

  function WindowOf(token: PeriodToken, today: string, days: Option<real>): (w: DateWindow)
    requires IsIsoDate(today)
  {
    var t := DayMs(today);
    match token
    case LastNDays =>
      var n := ClampedDays(days);
      DateWindow(ToIso(t - (n - 1) * DAY_MS), today, token, Some(n))
    case Today => DateWindow(today, today, token, None)
    case Yesterday =>
      var y := ToIso(t - DAY_MS);
      DateWindow(y, y, token, None)
    case Last7Days => DateWindow(ToIso(t - 6 * DAY_MS), today, token, None)
    case Last14Days => DateWindow(ToIso(t - 13 * DAY_MS), today, token, None)
    case Last30Days => DateWindow(ToIso(t - 29 * DAY_MS), today, token, None)
    case ThisWeek =>
      var monday := t - (IsoWeekday(today) - 1) * DAY_MS;
      DateWindow(ToIso(monday), today, token, None)
    case LastWeek =>
      var thisMonday := t - (IsoWeekday(today) - 1) * DAY_MS;
      DateWindow(ToIso(thisMonday - 7 * DAY_MS), ToIso(thisMonday - DAY_MS), token, None)
    case ThisMonth => DateWindow(today[..7] + "-01", today, token, None)
    case LastMonth =>
      FirstOfMonth(today);
      var first := DayMs(today[..7] + "-01");
      var lastDay := ToIso(first - DAY_MS);
      DateWindow(First(lastDay, 7) + "-01", lastDay, token, None)
  }

  /** The trailing-day count the overview read is made with. */
  function OverviewDaysOf(token: Option<PeriodToken>, days: Option<real>): int {
    if token == Some(LastNDays) && days.Some? then
      if days.value <= 7.0 then 7 else if days.value <= 14.0 then 14 else 30
    else match token
      case Some(Last14Days) | Some(ThisWeek) | Some(LastWeek) => 14
      case Some(Last30Days) | Some(ThisMonth) | Some(LastMonth) => 30
      case _ => 7
  }

  /** `Math.round(ms / DAY_MS)`; the milliseconds are whole days already. */
  function DaysBetween(from: string, to: string): int
    requires IsIsoDate(from) && IsIsoDate(to)
  {
    (DayMs(to) - DayMs(from)) / DAY_MS
  }

  /* ---- what each token means, said without strings or milliseconds ---- */

  /** Weeks run Monday to Sunday; 1970-01-01 was a Thursday. */
  function WeekIndex(day: int): int { (day + 3) / 7 }

  function MonthIndex(a: Date): int { 12 * a.y + a.m }

  predicate Denotes(token: PeriodToken, n: int, today: Date, row: Date)
    requires ValidDate(today) && ValidDate(row)
  {
    var t, r := DayOf(today), DayOf(row);
    match token
    case LastNDays => t - n < r <= t
    case Today => r == t
    case Yesterday => r == t - 1
    case Last7Days => t - 7 < r <= t
    case Last14Days => t - 14 < r <= t
    case Last30Days => t - 30 < r <= t
    case ThisWeek => WeekIndex(r) == WeekIndex(t) && r <= t
    case LastWeek => WeekIndex(r) == WeekIndex(t) - 1
    case ThisMonth => MonthIndex(row) == MonthIndex(today) && r <= t
    case LastMonth => MonthIndex(row) == MonthIndex(today) - 1
  }

  /** The first day of the month `today` lies in, as a string and as a day number. */
  lemma FirstOfMonth(today: string)
    requires IsIsoDate(today)
    ensures |today| == 10 && IsIsoDate(today[..7] + "-01")
    ensures DateIn(today[..7] + "-01") == Date(DateIn(today).y, DateIn(today).m, 1)
    ensures DayIn(today[..7] + "-01") == DayIn(today) - (DateIn(today).d - 1)
  {
    hide ParseIso, DateOf, YearOf, LexLess, ReadNumber;
    var a := DateIn(today);
    var first := Date(a.y, a.m, 1);
    SevenOf(today);
    assert today[..7] + "-01" == IsoDateText(first);
    ParseText(first);
    assert DayOf(first) == DayOf(a) - (a.d - 1);
  }

  lemma SevenOf(today: string)
    requires IsIsoDate(today)
    ensures |today| == 10
    ensures today[..7] + "-01" == IsoDateText(Date(DateIn(today).y, DateIn(today).m, 1))
  {
    hide ParseIso, DateOf, ReadNumber;
    var a := DateIn(today);
    TextParse(today);
    assert Pad(1, 2) == "01" by { assert Pad(0, 1) == "0"; }
    var stem := Pad(a.y, 4) + "-" + Pad(a.m, 2);
    assert today == stem + ("-" + Pad(a.d, 2));
    assert today[..7] == stem;
  }

  /** A row is in the same or the previous month exactly when its day number says so. */
  lemma MonthSpan(today: Date, row: Date)
    requires ValidDate(today) && ValidDate(row)
    ensures MonthIndex(row) < MonthIndex(today) <==> DayOf(row) < DayOf(Date(today.y, today.m, 1))
  {
    DayOrder(row, Date(today.y, today.m, 1));
  }

  /** The day before the first of a month is the last day of the month before. */
  lemma LastOfPreviousMonth(first: Date)
    requires ValidDate(first) && first.d == 1
    ensures var before := DateOf(DayOf(first) - 1);
      before == if first.m == 1 then Date(first.y - 1, 12, 31)
                else Date(first.y, first.m - 1, DaysInMonth(first.y, first.m - 1))
  {
    hide DateOf, DayOf, DaysInMonth;
    var before := DayBeforeFirst(first);
    LastDayNumber(first);
    DateOfDayOf(before);
  }

  function DayBeforeFirst(first: Date): Date {
    if first.m == 1 then Date(first.y - 1, 12, 31) else Date(first.y, first.m - 1, DaysInMonth(first.y, first.m - 1))
  }

  lemma LastDayNumber(first: Date)
    requires ValidDate(first) && first.d == 1
    ensures ValidDate(DayBeforeFirst(first)) && DayOf(DayBeforeFirst(first)) == DayOf(first) - 1
  {
    if first.m == 1 {
      hide DayFromYear, IsLeap;
      YearStep(first.y - 1);
      WholeYear(first.y - 1);
    }
  }

  lemma MondayOf(today: string)
    requires IsIsoDate(today)
    ensures WeekIndex(DayIn(today)) * 7 - 3 == DayIn(today) - (IsoWeekday(today) - 1)
  {
    hide ParseIso, DayIn;
    var t := DayIn(today);
    WholeDays(t);
    MondayFirst(t);
    SevenDays(t + 3);
  }

  lemma WholeDays(t: int)
    ensures t * DAY_MS / DAY_MS == t
  {
  }

  lemma MondayFirst(t: int)
    ensures (if (t + 4) % 7 == 0 then 7 else (t + 4) % 7) - 1 == (t + 3) % 7
  {
  }

  lemma SevenDays(n: int)
    ensures n / 7 * 7 == n - n % 7
  {
  }

  /**
   * Main result. For every token and every reference day, comparing a row's date with the window's two
   * bounds AS STRINGS selects exactly the rows the token denotes: the clamped number of trailing days,
   * the Monday-to-Sunday week, the whole previous calendar month.
   */
  lemma WindowSelects(token: PeriodToken, today: string, days: Option<real>, row: string)
    requires IsIsoDate(today) && IsIsoDate(row)
    ensures var w := WindowOf(token, today, days);
      LexLeq(w.from, row) && LexLeq(row, w.to) <==> Denotes(token, ClampedDays(days), DateIn(today), DateIn(row))
  {
    hide ParseIso, IsoDateText, DayOf, DateOf, LexLess, First, IsoWeekday;
    var t, n := DayIn(today), ClampedDays(days);
    IsoOrder(row, today);
    IsoOrder(today, row);
    DayBeforeEnd(today);
    match token {
      case LastNDays => TrailingBound(today, n - 1, row);
      case Today =>
      case Yesterday => TrailingBound(today, 1, row);
      case Last7Days => TrailingBound(today, 6, row);
      case Last14Days => TrailingBound(today, 13, row);
      case Last30Days => TrailingBound(today, 29, row);
      case ThisWeek =>
        MondayOf(today);
        TrailingBound(today, IsoWeekday(today) - 1, row);
      case LastWeek =>
        MondayOf(today);
        TrailingBound(today, IsoWeekday(today) + 6, row);
        TrailingBound(today, IsoWeekday(today), row);
      case ThisMonth =>
        FirstOfMonth(today);
        IsoOrder(row, today[..7] + "-01");
        MonthSpan(DateIn(today), DateIn(row));
        MonthSpan(DateIn(row), DateIn(today));
        DayOrder(Date(DateIn(row).y, DateIn(row).m, 1), DateIn(row));
      case LastMonth => LastMonthSelects(today, row);
    }
  }

  lemma DayBeforeEnd(today: string)
    requires IsIsoDate(today)
    ensures DayFromYear(0) <= DayIn(today) < EndOfYears()
  {
    DateOfDayOf(DateIn(today));
    InFourDigitYears(DayIn(today));
  }

  lemma TrailingBound(today: string, back: nat, row: string)
    requires IsIsoDate(today) && IsIsoDate(row)
    ensures LexLeq(ToIso(DayMs(today) - back * DAY_MS), row) <==> DayIn(today) - back <= DayIn(row)
    ensures LexLeq(row, ToIso(DayMs(today) - back * DAY_MS)) <==> DayIn(row) <= DayIn(today) - back
  {
    hide ParseIso, IsoDateText, DayOf, DateOf, LexLess;
    DayBeforeEnd(today);
    assert DayMs(today) - back * DAY_MS == (DayIn(today) - back) * DAY_MS;
    IsoBound(DayIn(today) - back, row);
  }

  lemma LastMonthSelects(today: string, row: string)
    requires IsIsoDate(today) && IsIsoDate(row)
    ensures var w := WindowOf(LastMonth, today, None);
      LexLeq(w.from, row) && LexLeq(row, w.to) <==> MonthIndex(DateIn(row)) == MonthIndex(DateIn(today)) - 1
  {
    hide ParseIso, IsoDateText, DayOf, DateOf, LexLess;
    var w := WindowOf(LastMonth, today, None);
    var a := DateIn(today);
    FirstOfMonth(today);
    var first := today[..7] + "-01";
    DayBeforeEnd(first);
    TrailingBound(first, 1, row);
    assert w.to == ToIso(DayMs(first) - 1 * DAY_MS);
    LastOfPreviousMonth(DateIn(first));
    MonthSpan(a, DateIn(row));
    if a.y == 0 && a.m == 1 {
      assert DayIn(row) >= DayOf(DateIn(first)) by { DayOrder(DateIn(row), DateIn(first)); }
    } else {
      var before := DateOf(DayIn(first) - 1);
      assert (DayMs(first) - 1 * DAY_MS) / DAY_MS == DayIn(first) - 1;
      ParseText(before);
      assert w.to == IsoDateText(before);
      FirstOfMonth(w.to);
      assert First(w.to, 7) == w.to[..7];
      IsoOrder(row, w.from);
      MonthSpan(before, DateIn(row));
    }
  }

  /** Adding whole days and measuring them again agree, while the result has a four-digit year. */
  lemma DaysBetweenInverts(from: string, k: int)
    requires IsIsoDate(from) && DayFromYear(0) <= DayIn(from) + k < EndOfYears()
    ensures IsIsoDate(ToIso(DayMs(from) + k * DAY_MS))
    ensures DaysBetween(from, ToIso(DayMs(from) + k * DAY_MS)) == k
  {
    hide ParseIso, DayOf, ToIso;
    assert DayMs(from) + k * DAY_MS == (DayIn(from) + k) * DAY_MS;
    DayRoundTrip(DayIn(from) + k);
  }

  /**
   * Last week ends on the day before this week's Monday, and last month on the day before this month's
   * first, wherever the day before still has a four-digit year.
   */
  lemma WindowsAbut(today: string)
    requires IsIsoDate(today)
    ensures DayFromYear(0) <= DayIn(today) - IsoWeekday(today) ==>
      var last, current := WindowOf(LastWeek, today, None), WindowOf(ThisWeek, today, None);
      IsIsoDate(last.to) && IsIsoDate(current.from) && DaysBetween(last.to, current.from) == 1
        && IsoWeekday(current.from) == 1
    ensures DateIn(today).y > 0 || DateIn(today).m > 1 ==>
      var last, current := WindowOf(LastMonth, today, None), WindowOf(ThisMonth, today, None);
      IsIsoDate(last.to) && IsIsoDate(current.from) && DaysBetween(last.to, current.from) == 1
  {
    if DayFromYear(0) <= DayIn(today) - IsoWeekday(today) { WeeksAbut(today); }
    if DateIn(today).y > 0 || DateIn(today).m > 1 { MonthsAbut(today); }
  }

  /** Two days in a row, printed and read back. */
  lemma NextDay(day: int)
    requires DayFromYear(0) < day < EndOfYears()
    ensures var before, after := ToIso(day * DAY_MS - DAY_MS), ToIso(day * DAY_MS);
      && IsIsoDate(before) && IsIsoDate(after) && DayMs(after) == day * DAY_MS && DaysBetween(before, after) == 1
  {
    hide ParseIso, DayOf, ToIso, DateOf, DayFromYear;
    assert day * DAY_MS - DAY_MS == (day - 1) * DAY_MS;
    DayRoundTrip(day);
    DayRoundTrip(day - 1);
  }

  lemma WeeksAbut(today: string)
    requires IsIsoDate(today) && DayFromYear(0) <= DayIn(today) - IsoWeekday(today)
    ensures var last, current := WindowOf(LastWeek, today, None), WindowOf(ThisWeek, today, None);
      IsIsoDate(last.to) && IsIsoDate(current.from) && DaysBetween(last.to, current.from) == 1
        && IsoWeekday(current.from) == 1
  {
    var monday := ThisMonday(today);
    hide *;
    WeekWindows(today, monday);
    NextDay(monday);
    MondayIsOne(WeekIndex(DayIn(today)), ToIso(monday * DAY_MS));
  }

  lemma WeekWindows(today: string, monday: int)
    requires IsIsoDate(today) && DayMs(today) - (IsoWeekday(today) - 1) * DAY_MS == monday * DAY_MS
    ensures WindowOf(LastWeek, today, None).to == ToIso(monday * DAY_MS - DAY_MS)
    ensures WindowOf(ThisWeek, today, None).from == ToIso(monday * DAY_MS)
  {
    hide ParseIso, DayMs, ToIso, IsoWeekday;
  }

  lemma ThisMonday(today: string) returns (monday: int)
    requires IsIsoDate(today)
    ensures monday == DayIn(today) - IsoWeekday(today) + 1 == WeekIndex(DayIn(today)) * 7 - 3
    ensures DayMs(today) - (IsoWeekday(today) - 1) * DAY_MS == monday * DAY_MS
    ensures monday < EndOfYears()
  {
    monday := DayIn(today) - IsoWeekday(today) + 1;
    MondayOf(today);
    DayBeforeEnd(today);
    hide ParseIso, DayIn, WeekIndex, EndOfYears;
  }

  lemma MondayIsOne(week: int, iso: string)
    requires IsIsoDate(iso) && DayMs(iso) == (week * 7 - 3) * DAY_MS
    ensures IsoWeekday(iso) == 1
  {
    hide ParseIso, DayIn, DayMs;
    WholeDays(week * 7 - 3);
  }

  lemma MonthsAbut(today: string)
    requires IsIsoDate(today) && (DateIn(today).y > 0 || DateIn(today).m > 1)
    ensures var last, current := WindowOf(LastMonth, today, None), WindowOf(ThisMonth, today, None);
      IsIsoDate(last.to) && IsIsoDate(current.from) && DaysBetween(last.to, current.from) == 1
  {
    hide ParseIso, DayOf, ToIso, DateOf, DayFromYear;
    FirstOfMonth(today);
    var first := today[..7] + "-01";
    DayBeforeEnd(first);
    LastOfPreviousMonth(DateIn(first));
    assert DayMs(first) - DAY_MS == (DayIn(first) - 1) * DAY_MS;
    InFourDigitYears(DayIn(first) - 1);
    DayRoundTrip(DayIn(first) - 1);
  }

  /* ---- does the overview read reach the whole window? ---- */

  ghost predicate Covered(token: PeriodToken, today: Date, days: Option<real>)
    requires ValidDate(today)
  {
    forall row: Date | ValidDate(row) && Denotes(token, ClampedDays(days), today, row) ::
      DayOf(today) - OverviewDaysOf(Some(token), days) < DayOf(row) <= DayOf(today)
  }

  /** The three ways a window outruns its overview. */
  predicate FitsOverview(token: PeriodToken, today: Date, days: Option<real>)
    requires ValidDate(today)
  {
    match token
    case LastNDays => ClampedDays(days) <= 30
    case ThisMonth => today.d <= 30
    case LastMonth => today.d + LengthOfPreviousMonth(today) <= 30
    case _ => true
  }

  function LengthOfPreviousMonth(a: Date): int {
    if a.m == 1 then 31 else DaysInMonth(a.y, a.m - 1)
  }

  /**
   * The overview covers every day and week token and up to thirty trailing days. It misses the first day
   * of a month on its 31st, and nearly always misses part of the previous month.
   */
  lemma OverviewCovers(token: PeriodToken, today: Date, days: Option<real>)
    requires ValidDate(today)
    ensures Covered(token, today, days) <==> FitsOverview(token, today, days)
  {
    hide DateOf, YearOf, DayFromYear;
    var first := Date(today.y, today.m, 1);
    LastOfPreviousMonth(first);
    var before := DateOf(DayOf(first) - 1);
    var earliest := Date(before.y, before.m, 1);
    if FitsOverview(token, today, days) {
      forall row: Date | ValidDate(row) && Denotes(token, ClampedDays(days), today, row)
        ensures DayOf(today) - OverviewDaysOf(Some(token), days) < DayOf(row) <= DayOf(today)
      {
        MonthSpan(today, row);
        MonthSpan(before, row);
      }
    } else {
      var n := ClampedDays(days);
      var row := match token case LastNDays => DateOf(DayOf(today) - n + 1) case ThisMonth => first case _ => earliest;
      assert Denotes(token, n, today, row);
    }
  }
}
