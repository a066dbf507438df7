/**
 * The proleptic Gregorian calendar as ECMAScript's `Date` computes it: a day number counted from
 * 1970-01-01, and the `YYYY-MM-DD` strings it is read from and printed to.
 */
module Calendar {
  import opened Base

  const DAY_MS := 86_400_000

  /* ---- years, months, days ---- */

  datatype Date = Date(y: int, m: int, d: int)

  /** Leap years of Appendix C of RFC 3339. */
  predicate IsLeap(y: int) {
    y % 4 == 0 && (y % 100 != 0 || y % 400 == 0)
  }

  function DaysInYear(y: int): int {
    if IsLeap(y) then 366 else 365
  }

  function DaysInMonth(y: int, m: int): int {
    if m == 2 then (if IsLeap(y) then 29 else 28)
    else if m == 4 || m == 6 || m == 9 || m == 11 then 30
    else 31
  }

  predicate ValidDate(a: Date) {
    1 <= a.m <= 12 && 1 <= a.d <= DaysInMonth(a.y, a.m)
  }

  /** The day number of January 1st: 365 days a year, plus the leap days gone by. */
  function DayFromYear(y: int): int {
    365 * (y - 1970) + (y - 1969) / 4 - (y - 1901) / 100 + (y - 1601) / 400
  }

  function DaysBeforeMonth(y: int, m: int): int
    requires 1 <= m
    decreases m
  {
    if m == 1 then 0 else DaysBeforeMonth(y, m - 1) + DaysInMonth(y, m - 1)
  }

  function DayOf(a: Date): int
    requires ValidDate(a)
  {
    DayFromYear(a.y) + DaysBeforeMonth(a.y, a.m) + a.d - 1
  }

  lemma YearStep(y: int)
    ensures DayFromYear(y + 1) == DayFromYear(y) + DaysInYear(y)
  {
    FourYears(y);
    Centuries(y);
    FourCenturies(y);
    LeapRule(y);
  }

  /** One step of a quotient: it moves exactly past a multiple. */
  lemma FourYears(y: int)
    ensures (y - 1968) / 4 == (y - 1969) / 4 + if y % 4 == 0 then 1 else 0
  {
  }

  lemma Centuries(y: int)
    ensures (y - 1900) / 100 == (y - 1901) / 100 + if y % 100 == 0 then 1 else 0
  {
  }

  lemma FourCenturies(y: int)
    ensures (y - 1600) / 400 == (y - 1601) / 400 + if y % 400 == 0 then 1 else 0
  {
  }

  /** The leap rule counts a fourth year, takes a century back and gives a fourth century again. */
  lemma LeapRule(y: int)
    ensures (if IsLeap(y) then 1 else 0)
         == (if y % 4 == 0 then 1 else 0) - (if y % 100 == 0 then 1 else 0) + if y % 400 == 0 then 1 else 0
  {
    if y % 400 == 0 {
      assert y == 100 * (4 * (y / 400)) && y == 4 * (100 * (y / 400));
    } else if y % 100 == 0 {
      assert y == 4 * (25 * (y / 100));
    }
  }

  lemma {:induction false} YearsInOrder(y: int, z: int)
    requires y < z
    ensures DayFromYear(y + 1) <= DayFromYear(z)
    decreases z - y
  {
    if y + 1 < z {
      YearsInOrder(y, z - 1);
      YearStep(z - 1);
    }
  }

  lemma WholeYear(y: int)
    ensures DaysBeforeMonth(y, 12) + DaysInMonth(y, 12) == DaysInYear(y)
  {
    assert DaysBeforeMonth(y, 4) == DaysInMonth(y, 2) + 62;
    assert DaysBeforeMonth(y, 8) == DaysInMonth(y, 2) + 184;
  }

  lemma {:induction false} MonthsInOrder(y: int, m: int, n: int)
    requires 1 <= m < n <= 12
    ensures DaysBeforeMonth(y, m) + DaysInMonth(y, m) <= DaysBeforeMonth(y, n)
    ensures 0 <= DaysBeforeMonth(y, m)
    decreases n
  {
    if m + 1 < n { MonthsInOrder(y, m, n - 1); }
    if 1 < m { MonthsInOrder(y, m - 1, m); }
  }

  /** A date lies inside its own year. */
  lemma DayWithinYear(a: Date)
    requires ValidDate(a)
    ensures DayFromYear(a.y) <= DayOf(a) < DayFromYear(a.y + 1)
  {
    YearStep(a.y);
    WholeYear(a.y);
    if a.m < 12 { MonthsInOrder(a.y, a.m, 12); }
    if 1 < a.m { MonthsInOrder(a.y, 1, a.m); }
  }

  /** Calendar order, field by field. */
  predicate Before(a: Date, b: Date) {
    a.y < b.y || (a.y == b.y && (a.m < b.m || (a.m == b.m && a.d < b.d)))
  }

  /** Day numbers order dates exactly as the calendar does, so no two dates share one. */
  lemma DayOrder(a: Date, b: Date)
    requires ValidDate(a) && ValidDate(b)
    ensures DayOf(a) < DayOf(b) <==> Before(a, b)
    ensures DayOf(a) == DayOf(b) ==> a == b
  {
    Earlier(a, b);
    Earlier(b, a);
  }

  lemma Earlier(a: Date, b: Date)
    requires ValidDate(a) && ValidDate(b)
    ensures Before(a, b) ==> DayOf(a) < DayOf(b)
  {
    DayWithinYear(a);
    DayWithinYear(b);
    if a.y < b.y { YearsInOrder(a.y, b.y); }
    else if a.y == b.y && a.m < b.m { MonthsInOrder(a.y, a.m, b.m); }
  }

  /* ---- from a day number back to a date ---- */

  /** The largest year whose January 1st is not after `day`. */
  function YearOf(day: int): (y: int)
    ensures DayFromYear(y) <= day < DayFromYear(y + 1)
  {
    assert day < 0 ==> DayFromYear(1970 + day) <= day;
    YearFrom(day, if day < 0 then 1970 + day else 1970)
  }

  function YearFrom(day: int, y: int): (z: int)
    requires DayFromYear(y) <= day
    ensures DayFromYear(z) <= day < DayFromYear(z + 1)
    decreases day - DayFromYear(y)
  {
    YearStep(y);
    if day < DayFromYear(y + 1) then y else YearFrom(day, y + 1)
  }

  /** The month holding the `rest`-th day of the year, searched from `m`. */
  function MonthFrom(y: int, m: int, rest: int): (n: int)
    requires 1 <= m <= 12 && DaysBeforeMonth(y, m) <= rest < DaysInYear(y)
    ensures 1 <= n <= 12 && DaysBeforeMonth(y, n) <= rest < DaysBeforeMonth(y, n) + DaysInMonth(y, n)
    decreases 12 - m
  {
    WholeYear(y);
    if m == 12 || rest < DaysBeforeMonth(y, m + 1) then m else MonthFrom(y, m + 1, rest)
  }

  function DateOf(day: int): (a: Date)
    ensures ValidDate(a) && DayOf(a) == day
  {
    var y := YearOf(day);
    YearStep(y);
    var m := MonthFrom(y, 1, day - DayFromYear(y));
    Date(y, m, day - DayFromYear(y) - DaysBeforeMonth(y, m) + 1)
  }

  lemma DateOfDayOf(a: Date)
    requires ValidDate(a)
    ensures DateOf(DayOf(a)) == a
  {
    DayOrder(DateOf(DayOf(a)), a);
  }

  /* ---- strings ---- */

  /** JavaScript's `<` on strings: by code unit, a proper prefix first. */
  predicate LexLess(a: string, b: string) {
    b != "" && (a == "" || a[0] < b[0] || (a[0] == b[0] && LexLess(a[1..], b[1..])))
  }

  predicate LexLeq(a: string, b: string) {
    !LexLess(b, a)
  }

  function DigitChar(n: int): (c: char)
    requires 0 <= n <= 9
  {
    ('0' as int + n) as char
  }

  predicate IsDigit(c: char) { '0' <= c <= '9' }

  function DigitValue(c: char): int { c as int - '0' as int }

  /** A number in exactly `width` digits. */
  function Pad(n: int, width: nat): (s: string)
    requires 0 <= n
    ensures |s| == width
    decreases width
  {
    if width == 0 then "" else Pad(n / 10, width - 1) + [DigitChar(n % 10)]
  }

  /** Reads digits; -1 for anything else. */
  function ReadNumber(s: string): (n: int)
    ensures n >= -1
    decreases |s|
  {
    if s == "" then 0
    else
      var high := ReadNumber(s[..|s| - 1]);
      if high < 0 || !IsDigit(s[|s| - 1]) then -1 else 10 * high + DigitValue(s[|s| - 1])
  }

  function Pow10(k: nat): (p: int)
    ensures p >= 1
  {
    if k == 0 then 1 else 10 * Pow10(k - 1)
  }

  lemma {:induction false} ReadPad(n: int, width: nat)
    requires 0 <= n < Pow10(width)
    ensures ReadNumber(Pad(n, width)) == n
    decreases width
  {
    if width > 0 {
      ReadPad(n / 10, width - 1);
      var s := Pad(n, width);
      assert s[..|s| - 1] == Pad(n / 10, width - 1);
    }
  }

  lemma {:induction false} PadRead(s: string)
    requires ReadNumber(s) >= 0
    ensures ReadNumber(s) < Pow10(|s|)
    ensures Pad(ReadNumber(s), |s|) == s
    decreases |s|
  {
    if s != "" {
      PadRead(s[..|s| - 1]);
      assert s == s[..|s| - 1] + [s[|s| - 1]];
    }
  }

  lemma {:induction false} LexConcat(a: string, b: string, u: string, v: string)
    requires |a| == |b|
    ensures LexLess(a + u, b + v) <==> LexLess(a, b) || (a == b && LexLess(u, v))
    decreases |a|
  {
    if a == "" {
      assert a + u == u && b + v == v;
    } else {
      assert (a + u)[1..] == a[1..] + u && (b + v)[1..] == b[1..] + v;
      assert a == b <==> a[0] == b[0] && a[1..] == b[1..];
      LexConcat(a[1..], b[1..], u, v);
    }
  }

  /** Numbers of one width compare as strings the way they compare as numbers. */
  lemma {:induction false} PadOrder(m: int, n: int, width: nat)
    requires 0 <= m < Pow10(width) && 0 <= n < Pow10(width)
    ensures LexLess(Pad(m, width), Pad(n, width)) <==> m < n
    ensures Pad(m, width) == Pad(n, width) <==> m == n
    decreases width
  {
    ReadPad(m, width);
    ReadPad(n, width);
    if width > 0 {
      PadOrder(m / 10, n / 10, width - 1);
      LexConcat(Pad(m / 10, width - 1), Pad(n / 10, width - 1), [DigitChar(m % 10)], [DigitChar(n % 10)]);
    }
  }

  /** The date part of `toISOString`: four-digit years, and a signed six-digit year outside 0000-9999. */
  function IsoDateText(a: Date): string
    requires ValidDate(a)
  {
    (if 0 <= a.y <= 9999 then Pad(a.y, 4) else if a.y < 0 then "-" + Pad(-a.y, 6) else "+" + Pad(a.y, 6))
    + "-" + Pad(a.m, 2) + "-" + Pad(a.d, 2)
  }

  /** `new Date(ms).toISOString().slice(0, 10)`. */
  function ToIso(ms: int): string {
    First(IsoDateText(DateOf(ms / DAY_MS)), 10)
  }

  /** The full-date of section 5.6 of RFC 3339. */
  function ParseIso(s: string): (r: Option<Date>)
    ensures r.Some? ==> ValidDate(r.value) && 0 <= r.value.y <= 9999
  {
    if |s| == 10 && s[4] == '-' && s[7] == '-' then
      var y, m, d := ReadNumber(s[..4]), ReadNumber(s[5..7]), ReadNumber(s[8..]);
      if y >= 0 && ValidDate(Date(y, m, d)) then
        PadRead(s[..4]);
        assert Pow10(4) == 10000;
        Some(Date(y, m, d))
      else None
    else None
  }

  predicate IsIsoDate(s: string) { ParseIso(s).Some? }

  function DateIn(s: string): (a: Date)
    requires IsIsoDate(s)
    ensures ValidDate(a)
  {
    ParseIso(s).value
  }

  function DayIn(s: string): int
    requires IsIsoDate(s)
  {
    DayOf(DateIn(s))
  }

  /** `Date.parse(s + "T00:00:00Z")`. */
  function DayMs(s: string): int
    requires IsIsoDate(s)
  {
    DayIn(s) * DAY_MS
  }

  lemma ParseText(a: Date)
    requires ValidDate(a) && 0 <= a.y <= 9999
    ensures |IsoDateText(a)| == 10 && ParseIso(IsoDateText(a)) == Some(a)
  {
    assert Pow10(4) == 10000 && Pow10(2) == 100;
    ReadPad(a.y, 4);
    ReadPad(a.m, 2);
    ReadPad(a.d, 2);
    var s := IsoDateText(a);
    assert s[..4] == Pad(a.y, 4) && s[5..7] == Pad(a.m, 2) && s[8..] == Pad(a.d, 2);
  }

  lemma TextParse(s: string)
    requires IsIsoDate(s)
    ensures IsoDateText(DateIn(s)) == s
  {
    var y, m, d := ReadNumber(s[..4]), ReadNumber(s[5..7]), ReadNumber(s[8..]);
    var a := DateIn(s);
    assert a == Date(y, m, d);
    assert Pad(y, 4) == s[..4] by { PadRead(s[..4]); }
    assert Pad(m, 2) == s[5..7] by { PadRead(s[5..7]); }
    assert Pad(d, 2) == s[8..] by { PadRead(s[8..]); }
    SplitDate(s);
  }

  lemma SplitDate(s: string)
    requires |s| == 10 && s[4] == '-' && s[7] == '-'
    ensures s == s[..4] + "-" + s[5..7] + "-" + s[8..]
  {
  }

  /** Printing a parsed date gives the string back. */
  lemma IsoRoundTrip(s: string)
    requires IsIsoDate(s)
    ensures ToIso(DayMs(s)) == s
  {
    assert DayMs(s) / DAY_MS == DayIn(s);
    DateOfDayOf(DateIn(s));
    TextParse(s);
    assert |s| == 10;
  }

  /** The day number of the first day no four-digit year holds. */
  function EndOfYears(): int { DayFromYear(10000) }

  lemma InFourDigitYears(day: int)
    ensures DayFromYear(0) <= day < EndOfYears() <==> 0 <= DateOf(day).y <= 9999
  {
    var y := DateOf(day).y;
    DayWithinYear(DateOf(day));
    if y < 0 { if y < -1 { YearsInOrder(y, 0); } }
    if 0 < y { YearsInOrder(0, y); }
    if 9999 < y && y != 10000 { YearsInOrder(10000, y); }
    if y < 9999 { YearsInOrder(y, 10000); }
  }

  /** Parsing a printed day gives the day back, for every day of the years 0000 to 9999. */
  lemma DayRoundTrip(day: int)
    requires DayFromYear(0) <= day < EndOfYears()
    ensures IsIsoDate(ToIso(day * DAY_MS)) && DayMs(ToIso(day * DAY_MS)) == day * DAY_MS
  {
    InFourDigitYears(day);
    assert day * DAY_MS / DAY_MS == day;
    ParseText(DateOf(day));
  }

  /** String order on `YYYY-MM-DD` is day order (section 5.1 of RFC 3339). */
  lemma IsoOrder(a: string, b: string)
    requires IsIsoDate(a) && IsIsoDate(b)
    ensures LexLess(a, b) <==> DayIn(a) < DayIn(b)
  {
    var x, z := DateIn(a), DateIn(b);
    TextParse(a);
    TextParse(b);
    assert Pow10(4) == 10000 && Pow10(2) == 100;
    PadOrder(x.y, z.y, 4);
    PadOrder(x.m, z.m, 2);
    PadOrder(x.d, z.d, 2);
    LexFields(Pad(x.y, 4), Pad(x.m, 2), Pad(x.d, 2), Pad(z.y, 4), Pad(z.m, 2), Pad(z.d, 2));
    DayOrder(x, z);
  }

  lemma LexFields(y: string, m: string, d: string, y': string, m': string, d': string)
    requires |y| == |y'| && |m| == |m'|
    ensures LexLess(y + "-" + m + "-" + d, y' + "-" + m' + "-" + d')
       <==> LexLess(y, y') || (y == y' && (LexLess(m, m') || (m == m' && LexLess(d, d'))))
  {
    LexConcat(y, y', "-" + m + "-" + d, "-" + m' + "-" + d');
    LexConcat("-", "-", m + "-" + d, m' + "-" + d');
    LexConcat(m, m', "-" + d, "-" + d');
    LexConcat("-", "-", d, d');
    assert y + "-" + m + "-" + d == y + ("-" + (m + ("-" + d)));
    assert y' + "-" + m' + "-" + d' == y' + ("-" + (m' + ("-" + d')));
    assert "-" + m + "-" + d == "-" + (m + ("-" + d)) && "-" + m' + "-" + d' == "-" + (m' + ("-" + d'));
    assert m + "-" + d == m + ("-" + d) && m' + "-" + d' == m' + ("-" + d');
  }

  /**
   * A printed day as a bound on valid dates. Before year 0000 the text starts with a minus sign, which
   * sorts below every digit, so the bound still falls on the right side of every row.
   */
  lemma IsoBound(day: int, row: string)
    requires IsIsoDate(row) && day < EndOfYears()
    ensures LexLeq(ToIso(day * DAY_MS), row) <==> day <= DayIn(row)
    ensures LexLeq(row, ToIso(day * DAY_MS)) <==> DayIn(row) <= day
  {
    assert day * DAY_MS / DAY_MS == day;
    InFourDigitYears(day);
    if DayFromYear(0) <= day {
      DayRoundTrip(day);
      IsoOrder(ToIso(day * DAY_MS), row);
      IsoOrder(row, ToIso(day * DAY_MS));
    } else {
      BelowYearZero(DateOf(day), row);
    }
  }

  lemma BelowYearZero(a: Date, row: string)
    requires ValidDate(a) && a.y < 0 && IsIsoDate(row)
    ensures LexLess(First(IsoDateText(a), 10), row) && !LexLess(row, First(IsoDateText(a), 10))
    ensures DayOf(a) < DayIn(row)
  {
    assert First(IsoDateText(a), 10)[0] == '-';
    assert '0' <= row[0] <= '9' by {
      PadRead(row[..4]);
      LeadDigit(row[..4]);
    }
    DayOrder(a, DateIn(row));
  }

  lemma {:induction false} LeadDigit(s: string)
    requires s != "" && ReadNumber(s) >= 0
    ensures IsDigit(s[0])
    decreases |s|
  {
    if |s| > 1 { LeadDigit(s[..|s| - 1]); }
  }
}
