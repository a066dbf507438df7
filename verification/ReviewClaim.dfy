/** What a resumed review read may say about the rows it brought in, channel by channel. */
module ReviewClaim {
  import opened Base
  import opened Calendar
  import opened Period

  datatype ReviewItem = ReviewItem(channelCode: string, writtenOn: Option<string>)

  datatype CollectedRun = CollectedRun(channelCode: string, successRows: Option<int>)

  /** B counts rows by the day they were written; C counts rows a run brought in. */
  datatype ClaimLevel = B | C

  datatype Claim = Claim(level: ClaimLevel, channelCode: string, count: int)

  function Upper(s: string): string {
    if s == "" then ""
    else [if 'a' <= s[0] <= 'z' then (s[0] as int - 32) as char else s[0]] + Upper(s[1..])
  }

  /** The row filter of one run, dates compared as strings. */
  predicate WrittenIn(row: ReviewItem, code: string, window: Option<DateWindow>) {
    Upper(row.channelCode) == code && row.writtenOn.Some?
    && (window.None?
         || (LexLeq(window.value.from, row.writtenOn.value) && LexLeq(row.writtenOn.value, window.value.to)))
  }

  function CountWritten(rows: seq<ReviewItem>, code: string, window: Option<DateWindow>): nat {
    if rows == [] then 0
    else CountWritten(rows[..|rows| - 1], code, window) + if WrittenIn(rows[|rows| - 1], code, window) then 1 else 0
  }

  /** One claim for a finished run, or none: B whenever a row qualifies, else C when the run brought rows in. */
  function ClaimOf(rows: seq<ReviewItem>, window: Option<DateWindow>, run: CollectedRun): seq<Claim> {
    var code := Upper(run.channelCode);
    var written := CountWritten(rows, code, window);
    if written > 0 then [Claim(B, code, written)]
    else if run.successRows.Some? && run.successRows.value > 0 then [Claim(C, code, run.successRows.value)]
    else []
  }

  function ClaimsOf(rows: seq<ReviewItem>, window: Option<DateWindow>, collected: seq<CollectedRun>): seq<Claim> {
    if collected == [] then []
    else ClaimsOf(rows, window, collected[..|collected| - 1]) + ClaimOf(rows, window, collected[|collected| - 1])
  }

  method ClaimsFor(rows: seq<ReviewItem>, window: Option<DateWindow>, collected: seq<CollectedRun>)
    returns (claims: seq<Claim>)
    ensures claims == ClaimsOf(rows, window, collected)
  {
    claims := [];
    for i := 0 to |collected|
      invariant claims == ClaimsOf(rows, window, collected[..i])
    {
      assert collected[..i + 1][..i] == collected[..i];
      var run := collected[i];
      var code := Upper(run.channelCode);
      var written := 0;
      for j := 0 to |rows|
        invariant written == CountWritten(rows[..j], code, window)
      {
        assert rows[..j + 1][..j] == rows[..j];
        if WrittenIn(rows[j], code, window) { written := written + 1; }
      }
      assert rows[..|rows|] == rows;
      if written > 0 {
        claims := claims + [Claim(B, code, written)];
        continue;
      }
      if run.successRows.Some? && run.successRows.value > 0 {
        claims := claims + [Claim(C, code, run.successRows.value)];
      }
    }
    assert collected[..|collected|] == collected;
  }

  /** Upper-casing changes the twenty-six small letters to the capitals of the same place and nothing else. */
  lemma {:induction false} UpperCases(s: string)
    ensures |Upper(s)| == |s|
    ensures forall i :: 0 <= i < |s| ==>
      if 'a' <= s[i] <= 'z' then
        'A' <= Upper(s)[i] <= 'Z' && Upper(s)[i] as int - 'A' as int == s[i] as int - 'a' as int
      else Upper(s)[i] == s[i]
  {
    if s != "" {
      UpperCases(s[1..]);
      assert forall i :: 0 < i < |s| ==> s[i] == s[1..][i - 1];
    }
  }

  /** Claims are made run by run, in the order of the runs; what one run earns depends on no other run. */
  lemma {:induction false} RunByRun(
    rows: seq<ReviewItem>, window: Option<DateWindow>, before: seq<CollectedRun>, after: seq<CollectedRun>)
    ensures ClaimsOf(rows, window, before + after) == ClaimsOf(rows, window, before) + ClaimsOf(rows, window, after)
    ensures |after| == 1 ==> ClaimsOf(rows, window, after) == ClaimOf(rows, window, after[0])
    decreases |after|
  {
    hide ClaimOf;
    if after == [] {
      assert before + after == before;
    } else {
      var n := |after| - 1;
      assert (before + after)[..|before + after| - 1] == before + after[..n];
      RunByRun(rows, window, before, after[..n]);
      if n == 0 { assert after[..n] == []; }
    }
  }

  /* ---- what the counts mean ---- */

  ghost predicate Dated(rows: seq<ReviewItem>) {
    forall r :: r in rows && r.writtenOn.Some? ==> IsIsoDate(r.writtenOn.value)
  }

  /** A dated row of the channel, written on a day the period denotes when the read names one. */
  predicate Belongs(r: ReviewItem, code: string, period: Option<PeriodToken>, n: int, today: Option<Date>)
    requires r.writtenOn.Some? && period.Some? ==> IsIsoDate(r.writtenOn.value)
    requires period.Some? ==> today.Some? && ValidDate(today.value)
  {
    Upper(r.channelCode) == code && r.writtenOn.Some?
    && (period.Some? ==> Denotes(period.value, n, today.value, DateIn(r.writtenOn.value)))
  }

  /** The rows that belong, counted on the calendar. */
  ghost function CountDenoted(
    rows: seq<ReviewItem>, code: string, period: Option<PeriodToken>, n: int, today: Option<Date>): nat
    requires period.Some? ==> Dated(rows) && today.Some? && ValidDate(today.value)
  {
    if rows == [] then 0
    else
      CountDenoted(rows[..|rows| - 1], code, period, n, today)
      + if Belongs(rows[|rows| - 1], code, period, n, today) then 1 else 0
  }

  /** The window of the read: none when it was unbounded. */
  function WindowFor(period: Option<PeriodToken>, today: string, days: Option<real>): Option<DateWindow>
    requires period.Some? ==> IsIsoDate(today)
  {
    if period.Some? then Some(WindowOf(period.value, today, days)) else None
  }

  function DayFor(period: Option<PeriodToken>, today: string): Option<Date>
    requires period.Some? ==> IsIsoDate(today)
  {
    if period.Some? then Some(DateIn(today)) else None
  }

  /**
   * The string filter counts the rows of the period and no others; without a period, every dated row, whatever
   * its date.
   */
  lemma {:induction false} CountsThePeriod(
    rows: seq<ReviewItem>, code: string, period: Option<PeriodToken>, today: string, days: Option<real>)
    requires period.Some? ==> Dated(rows) && IsIsoDate(today)
    ensures CountWritten(rows, code, WindowFor(period, today, days))
         == CountDenoted(rows, code, period, ClampedDays(days), DayFor(period, today))
  {
    hide Denotes, WindowOf, LexLess, ParseIso, ClampedDays;
    if rows != [] {
      var r := rows[|rows| - 1];
      CountsThePeriod(rows[..|rows| - 1], code, period, today, days);
      if period.Some? && r.writtenOn.Some? { WindowSelects(period.value, today, days, r.writtenOn.value); }
    }
  }

  /**
   * A claim, over a named period or over an unbounded read: level B states exactly how many of the channel's
   * dated rows belong, and level C is made only when none does.
   */
  lemma ClaimIsTrue(
    rows: seq<ReviewItem>, period: Option<PeriodToken>, today: string, days: Option<real>, run: CollectedRun)
    requires period.Some? ==> Dated(rows) && IsIsoDate(today)
    ensures var written := CountDenoted(rows, Upper(run.channelCode), period, ClampedDays(days), DayFor(period, today));
      var said := ClaimOf(rows, WindowFor(period, today, days), run);
      && |said| <= 1
      && (written > 0 <==> |said| == 1 && said[0].level == B)
      && (written == 0 ==> (|said| == 1 <==> run.successRows.GetOr(0) > 0))
      && (|said| == 1 ==> said[0].channelCode == Upper(run.channelCode))
      && (|said| == 1 ==> said[0].count == if written > 0 then written else run.successRows.GetOr(0))
  {
    CountsThePeriod(rows, Upper(run.channelCode), period, today, days);
  }
}
