/**
 * lib/period-memo.ts: the date range a statistics period covers. `dateTo`
 * is today's date and `dateFrom` is today moved back with `setDate` (one
 * week) or `setMonth` (one or three months); both are rendered as
 * `YYYY-MM-DD`. Today is a parameter.
 */
module PeriodMemo {
  import opened CivilDates
  import opened Text
  import opened Wrappers

  datatype Period = Week | Month | ThreeMonths

  datatype DateRange = DateRange(dateFrom: string, dateTo: string)

  /** The period as it appears in query keys and in the `period` URL parameter. */
  function PeriodName(period: Period): (s: string)
    ensures |s| >= 4
  {
    match period
    case Week => "week"
    case Month => "month"
    case ThreeMonths => "3months"
  }

  /** Distinct periods give distinct parameters, so they never share a cache entry. */
  lemma PeriodNameInjective(p: Period, q: Period)
    ensures PeriodName(p) == PeriodName(q) <==> p == q
  {
    if p != q {
      assert PeriodName(p)[0] != PeriodName(q)[0];
    }
  }

  /**
   * A request that writes the period after `head`, then a start date of
   * fixed width after `mid`, then the end date after `sep`, then `tail`,
   * names one period and one range: two such requests are equal exactly
   * when both are.
   */
  lemma RangeRequestIdentifies(head: string, mid: string, sep: string, tail: string,
                               p: Period, q: Period, r: DateRange, s: DateRange)
    requires |r.dateFrom| == |s.dateFrom|
    ensures (head + PeriodName(p) + mid + r.dateFrom + sep + r.dateTo + tail ==
             head + PeriodName(q) + mid + s.dateFrom + sep + s.dateTo + tail) <==> p == q && r == s
  {
    var u := head + PeriodName(p) + mid + r.dateFrom + sep + r.dateTo + tail;
    var v := head + PeriodName(q) + mid + s.dateFrom + sep + s.dateTo + tail;
    if p != q {
      PeriodNameInjective(p, q);
      assert PeriodName(p)[0] != PeriodName(q)[0];
      var hp, hq := head + PeriodName(p), head + PeriodName(q);
      assert hp[|head|] == PeriodName(p)[0] && hq[|head|] == PeriodName(q)[0];
      assert u[|head|] == hp[|head|];
      assert v[|head|] == hq[|head|];
    } else {
      var h := head + PeriodName(p) + mid;
      SuffixCancel(h + r.dateFrom + sep + r.dateTo, h + s.dateFrom + sep + s.dateTo, tail);
      FieldsIdentify(h, r.dateFrom, sep, r.dateTo, s.dateFrom, s.dateTo);
    }
  }

  /** The start date before rendering: the `Date` object `start` after its setter ran. */
  function StartDate(period: Period, today: Date): (r: Date)
    requires Valid(today)
    ensures Valid(r)
  {
    match period
    case Week => SetDayOfMonth(today, today.day - 7)
    case Month => SetMonth(today, today.month - 1 - 1)
    case ThreeMonths => SetMonth(today, today.month - 1 - 3)
  }

  /**
   * `periodGetter`: the range a period covers, from the period's start to
   * today, both rendered as `YYYY-MM-DD`; the start is strictly earlier.
   */
  function PeriodGetter(period: Period, today: Date): (r: DateRange)
    requires Valid(today)
    ensures r.dateTo == FormatIso(today) && r.dateFrom == FormatIso(StartDate(period, today))
    ensures Before(StartDate(period, today), today)
  {
    StartBeforeToday(period, today);
    DateRange(FormatIso(StartDate(period, today)), FormatIso(today))
  }

  /** How many months a month-based period reaches back. */
  function MonthsBack(period: Period): nat {
    match period
    case Week => 0
    case Month => 1
    case ThreeMonths => 3
  }

  /** For "week", the start is exactly seven days before today. */
  lemma WeekIsSevenDays(today: Date)
    requires Valid(today)
    ensures StartDate(Week, today) == AddDays(today, -7)
    ensures AddDays(StartDate(Week, today), 7) == today
  {
    var start := StartDate(Week, today);
    assert start == SetDayOfMonth(today, today.day + -7);
    SetDayOfMonthShifts(today, -7);
    AddDaysAdditive(today, -7, 7);
    assert AddDays(today, -7 + 7) == today;
  }

  /**
   * For "month" and "3months", the start keeps today's day of the month
   * one or three months earlier; when that month is too short, the
   * surplus days roll into the following month.
   */
  lemma MonthPeriodsKeepDay(period: Period, today: Date)
    requires Valid(today) && period != Week
    ensures var s := StartDate(period, today);
      var k := MonthsBack(period);
      var t := MonthStart(MonthIndex(today) - k);
      var n := DaysInMonth(t.year, t.month);
      (today.day <= n ==> MonthIndex(s) == MonthIndex(today) - k && s.day == today.day) &&
      (today.day > n ==> MonthIndex(s) == MonthIndex(today) - k + 1 && s.day == today.day - n)
  {
    SetMonthBack(today, MonthsBack(period));
  }

  /** The start date is strictly earlier than today for all three periods. */
  lemma StartBeforeToday(period: Period, today: Date)
    requires Valid(today)
    ensures Before(StartDate(period, today), today)
  {
    if period == Week {
      WeekIsSevenDays(today);
    } else {
      MonthPeriodsKeepDay(period, today);
      var s := StartDate(period, today);
      assert MonthIndex(s) < MonthIndex(today) || (MonthIndex(s) == MonthIndex(today) && s.day < today.day);
      MonthIndexOrder(s, today);
    }
  }

  /** An earlier month is an earlier date; the same month compares by day. */
  lemma MonthIndexOrder(a: Date, b: Date)
    requires Valid(a) && Valid(b)
    requires MonthIndex(a) < MonthIndex(b) || (MonthIndex(a) == MonthIndex(b) && a.day < b.day)
    ensures Before(a, b)
  {
    assert a.year * 12 < b.year * 12 + 12;
  }

  /**
   * For today in years 1..9999, both ends of the range are RFC 3339
   * `full-date` strings, `dateTo` is today's rendering, and `dateFrom`
   * is strictly earlier, both as a date and as a string.
   */
  lemma RangeIsOrderedFullDates(period: Period, today: Date)
    requires Valid(today) && 1 <= today.year <= 9999
    ensures var r := PeriodGetter(period, today);
      IsFullDate(r.dateFrom) && IsFullDate(r.dateTo) &&
      ParseIso(r.dateTo) == Some(today) &&
      Before(ParseIso(r.dateFrom).value, today) &&
      StrLess(r.dateFrom, r.dateTo)
  {
    var s := StartDate(period, today);
    StartBeforeToday(period, today);
    StartStaysInYearRange(period, today);
    FormatThenParse(s);
    FormatThenParse(today);
    FormatOrder(s, today);
  }

  /** Going back at most three months from a year >= 1 stays in a year >= 0. */
  lemma StartStaysInYearRange(period: Period, today: Date)
    requires Valid(today) && 1 <= today.year
    ensures StartDate(period, today).year >= 0
  {
    var s := StartDate(period, today);
    if period == Week {
      WeekIsSevenDays(today);
      SevenDaysBackYear(today);
    } else {
      MonthPeriodsKeepDay(period, today);
      assert MonthIndex(s) >= MonthIndex(today) - 3;
    }
  }

  lemma SevenDaysBackYear(d: Date)
    requires Valid(d)
    ensures AddDays(d, -7).year >= d.year - 1
  {
    var s := AddDays(d, -7);
    AddDaysAdditive(d, -7, 7);
    FewDaysForwardMonth(s, 7);
    assert s.year * 12 + 12 > MonthIndex(s) >= MonthIndex(d) - 1 >= d.year * 12 - 1;
  }
}
