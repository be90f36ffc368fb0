/**
 * components/stats/section/calories.tsx: the calorie statistics tab. The
 * chart covers the seven days before the day the tab was mounted, whatever
 * period is selected; the meal history shows one day, chosen with a date
 * input, previous/next buttons and a button back to today, optionally
 * filtered by meal type.
 */
module CaloriesSection {
  import opened Wrappers
  import opened CivilDates
  import opened PeriodMemo
  import opened Queries
  import opened MealClock
  import ChartCanvas

  /** `getDateRange`: today and the date seven days earlier (via `setDate`), as `YYYY-MM-DD`. */
  function GetDateRange(today: Date): (r: DateRange)
    requires Valid(today)
    ensures r == PeriodGetter(Week, today)
    ensures r.dateFrom == FormatIso(AddDays(today, -7)) && r.dateTo == FormatIso(today)
  {
    var sevenDaysAgo := SetDayOfMonth(today, today.day - 7);
    WeekIsSevenDays(today);
    DateRange(FormatIso(sevenDaysAgo), FormatIso(today))
  }

  /**
   * The previous/next handlers: `new Date(datefilter)`, `setDate(getDate() + k)`,
   * back to `YYYY-MM-DD`. A value that is not a date makes `toISOString`
   * throw, so the handler ends without a new value (`None`).
   */
  function ShiftDay(datefilter: string, k: int): (r: Option<string>)
    ensures r.Some? <==> IsFullDate(datefilter)
    ensures r.Some? ==> r.value == FormatIso(AddDays(ParseIso(datefilter).value, k))
  {
    match ParseIso(datefilter)
    case None => None
    case Some(d) =>
      SetDayOfMonthShifts(d, k);
      Some(FormatIso(SetDayOfMonth(d, d.day + k)))
  }

  /** Previous and next move a full-date by exactly one calendar day. */
  lemma ShiftIsOneDay(d: Date)
    requires Valid(d) && FourDigitYear(d)
    ensures ShiftDay(FormatIso(d), -1) == Some(FormatIso(PrevDay(d)))
    ensures ShiftDay(FormatIso(d), 1) == Some(FormatIso(NextDay(d)))
  {
    FormatThenParse(d);
  }

  /** Next undoes previous (and previous undoes next) on any date that stays within years 0..9999. */
  lemma PrevThenNext(d: Date)
    requires Valid(d) && 1 <= d.year <= 9998
    ensures ShiftDay(FormatIso(d), -1).Some? && ShiftDay(ShiftDay(FormatIso(d), -1).value, 1) == Some(FormatIso(d))
    ensures ShiftDay(FormatIso(d), 1).Some? && ShiftDay(ShiftDay(FormatIso(d), 1).value, -1) == Some(FormatIso(d))
  {
    ShiftIsOneDay(d);
    ShiftIsOneDay(PrevDay(d));
    ShiftIsOneDay(NextDay(d));
    NextPrevInverse(d);
  }

  /** The meals request: `&meal_type=` is appended only when a type is chosen. */
  function MealsUrl(datefilter: string, mealType: Option<MealType>): (url: string)
    ensures mealType.None? ==> url == "/meals?date=" + datefilter
    ensures mealType.Some? ==> url == "/meals?date=" + datefilter + "&meal_type=" + MealTypeValue(mealType.value)
  {
    "/meals?date=" + datefilter + (if mealType.Some? then "&meal_type=" + MealTypeValue(mealType.value) else "")
  }

  /** For one day, different filters ask for different URLs. */
  lemma MealsUrlDistinguishesFilters(datefilter: string, a: Option<MealType>, b: Option<MealType>)
    ensures MealsUrl(datefilter, a) == MealsUrl(datefilter, b) <==> a == b
  {
    var head := "/meals?date=" + datefilter;
    var ua, ub := MealsUrl(datefilter, a), MealsUrl(datefilter, b);
    if a.Some? && b.Some? {
      MealTypeNamesInjective(a.value, b.value);
      assert ua[|head| + 11..] == MealTypeValue(a.value);
      assert ub[|head| + 11..] == MealTypeValue(b.value);
    } else if a != b {
      assert |ua| != |ub|;
    }
  }

  /** The history shows "Belum ada riwayat." while the list is empty, including before it arrives. */
  function ShowsEmptyMessage<T>(meals: Option<seq<T>>): (shown: bool)
    ensures shown <==> meals.None? || |meals.value| == 0
  {
    |meals.GetOr([])| == 0
  }

  /** The chart effect of this tab: calorie series or the fallback, on an axis that only begins at zero. */
  function CalorieChart(nutrition: seq<ChartCanvas.CaloriePoint>): (c: ChartCanvas.ChartConfig)
    ensures c.datasetLabel == "Kalori (kcal)" && c.y == ChartCanvas.YAxis(true, None, None, None)
    ensures c.series == ChartCanvas.TabSeries(ChartCanvas.CalorieTab, [], nutrition)
    ensures nutrition == [] ==> c.series == ChartCanvas.Fallback()
  {
    ChartCanvas.ChartConfig("Kalori (kcal)", ChartCanvas.OrFallback(ChartCanvas.CalorieSeries(nutrition)), ChartCanvas.YAxis(true, None, None, None))
  }

  class CaloriesTab {
    var period: Period
    var mealType: Option<MealType>
    var datefilter: string
    /** `useMemo(getDateRange, [])`: computed once, at mount. */
    const range: DateRange

    constructor(today: Date)
      requires Valid(today)
      ensures period == Week && mealType == None && datefilter == FormatIso(today)
      ensures range == GetDateRange(today)
    {
      period := Week;
      mealType := None;
      datefilter := FormatIso(today);
      range := GetDateRange(today);
    }

    /**
     * The chart request: the selected period, always the range fixed at
     * mount. It is the statistics chart's calorie request for the same
     * key, so the two components agree on what `["calorie-chart", ...]`
     * caches.
     */
    function ChartUrl(): (url: string)
      reads this
      ensures url == ChartCanvas.CalorieChartUrl(period, range)
    {
      "/nutrition/chart?period=" + PeriodName(period) + "&type=calories&start_date=" + range.dateFrom + "&end_date=" + range.dateTo
    }

    function ChartKey(): (key: seq<string>)
      reads this
      ensures key == ChartCanvas.ChartKey(CalorieChartRoot, period, range)
    {
      [CalorieChartRoot, PeriodName(period), range.dateFrom, range.dateTo]
    }

    /** The history key: `["calorie-history", datefilter, type]`, with "" for no type. */
    function HistoryKey(): (key: seq<string>)
      reads this
      ensures |key| == 3 && key[0] == CalorieHistoryRoot && key[1] == datefilter
      ensures key[2] == (if mealType.Some? then MealTypeValue(mealType.value) else "")
    {
      [CalorieHistoryRoot, datefilter, if mealType.Some? then MealTypeValue(mealType.value) else ""]
    }

    /** The period dropdown: only the `period` parameter of the chart request changes. */
    method SetPeriod(p: Period)
      modifies this
      ensures period == p && mealType == old(mealType) && datefilter == old(datefilter)
      ensures ChartUrl() == "/nutrition/chart?period=" + PeriodName(p) + old(ChartUrl())[|"/nutrition/chart?period=" + PeriodName(old(period))|..]
    {
      var tail := "&type=calories&start_date=" + range.dateFrom + "&end_date=" + range.dateTo;
      assert ChartUrl() == "/nutrition/chart?period=" + PeriodName(period) + tail;
      period := p;
    }

    method SetMealType(t: Option<MealType>)
      modifies this
      ensures mealType == t && period == old(period) && datefilter == old(datefilter)
    {
      mealType := t;
    }

    /** The date input. */
    method PickDate(s: string)
      modifies this
      ensures datefilter == s && period == old(period) && mealType == old(mealType)
    {
      datefilter := s;
    }

    /** The previous button (`k = -1`) and the next button (`k = 1`). */
    method Step(k: int)
      requires k == -1 || k == 1
      modifies this
      ensures ShiftDay(old(datefilter), k).Some? ==> datefilter == ShiftDay(old(datefilter), k).value
      ensures ShiftDay(old(datefilter), k).None? ==> datefilter == old(datefilter)
      ensures period == old(period) && mealType == old(mealType)
    {
      var next := ShiftDay(datefilter, k);
      if next.Some? {
        datefilter := next.value;
      }
    }

    /** The middle button: back to today. */
    method Today(today: Date)
      requires Valid(today)
      modifies this
      ensures datefilter == FormatIso(today) && period == old(period) && mealType == old(mealType)
    {
      datefilter := FormatIso(today);
    }
  }
}
