/**
 * components/stats/section/weight.tsx: the weight statistics tab. It
 * reads the weight chart and the weigh-in history for the selected
 * period, draws the chart (or the blank fallback), shows the user's
 * height, and tells the weigh-in form whether today is already logged.
 */
module WeightSection {
  import opened Wrappers
  import opened Types
  import opened CivilDates
  import opened PeriodMemo
  import opened Queries
  import ChartCanvas
  import Text

  const HistoryLimit: nat := 100

  /**
   * `new Date(entry.date).toDateString() === new Date().toDateString()`:
   * the entry's date names today's calendar day; a date that does not
   * parse gives "Invalid Date" and never matches.
   */
  predicate OnDay(date: string, today: Date)
    ensures OnDay(date, today) ==> IsFullDate(date) && Valid(today) && FourDigitYear(today)
  {
    ParseIso(date) == Some(today)
  }

  /**
   * An entry recorded under the page's own `YYYY-MM-DD` rendering of a day
   * falls on today exactly when that day is today.
   */
  lemma OnDayIsSameDate(d: Date, today: Date)
    requires Valid(d) && FourDigitYear(d)
    ensures OnDay(FormatIso(d), today) <==> d == today
  {
    FormatThenParse(d);
  }

  /** `isAlreadyInput`: `false` on an empty chart, otherwise `some` entry falls on today. */
  function IsAlreadyInput(chart: seq<ChartCanvas.WeightPoint>, today: Date): (r: bool)
    ensures chart == [] ==> !r
    ensures r <==> exists i :: 0 <= i < |chart| && OnDay(chart[i].date, today)
  {
    if chart == [] then false
    else if OnDay(chart[0].date, today) then true
    else
      var rest := IsAlreadyInput(chart[1..], today);
      assert forall i :: 1 <= i < |chart| ==> chart[i] == chart[1..][i - 1];
      rest
  }

  /** The history query key: `["weight-data", dateFrom, dateTo, period]`. */
  function HistoryKey(period: Period, today: Date): (key: seq<string>)
    requires Valid(today)
    ensures |key| == 4 && key[0] == WeightDataRoot && key[3] == PeriodName(period)
    ensures key[1] == PeriodGetter(period, today).dateFrom && key[2] == PeriodGetter(period, today).dateTo
  {
    var r := PeriodGetter(period, today);
    [WeightDataRoot, r.dateFrom, r.dateTo, PeriodName(period)]
  }

  /** The history request: the period's range and at most 100 entries. */
  function HistoryUrl(period: Period, today: Date): (url: string)
    requires Valid(today)
    ensures |url| > 26 && url[..16] == "/weights?period=" && url[|url| - 10..] == "&limit=100"
  {
    var r := PeriodGetter(period, today);
    var s1 := "/weights?period=" + PeriodName(period);
    var s2 := s1 + "&date_from=";
    var s3 := s2 + r.dateFrom;
    var s4 := s3 + "&date_to=";
    Text.PrefixKept("/weights?period=", PeriodName(period), 16);
    Text.PrefixKept(s1, "&date_from=", 16);
    Text.PrefixKept(s2, r.dateFrom, 16);
    Text.PrefixKept(s3, "&date_to=", 16);
    Text.PrefixKept(s4, r.dateTo, 16);
    s4 + r.dateTo + "&limit=100"
  }

  /**
   * For today in years 1..9999, two history requests are the same exactly
   * when their cache keys are (the key names the period and the range the
   * request asks for), and every request asks for at most 100 entries.
   */
  lemma HistoryRequestMatchesKey(p: Period, q: Period, t: Date, t': Date)
    requires Valid(t) && 1 <= t.year <= 9999 && Valid(t') && 1 <= t'.year <= 9999
    ensures HistoryUrl(p, t) == HistoryUrl(q, t') <==> HistoryKey(p, t) == HistoryKey(q, t')
    ensures var url := HistoryUrl(p, t); |url| > 10 && url[|url| - 10..] == "&limit=100"
  {
    var r, r' := PeriodGetter(p, t), PeriodGetter(q, t');
    RangeIsOrderedFullDates(p, t);
    RangeIsOrderedFullDates(q, t');
    PeriodNameInjective(p, q);
    RangeRequestIdentifies("/weights?period=", "&date_from=", "&date_to=", "&limit=100", p, q, r, r');
  }

  /** The chart query key, shared with the statistics chart: `["weight-chart", period, dateFrom, dateTo]`. */
  function ChartKey(period: Period, today: Date): (key: seq<string>)
    requires Valid(today)
    ensures key == ChartCanvas.ChartKey(WeightChartRoot, period, PeriodGetter(period, today))
  {
    var r := PeriodGetter(period, today);
    [WeightChartRoot, PeriodName(period), r.dateFrom, r.dateTo]
  }

  /** `user?.height_cm || 0`, shown as the height of every history row. */
  function DisplayHeight(user: Option<User>): (h: real)
    ensures user.Some? && user.value.heightCm.Some? && user.value.heightCm.value != 0.0 ==> h == user.value.heightCm.value
    ensures user.None? || user.value.heightCm.None? ==> h == 0.0
  {
    if user.None? then 0.0 else OrZero(user.value.heightCm)
  }

  /** The chart effect of this tab: the weight series or the fallback, on a zero-based axis. */
  function WeightChart(chart: seq<ChartCanvas.WeightPoint>): (c: ChartCanvas.ChartConfig)
    ensures c.datasetLabel == "Berat Badan (kg)" && c.y == ChartCanvas.ZeroBasedAxis
    ensures c.series == ChartCanvas.TabSeries(ChartCanvas.WeightTab, chart, [])
    ensures chart == [] ==> c.series == ChartCanvas.Fallback()
  {
    ChartCanvas.ChartConfig("Berat Badan (kg)", ChartCanvas.OrFallback(ChartCanvas.WeightSeries(chart)), ChartCanvas.ZeroBasedAxis)
  }
}
