/**
 * components/stats/chart-canvas.tsx: the statistics chart shared by the
 * calorie and weight tabs. Each tab has its own query, enabled only while
 * that tab is active; the render effect picks the tab's series (or a
 * seven-point blank fallback) and, on the calorie tab, rounds the y-axis
 * up to a multiple of 50. Chart.js drawing itself is not modelled: the
 * result of the effect is the configuration it would hand to Chart.js.
 */
module ChartCanvas {
  import opened Wrappers
  import opened PeriodMemo

  datatype Tab = CalorieTab | WeightTab

  /** One point of `/weights/chart`. */
  datatype WeightPoint = WeightPoint(weight: real, bmi: real, date: string, changeFromStart: real)

  /** One point of `/nutrition/chart?type=calories`. */
  datatype CaloriePoint = CaloriePoint(calories: real, caloriesPercentage: real, date: string, nutriGrade: string)

  /** Parallel label and value arrays of one dataset. */
  datatype Series = Series(labels: seq<string>, data: seq<real>)

  /** The y-axis options the effect sets; `None` means the option is absent. */
  datatype YAxis = YAxis(beginAtZero: bool, suggestedMin: Option<real>, suggestedMax: Option<int>, stepSize: Option<int>)

  datatype ChartConfig = ChartConfig(datasetLabel: string, series: Series, y: YAxis)

  const Step: int := 50
  const FallbackSize: nat := 7

  /** Seven blank labels and seven zeros, drawn when a series is empty. */
  function Fallback(): (s: Series)
    ensures |s.labels| == |s.data| == FallbackSize
    ensures forall i :: 0 <= i < FallbackSize ==> s.labels[i] == "" && s.data[i] == 0.0
  {
    Series(seq(FallbackSize, _ => ""), seq(FallbackSize, _ => 0.0))
  }

  /** `nutritionData.map(i => i.date)` and `nutritionData.map(i => i.calories)`. */
  function CalorieSeries(points: seq<CaloriePoint>): (s: Series)
    ensures |s.labels| == |s.data| == |points|
    ensures forall i :: 0 <= i < |points| ==> s.labels[i] == points[i].date && s.data[i] == points[i].calories
  {
    Series(seq(|points|, i requires 0 <= i < |points| => points[i].date),
           seq(|points|, i requires 0 <= i < |points| => points[i].calories))
  }

  /** `weightData.map(i => i.date)` and `weightData.map(i => i.weight)`. */
  function WeightSeries(points: seq<WeightPoint>): (s: Series)
    ensures |s.labels| == |s.data| == |points|
    ensures forall i :: 0 <= i < |points| ==> s.labels[i] == points[i].date && s.data[i] == points[i].weight
  {
    Series(seq(|points|, i requires 0 <= i < |points| => points[i].date),
           seq(|points|, i requires 0 <= i < |points| => points[i].weight))
  }

  /** The series drawn for a source series: itself when non-empty, else the fallback. */
  function OrFallback(s: Series): (r: Series)
    requires |s.labels| == |s.data|
    ensures |r.labels| == |r.data| > 0
    ensures |s.labels| > 0 ==> r == s
    ensures |s.labels| == 0 ==> r == Fallback()
  {
    if |s.labels| > 0 then s else Fallback()
  }

  /** `Math.max(...values)` over a non-empty array. */
  function MaxOf(values: seq<real>): (m: real)
    requires |values| > 0
    ensures m in values
    ensures forall i :: 0 <= i < |values| ==> values[i] <= m
  {
    if |values| == 1 then values[0]
    else
      var rest := MaxOf(values[1..]);
      if values[0] >= rest then values[0] else rest
  }

  /** `Math.ceil`. */
  function Ceil(x: real): (n: int)
    ensures x <= n as real < x + 1.0
  {
    -((-x).Floor)
  }

  /**
   * `Math.ceil((maxValue || step) / step) * step`: the calorie axis maximum,
   * the smallest multiple of 50 at or above the largest value, with a zero
   * maximum replaced by one step.
   */
  function RoundedMax(maxValue: real): (m: int)
    ensures m % Step == 0
    ensures maxValue <= m as real
    ensures maxValue != 0.0 ==> (m as real) < maxValue + Step as real
    ensures maxValue == 0.0 ==> m == Step
  {
    var base := if maxValue != 0.0 then maxValue else Step as real;
    Ceil(base / Step as real) * Step
  }

  /** The default y-axis: starts at zero. */
  const ZeroBasedAxis: YAxis := YAxis(true, Some(0.0), None, None)

  /** The calorie y-axis override: no `beginAtZero`, a rounded maximum and a step of 50. */
  function CalorieAxis(data: seq<real>): (y: YAxis)
    requires |data| > 0
    ensures y.suggestedMax.Some? && y.stepSize == Some(Step)
    ensures y.suggestedMax.value % Step == 0
    ensures forall i :: 0 <= i < |data| ==> data[i] <= y.suggestedMax.value as real
  {
    YAxis(false, None, Some(RoundedMax(MaxOf(data))), Some(Step))
  }

  /** The series the effect selects for a tab, before any axis decision. */
  function TabSeries(tab: Tab, weightData: seq<WeightPoint>, nutritionData: seq<CaloriePoint>): (s: Series)
    ensures |s.labels| == |s.data| > 0
  {
    match tab
    case CalorieTab => OrFallback(CalorieSeries(nutritionData))
    case WeightTab => OrFallback(WeightSeries(weightData))
  }

  /**
   * The render effect: reassigns the label, labels and data step by step,
   * builds the default axis and overrides it on the calorie tab.
   */
  method RenderChart(tab: Tab, weightData: seq<WeightPoint>, nutritionData: seq<CaloriePoint>)
    returns (config: ChartConfig)
    ensures config.series == TabSeries(tab, weightData, nutritionData)
    ensures tab == CalorieTab ==> config.datasetLabel == "Kalori (kcal)" && config.y == CalorieAxis(config.series.data)
    ensures tab == WeightTab ==> config.datasetLabel == "Berat Badan (kg)" && config.y == ZeroBasedAxis
  {
    var chartLabels: seq<string> := [];
    var chartData: seq<real> := [];
    var chartLabel := "";
    var fallback := Fallback();

    if tab == CalorieTab {
      chartLabel := "Kalori (kcal)";
      if |nutritionData| > 0 {
        var s := CalorieSeries(nutritionData);
        chartLabels, chartData := s.labels, s.data;
      } else {
        chartLabels, chartData := fallback.labels, fallback.data;
      }
    }

    if tab == WeightTab {
      chartLabel := "Berat Badan (kg)";
      if |weightData| > 0 {
        var s := WeightSeries(weightData);
        chartLabels, chartData := s.labels, s.data;
      } else {
        chartLabels, chartData := fallback.labels, fallback.data;
      }
    }

    var y := ZeroBasedAxis;
    if tab == CalorieTab {
      var maxValue := MaxOf(chartData);
      var roundedMax := RoundedMax(maxValue);
      y := YAxis(false, None, Some(roundedMax), Some(Step));
    }

    config := ChartConfig(chartLabel, Series(chartLabels, chartData), y);
  }

  /** A non-empty source series is plotted point for point, in order. */
  lemma PlotsSourceSeries(tab: Tab, weightData: seq<WeightPoint>, nutritionData: seq<CaloriePoint>)
    ensures var s := TabSeries(tab, weightData, nutritionData);
      (tab == CalorieTab && |nutritionData| > 0 ==>
        |s.data| == |nutritionData| &&
        forall i :: 0 <= i < |nutritionData| ==> s.labels[i] == nutritionData[i].date && s.data[i] == nutritionData[i].calories) &&
      (tab == WeightTab && |weightData| > 0 ==>
        |s.data| == |weightData| &&
        forall i :: 0 <= i < |weightData| ==> s.labels[i] == weightData[i].date && s.data[i] == weightData[i].weight)
  {
  }

  /** An empty source series becomes seven blank labels and seven zeros, whose axis tops out at 50. */
  lemma EmptySeriesFallsBack(tab: Tab, weightData: seq<WeightPoint>, nutritionData: seq<CaloriePoint>)
    requires (tab == CalorieTab && nutritionData == []) || (tab == WeightTab && weightData == [])
    ensures TabSeries(tab, weightData, nutritionData) == Fallback()
    ensures CalorieAxis(Fallback().data).suggestedMax == Some(Step)
  {
    var f := Fallback();
    assert f.data[0] == 0.0;
    assert MaxOf(f.data) == 0.0;
  }

  /** The weight query runs only on the weight tab. */
  predicate WeightQueryEnabled(tab: Tab)
    ensures WeightQueryEnabled(tab) <==> tab != CalorieTab
  {
    tab == WeightTab
  }

  /** The calorie query runs only on the calorie tab. */
  predicate CalorieQueryEnabled(tab: Tab)
    ensures CalorieQueryEnabled(tab) <==> tab != WeightTab
  {
    tab == CalorieTab
  }

  /** Exactly one of the two chart queries is enabled at a time. */
  lemma OneQueryPerTab(tab: Tab)
    ensures WeightQueryEnabled(tab) != CalorieQueryEnabled(tab)
  {
  }

  /** The cache key of a chart query: root, period and range. */
  function ChartKey(root: string, period: Period, range: DateRange): (key: seq<string>)
    ensures |key| == 4 && key[0] == root
  {
    [root, PeriodName(period), range.dateFrom, range.dateTo]
  }

  /** The weight chart request: the period and both ends of the range as URL parameters. */
  function WeightChartUrl(period: Period, range: DateRange): (url: string)
    ensures |url| >= 32 + |range.dateTo| && url[..22] == "/weights/chart?period="
    ensures url[|url| - |range.dateTo| - 10..] == "&end_date=" + range.dateTo
  {
    "/weights/chart?period=" + PeriodName(period) + "&start_date=" + range.dateFrom + "&end_date=" + range.dateTo
  }

  /** The calorie chart request, with the same parameters and `type=calories`. */
  function CalorieChartUrl(period: Period, range: DateRange): (url: string)
    ensures |url| >= 34 + |range.dateTo| && url[..24] == "/nutrition/chart?period="
    ensures url[|url| - |range.dateTo| - 10..] == "&end_date=" + range.dateTo
  {
    "/nutrition/chart?period=" + PeriodName(period) + "&type=calories&start_date=" + range.dateFrom + "&end_date=" + range.dateTo
  }

  /**
   * For start dates of one width (every `YYYY-MM-DD` rendering), two chart
   * requests are the same exactly when their cache keys are: the key names
   * everything the request asks for, so no cached series answers a
   * different request.
   */
  lemma ChartRequestsMatchKeys(root: string, p: Period, q: Period, r: DateRange, s: DateRange)
    requires |r.dateFrom| == |s.dateFrom|
    ensures WeightChartUrl(p, r) == WeightChartUrl(q, s) <==> ChartKey(root, p, r) == ChartKey(root, q, s)
    ensures CalorieChartUrl(p, r) == CalorieChartUrl(q, s) <==> ChartKey(root, p, r) == ChartKey(root, q, s)
  {
    PeriodNameInjective(p, q);
    var head, headC := "/weights/chart?period=", "/nutrition/chart?period=";
    var mid, midC := "&start_date=", "&type=calories&start_date=";
    assert WeightChartUrl(p, r) == head + PeriodName(p) + mid + r.dateFrom + "&end_date=" + r.dateTo + "";
    assert WeightChartUrl(q, s) == head + PeriodName(q) + mid + s.dateFrom + "&end_date=" + s.dateTo + "";
    assert CalorieChartUrl(p, r) == headC + PeriodName(p) + midC + r.dateFrom + "&end_date=" + r.dateTo + "";
    assert CalorieChartUrl(q, s) == headC + PeriodName(q) + midC + s.dateFrom + "&end_date=" + s.dateTo + "";
    RangeRequestIdentifies(head, mid, "&end_date=", "", p, q, r, s);
    RangeRequestIdentifies(headC, midC, "&end_date=", "", p, q, r, s);
  }
}
