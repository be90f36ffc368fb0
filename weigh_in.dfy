/**
 * The daily weigh-in shared by components/stats/weight-form.tsx and
 * components/daily-check-modal.tsx: the weight rule (required, at least
 * 1 kg), the `POST /weights` body and the caches a successful save
 * invalidates. Today's date is a parameter.
 */
module WeighIn {
  import opened Wrappers
  import opened CivilDates
  import opened FormRules
  import opened Queries

  /** The request body: `weight_kg` is `Number(input)` (`None` for `NaN`), `log_date` today's `YYYY-MM-DD`. */
  datatype WeighInBody = WeighInBody(weightKg: Option<real>, logDate: string)

  const MinWeight: real := 1.0

  /** Weight is required and at least 1 kg. */
  function WeightError(value: NumField): (e: Option<RuleError>)
    ensures e == None <==> value.NotANumber? || (value.Num? && value.value >= MinWeight)
  {
    NumberRule(value, true, MinWeight)
  }

  function Body(value: NumField, today: Date): (b: WeighInBody)
    requires Valid(today)
    ensures b.logDate == FormatIso(today)
    ensures b.weightKg == ToNumber(value)
  {
    WeighInBody(ToNumber(value), FormatIso(today))
  }

  /** A body built from a value that passed the rule carries a weight of at least 1 kg, or `NaN`. */
  lemma ValidBodyWeight(value: NumField, today: Date)
    requires Valid(today) && WeightError(value) == None
    ensures Body(value, today).weightKg == None || Body(value, today).weightKg.value >= MinWeight
  {
  }

  /** For a four-digit year the log date is an RFC 3339 `full-date` that reads back as today. */
  lemma BodyDateIsToday(value: NumField, today: Date)
    requires Valid(today) && 0 <= today.year <= 9999
    ensures IsFullDate(Body(value, today).logDate)
    ensures ParseIso(Body(value, today).logDate) == Some(today)
  {
    FormatThenParse(today);
  }

  /** The roots the source invalidates after a successful weigh-in. */
  function AsWrittenInvalidations(): (roots: set<string>)
    ensures WeightHistoryRoot in roots && WeightChartRoot in roots && |roots| == 2
  {
    {WeightHistoryRoot, WeightChartRoot}
  }

  /** The roots that name the queries a weigh-in changes: the history list and the chart. */
  function WeighInInvalidations(): (roots: set<string>)
    ensures WeightDataRoot in roots && WeightChartRoot in roots && |roots| == 2
  {
    {WeightDataRoot, WeightChartRoot}
  }
}
