/**
 * components/scan/modal-analisis.tsx: the nutrition analysis of a scan
 * session. The analysis is fetched for the `sessionId` prop; each
 * recommendation is shown with a priority icon and colour and a nutrient
 * label and icon looked up by its type, with fallbacks for values the
 * tables do not know; the four nutrient totals feed a radar chart.
 */
module ModalAnalisis {
  import opened Wrappers
  import opened Queries

  datatype Icon =
    DrumstickBite | BowlRice | FireFlameCurved | AppleWhole |
    ExclamationCircle | ExclamationTriangle | CheckCircle

  /** One recommendation; `type` and `priority` are whatever strings the server sends. */
  datatype Recommendation = Recommendation(nutrient: string, message: string, priority: string)

  datatype Analysis = Analysis(
    totalCalories: real, totalProtein: real, totalCarbs: real, totalFat: real, totalFiber: real,
    recommendations: seq<Recommendation>, healthTips: seq<string>, allergenWarnings: seq<string>)

  /** The props; `sessionId` is `None` when the caller does not pass it. */
  datatype AnalysisProps = AnalysisProps(sessionId: Option<string>)

  /** `getPriorityIcon`. */
  function PriorityIcon(priority: string): (i: Icon)
    ensures priority == "medium" <==> i == ExclamationTriangle
    ensures priority == "high" <==> i == ExclamationCircle
    ensures priority != "medium" && priority != "high" <==> i == CheckCircle
  {
    if priority == "medium" then ExclamationTriangle
    else if priority == "high" then ExclamationCircle
    else CheckCircle
  }

  /** `getPriorityColor`. */
  function PriorityColor(priority: string): (c: string)
    ensures priority == "medium" <==> c == "text-yellow-500"
    ensures priority == "high" <==> c == "text-red-500"
    ensures priority != "medium" && priority != "high" <==> c == "text-green-600"
  {
    if priority == "medium" then "text-yellow-500"
    else if priority == "high" then "text-red-500"
    else "text-green-600"
  }

  /** `typeIcons`, including its `default` entry. */
  const TypeIcons: map<string, Icon> := map[
    "protein" := DrumstickBite, "carbs" := BowlRice, "fat" := FireFlameCurved,
    "fiber" := AppleWhole, "default" := ExclamationCircle]

  /** `typeLabels`, including its `default` entry. */
  const TypeLabels: map<string, string> := map[
    "protein" := "Protein", "carbs" := "Karbohidrat", "fat" := "Lemak",
    "fiber" := "Serat", "default" := "Nutrisi"]

  /** `priorityColor`: the colour of a recommendation row; other priorities give `undefined`. */
  const PriorityColors: map<string, string> := map[
    "low" := "text-green-600", "medium" := "text-yellow-600", "high" := "text-red-600"]

  /** `priorityIcons`: the icon of a recommendation row; other priorities give `undefined`. */
  const PriorityIcons: map<string, Icon> := map[
    "low" := CheckCircle, "medium" := ExclamationCircle, "high" := ExclamationCircle]

  predicate KnownNutrient(t: string) {
    t == "protein" || t == "carbs" || t == "fat" || t == "fiber"
  }

  /** `typeIcons[item.type] || typeIcons.default`. */
  function TypeIcon(t: string): (i: Icon)
    ensures t in TypeIcons ==> i == TypeIcons[t]
    ensures t !in TypeIcons ==> i == ExclamationCircle
  {
    if t in TypeIcons then TypeIcons[t] else TypeIcons["default"]
  }

  /** `typeLabels[item.type] || typeLabels.default`. */
  function TypeLabel(t: string): (s: string)
    ensures t in TypeLabels ==> s == TypeLabels[t]
    ensures t !in TypeLabels ==> s == "Nutrisi"
  {
    if t in TypeLabels then TypeLabels[t] else TypeLabels["default"]
  }

  /** An unknown nutrient type gets the "Nutrisi" label and the default icon. */
  lemma UnknownTypeFallsBack(t: string)
    requires !KnownNutrient(t)
    ensures TypeLabel(t) == "Nutrisi" && TypeIcon(t) == ExclamationCircle
  {
  }

  /** The four known types get four different labels and four different icons, none of them the fallback. */
  lemma KnownTypesDistinct(t: string, u: string)
    requires KnownNutrient(t) && KnownNutrient(u)
    ensures TypeLabel(t) != "Nutrisi" && TypeIcon(t) != ExclamationCircle
    ensures TypeLabel(t) == TypeLabel(u) <==> t == u
    ensures TypeIcon(t) == TypeIcon(u) <==> t == u
  {
  }

  /** The label of the insight grid: a known type with a trailing space, anything else nothing. */
  function InlineLabel(t: string): (s: string)
    ensures !KnownNutrient(t) <==> s == ""
  {
    if t == "protein" then "Protein "
    else if t == "carbs" then "Karbohidrat "
    else if t == "fat" then "Lemak "
    else if t == "fiber" then "Serat "
    else ""
  }

  /** For the four known types the insight grid and the recommendation list use the same word. */
  lemma InlineLabelAgrees(t: string)
    ensures KnownNutrient(t) ==> InlineLabel(t) == TypeLabel(t) + " "
    ensures !KnownNutrient(t) ==> InlineLabel(t) == "" && TypeLabel(t) == "Nutrisi"
  {
  }

  /** The recommendation row's colour: `Some` exactly for low, medium and high. */
  function RowColor(priority: string): (c: Option<string>)
    ensures c.Some? <==> priority == "low" || priority == "medium" || priority == "high"
    ensures c.Some? ==> c.value == PriorityColors[priority]
  {
    if priority in PriorityColors then Some(PriorityColors[priority]) else None
  }

  /**
   * The grid and the list colour and mark the same priority differently:
   * medium is yellow-500 with a triangle in the grid, yellow-600 with a
   * circle in the list.
   */
  lemma GridAndListDiffer()
    ensures PriorityColor("medium") != RowColor("medium").value
    ensures PriorityIcon("medium") != PriorityIcons["medium"]
    ensures PriorityColor("low") == RowColor("low").value && PriorityIcon("low") == PriorityIcons["low"]
  {
  }

  const RadarLabels: seq<string> := ["Protein", "Karbo", "Lemak", "Serat"]

  /** The radar dataset, in the order of its labels. */
  function RadarData(a: Analysis): (d: seq<real>)
    ensures |d| == |RadarLabels| == 4
    ensures d[0] == a.totalProtein && d[1] == a.totalCarbs && d[2] == a.totalFat && d[3] == a.totalFiber
  {
    [a.totalProtein, a.totalCarbs, a.totalFat, a.totalFiber]
  }

  /** Every radar label names the nutrient its value measures. */
  lemma RadarPairs(a: Analysis, i: int)
    requires 0 <= i < 4
    ensures RadarLabels[i] == "Protein" ==> RadarData(a)[i] == a.totalProtein
    ensures RadarLabels[i] == "Karbo" ==> RadarData(a)[i] == a.totalCarbs
    ensures RadarLabels[i] == "Lemak" ==> RadarData(a)[i] == a.totalFat
    ensures RadarLabels[i] == "Serat" ==> RadarData(a)[i] == a.totalFiber
  {
  }

  /**
   * The analysis `useQuery`: it runs only for a non-empty session id
   * (`enabled: !!sessionId`), is cached under `["scan-analisis", id]` and
   * fetches the session's `/analysis`.
   */
  function AnalysisQuery(props: AnalysisProps): (q: Option<Query>)
    ensures q.Some? <==> props.sessionId.Some? && props.sessionId.value != ""
    ensures q.Some? ==> q.value == Query([ScanAnalysisRoot, props.sessionId.value], "/scan/" + props.sessionId.value + "/analysis")
  {
    IdQuery(ScanAnalysisRoot, "/scan/", "/analysis", props.sessionId)
  }

  /**
   * `responseData?.health_tips?.length ? … : null`: the tips listed, one
   * entry per tip in the server's order. Before the data arrives, and for
   * an empty list, the box is not rendered at all.
   */
  function ShownHealthTips(a: Option<Analysis>): (tips: seq<string>)
    ensures tips != [] <==> a.Some? && a.value.healthTips != []
    ensures a.Some? ==> tips == a.value.healthTips
  {
    if a.Some? then a.value.healthTips else []
  }

  /** The allergen box, under the same rule as the tips. */
  function ShownAllergens(a: Option<Analysis>): (warnings: seq<string>)
    ensures warnings != [] <==> a.Some? && a.value.allergenWarnings != []
    ensures a.Some? ==> warnings == a.value.allergenWarnings
  {
    if a.Some? then a.value.allergenWarnings else []
  }
}
