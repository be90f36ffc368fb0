/**
 * components/scan/modal-confirm.tsx: the dialog that turns a scan session's
 * detected items into a meal. The session's items are copied into form
 * items, the meal type and label are suggested from the local hour, the
 * total calories are summed as the user edits, and a valid form is posted
 * to `/scan/<id>/confirm`; the parent's `onConfirm` runs only when that
 * request succeeds.
 */
module ModalConfirm {
  import opened Wrappers
  import opened CivilDates
  import opened Text
  import opened FormRules
  import opened MealClock
  import opened Queries

  /** The macro values of a scan item, copied through untouched. */
  datatype Macros = Macros(protein: Option<real>, carbs: Option<real>, fat: Option<real>)

  /** One detected item of a scan session (`Meals`); `calories` may be missing. */
  datatype ScanItem = ScanItem(id: string, nameFinal: string, calories: NumField, macros: Macros)

  /**
   * One item of the form. `quantity` is the number its text reads as; the
   * calories input yields text, so after an edit it may not read as a number.
   */
  datatype FormItem = FormItem(
    scanItemId: string, quantity: NumField, unit: string, nameFinal: string, notes: string,
    calories: NumField, macros: Macros)

  datatype FormValues = FormValues(mealType: string, mealLabel: string, eatenAt: string, items: seq<FormItem>)

  const DefaultQuantity := Num(1.0)
  const DefaultUnit := "porsi"
  const ScanSessionPrefix := "/scan/"

  /** The form item a scan item starts as. */
  function ToFormItem(item: ScanItem): (f: FormItem)
    ensures f.scanItemId == item.id && f.nameFinal == item.nameFinal
    ensures f.calories == item.calories && f.macros == item.macros
    ensures f.quantity == Num(1.0) && f.unit == "porsi" && f.notes == ""
  {
    FormItem(item.id, DefaultQuantity, DefaultUnit, item.nameFinal, "", item.calories, item.macros)
  }

  /** `scanItems.map(...)`: one form item per scan item, in the same order. */
  function ToFormItems(items: seq<ScanItem>): (r: seq<FormItem>)
    ensures |r| == |items|
    ensures forall i :: 0 <= i < |items| ==> r[i] == ToFormItem(items[i])
  {
    seq(|items|, i requires 0 <= i < |items| => ToFormItem(items[i]))
  }

  /** JavaScript addition where `NaN` absorbs everything. */
  function AddOrNaN(a: Option<real>, b: Option<real>): (r: Option<real>)
    ensures r.Some? <==> a.Some? && b.Some?
    ensures r.Some? ==> r.value == a.value + b.value
  {
    if a.Some? && b.Some? then Some(a.value + b.value) else None
  }

  /**
   * `reduce((t, x) => t + Number(x.calories_kcal || 0), 0)` over the items,
   * left to right; `None` is `NaN`.
   */
  function TotalCalories(items: seq<FormItem>): (r: Option<real>)
    ensures r.Some? <==> forall i :: 0 <= i < |items| ==> !items[i].calories.NotANumber?
  {
    if items == [] then Some(0.0)
    else
      var init := items[..|items| - 1];
      assert forall i :: 0 <= i < |init| ==> init[i] == items[i];
      AddOrNaN(TotalCalories(init), ToNumber(items[|items| - 1].calories))
  }

  /** The sum of the items' calories, counting a missing value as 0, when every value reads as a number. */
  function CalorieSum(items: seq<FormItem>): real
    requires forall i :: 0 <= i < |items| ==> !items[i].calories.NotANumber?
  {
    if items == [] then 0.0
    else
      var head := items[0].calories;
      (if head.Num? then head.value else 0.0) + CalorieSum(items[1..])
  }

  /** Summing a concatenation adds the two totals. */
  lemma {:induction false} TotalAppend(a: seq<FormItem>, b: seq<FormItem>)
    ensures TotalCalories(a + b) == AddOrNaN(TotalCalories(a), TotalCalories(b))
    decreases |b|
  {
    if b == [] {
      assert a + b == a;
      if TotalCalories(a).Some? {
        assert TotalCalories(a).value + 0.0 == TotalCalories(a).value;
      }
    } else {
      var init := b[..|b| - 1];
      assert (a + b)[..|a + b| - 1] == a + init;
      assert (a + b)[|a + b| - 1] == b[|b| - 1];
      TotalAppend(a, init);
    }
  }

  /**
   * The total shown is the sum of the calories, missing values counted as 0,
   * whenever every value reads as a number.
   */
  lemma {:induction false} TotalIsSum(items: seq<FormItem>)
    requires forall i :: 0 <= i < |items| ==> !items[i].calories.NotANumber?
    ensures TotalCalories(items) == Some(CalorieSum(items))
  {
    if items != [] {
      var rest := items[1..];
      assert items == [items[0]] + rest;
      TotalAppend([items[0]], rest);
      TotalIsSum(rest);
      assert [items[0]][..0] == [];
    }
  }

  /**
   * `defaultValues`: lunch, "Makan siang dari scan", `toISOString().slice(0, 16)`
   * of the current instant (a UTC reading), and the items of whatever data
   * is already loaded.
   */
  function Defaults(utc: LocalTime, items: seq<ScanItem>): (v: FormValues)
    requires ValidTime(utc)
    ensures v.mealType == MealTypeValue(Lunch) && v.mealLabel == "Makan siang dari scan"
    ensures |v.eatenAt| == 16
    ensures v.items == ToFormItems(items)
  {
    FormValues("lunch", "Makan siang dari scan", IsoMinute(utc), ToFormItems(items))
  }

  /** `toISOString().slice(0, 16)`: the first sixteen characters of the UTC rendering. */
  function IsoMinute(utc: LocalTime): (s: string)
    requires ValidTime(utc)
    ensures |s| == 16
  {
    var full := FormatIso(utc.date) + "T" + Fixed(utc.hour, 2) + ":" + Fixed(utc.minute, 2);
    assert |IsoYear(utc.date.year)| >= 4;
    full[..16]
  }

  /**
   * For a four-digit year, the default and the session's prefilled time
   * have the same format: the same clock reading renders identically; they
   * differ only in which clock (UTC or local) is read.
   */
  lemma IsoMinuteIsDateTimeLocal(t: LocalTime)
    requires ValidTime(t) && 1000 <= t.date.year <= 9999
    ensures IsoMinute(t) == DateTimeLocal(t)
  {
    DateTimeLocalShape(t);
    var s := DateTimeLocal(t);
    assert s == s[..10] + "T" + s[11..13] + ":" + s[14..16];
  }

  /** The label the session prefill writes: "Makan <label> dari scan". */
  function PrefillLabel(m: MealType): (s: string)
    ensures |s| == |MealTypeLabel(m)| + 16 && s[6..|s| - 10] == MealTypeLabel(m)
    ensures |s| > 16 && s[..6] == "Makan " && s[|s| - 10..] == " dari scan"
  {
    "Makan " + MealTypeLabel(m) + " dari scan"
  }

  /** The label determines the meal type it was built from. */
  lemma PrefillLabelInjective(a: MealType, b: MealType)
    ensures PrefillLabel(a) == PrefillLabel(b) <==> a == b
  {
    if PrefillLabel(a) == PrefillLabel(b) {
      var n := |PrefillLabel(a)|;
      assert MealTypeLabel(a) == PrefillLabel(a)[6..n - 10];
      assert MealTypeLabel(b) == PrefillLabel(b)[6..n - 10];
      MealTypeNamesInjective(a, b);
    }
  }

  /** The first session effect: with a session id, meal type, label and time come from the local clock. */
  function SessionPrefill(v: FormValues, sessionId: string, now: LocalTime): (r: FormValues)
    requires ValidTime(now)
    ensures sessionId == "" ==> r == v
    ensures sessionId != "" ==> exists m: MealType ::
      m == AutoMealType(now.hour) && r.mealType == MealTypeValue(m) && r.mealLabel == PrefillLabel(m)
    ensures sessionId != "" ==> r.eatenAt == DateTimeLocal(now) && r.items == v.items
  {
    if sessionId == "" then v
    else
      var m := AutoMealType(now.hour);
      v.(mealType := MealTypeValue(m), mealLabel := PrefillLabel(m), eatenAt := DateTimeLocal(now))
  }

  /** The prefilled meal type and label name the same hour bucket. */
  lemma PrefillAgrees(v: FormValues, sessionId: string, now: LocalTime, m: MealType)
    requires ValidTime(now) && sessionId != ""
    requires SessionPrefill(v, sessionId, now).mealType == MealTypeValue(m)
    ensures SessionPrefill(v, sessionId, now).mealLabel == PrefillLabel(m)
    ensures m == AutoMealType(now.hour)
  {
    MealTypeNamesInjective(m, AutoMealType(now.hour));
  }

  /** The items effect: a non-empty answer replaces the items; an empty one leaves them. */
  function ItemsArrived(v: FormValues, items: seq<ScanItem>): (r: FormValues)
    ensures |items| > 0 ==> r.items == ToFormItems(items)
    ensures |items| == 0 ==> r == v
    ensures r.mealType == v.mealType && r.mealLabel == v.mealLabel && r.eatenAt == v.eatenAt
  {
    if |items| > 0 then v.(items := ToFormItems(items)) else v
  }

  /**
   * The label and each item's name are `{ required: true }`: the rule
   * `SaveMealsModal.EatenAtError`, `RegisterForm.NameError` and
   * `OnboardingForm.NameError` also apply to their fields.
   */
  function LabelError(text: string): (e: Option<RuleError>)
    ensures e == None <==> text != ""
  {
    TextRule(text, true, 0)
  }

  function NameError(name: string): (e: Option<RuleError>)
    ensures e == None <==> name != ""
  {
    TextRule(name, true, 0)
  }

  /** Calories: required, then at least 1. */
  function CaloriesError(calories: NumField): (e: Option<RuleError>)
    ensures e == None <==> calories.NotANumber? || (calories.Num? && calories.value >= 1.0)
    ensures e == Some(Required) <==> calories.Blank?
  {
    NumberRule(calories, true, 1.0)
  }

  /** Quantity: required, then at least 1, the same rule as the calories. */
  function QuantityError(quantity: NumField): (e: Option<RuleError>)
    ensures e == None <==> quantity.NotANumber? || (quantity.Num? && quantity.value >= 1.0)
    ensures e == Some(Required) <==> quantity.Blank?
  {
    NumberRule(quantity, true, 1.0)
  }

  /** A number input that passes `min: 1`: at least 1, or text `min` skips as `NaN`. */
  predicate AtLeastOneOrNaN(f: NumField) {
    f.NotANumber? || (f.Num? && f.value >= 1.0)
  }

  /** An item passes its rules: a name, and calories and quantity that are not blank or below 1. */
  function ItemValid(item: FormItem): (ok: bool)
    ensures ok <==> item.nameFinal != "" && AtLeastOneOrNaN(item.calories) && AtLeastOneOrNaN(item.quantity)
    ensures ok ==> !item.calories.Blank? && !item.quantity.Blank?
  {
    NameError(item.nameFinal) == None && CaloriesError(item.calories) == None &&
    QuantityError(item.quantity) == None
  }

  /**
   * `handleSubmit` lets the form through when the label and every item pass
   * their rules. The items array has no rule of its own, so a labelled form
   * without items goes through.
   */
  function FormValid(v: FormValues): (ok: bool)
    ensures ok <==> v.mealLabel != "" && forall i :: 0 <= i < |v.items| ==>
      v.items[i].nameFinal != "" && AtLeastOneOrNaN(v.items[i].calories) && AtLeastOneOrNaN(v.items[i].quantity)
    ensures v.items == [] ==> (ok <==> v.mealLabel != "")
  {
    LabelError(v.mealLabel) == None && forall i :: 0 <= i < |v.items| ==> ItemValid(v.items[i])
  }

  /**
   * A scan item with a name and at least one calorie passes every item rule
   * as it is copied: the defaults for quantity, unit and notes never block
   * the submit.
   */
  lemma CopiedItemValid(item: ScanItem)
    requires item.nameFinal != "" && item.calories.Num? && item.calories.value >= 1.0
    ensures ItemValid(ToFormItem(item))
  {
  }

  /** An item without calories or with fewer than one blocks the submit. */
  lemma MissingCaloriesBlock(v: FormValues, i: int)
    requires 0 <= i < |v.items|
    requires v.items[i].calories.Blank? || (v.items[i].calories.Num? && v.items[i].calories.value < 1.0)
    ensures !FormValid(v)
  {
    assert !ItemValid(v.items[i]);
  }

  /** The request path of `useCreateMeal`. */
  function ConfirmUrl(sessionId: string): (u: string)
    ensures |u| == |sessionId| + 14
    ensures u[..6] == ScanSessionPrefix && u[6..|u| - 8] == sessionId && u[|u| - 8..] == "/confirm"
  {
    ScanSessionPrefix + sessionId + "/confirm"
  }

  /** Confirmations of different sessions are posted to different paths. */
  lemma ConfirmUrlsDistinct(a: string, b: string)
    ensures ConfirmUrl(a) == ConfirmUrl(b) <==> a == b
  {
    AffixInjective(ScanSessionPrefix, a, b, "/confirm");
  }

  /**
   * The session `useQuery`: it runs only for a non-empty id (`enabled:
   * !!sessionId`), is cached under `["scan-session", id]` and fetches
   * "/scan/" + id.
   */
  function SessionQuery(sessionId: string): (q: Option<Query>)
    ensures q.Some? <==> sessionId != ""
    ensures q.Some? ==> q.value == Query([ScanSessionRoot, sessionId], ScanSessionPrefix + sessionId)
  {
    assert ScanSessionPrefix + sessionId + "" == ScanSessionPrefix + sessionId;
    IdQuery(ScanSessionRoot, ScanSessionPrefix, "", Some(sessionId))
  }

  /** The fields disabled while a request is pending are the same in `a` and `b`. */
  predicate LockedFieldsKept(a: FormValues, b: FormValues) {
    a.mealLabel == b.mealLabel && |a.items| == |b.items| &&
    forall i :: 0 <= i < |a.items| ==> a.items[i].nameFinal == b.items[i].nameFinal && a.items[i].calories == b.items[i].calories
  }

  const ConfirmFailedMessage := "Terjadi kesalahan saat mengirim data"

  /** The dialog: its form values, the pending request, and what it has sent and reported. */
  class ConfirmDialog {
    const sessionId: string
    var values: FormValues
    var pending: bool
    /** The requests posted, oldest first. */
    var sent: seq<Post<FormValues>>
    /** How many times the parent's `onConfirm` ran. */
    var confirmed: nat
    var toasts: seq<Toast>

    /** First render: the defaults, before any session data is loaded. */
    constructor (sessionId: string, utc: LocalTime)
      requires ValidTime(utc)
      ensures this.sessionId == sessionId && values == Defaults(utc, [])
      ensures !pending && sent == [] && confirmed == 0 && toasts == []
    {
      this.sessionId := sessionId;
      values := Defaults(utc, []);
      pending := false;
      sent := [];
      confirmed := 0;
      toasts := [];
    }

    /** The effect keyed on the session id. */
    method SessionEffect(now: LocalTime)
      requires ValidTime(now)
      modifies this
      ensures values == SessionPrefill(old(values), sessionId, now)
      ensures pending == old(pending) && sent == old(sent) && confirmed == old(confirmed) && toasts == old(toasts)
    {
      values := SessionPrefill(values, sessionId, now);
    }

    /** The effect keyed on the session's items. */
    method ItemsEffect(items: seq<ScanItem>)
      modifies this
      ensures values == ItemsArrived(old(values), items)
      ensures pending == old(pending) && sent == old(sent) && confirmed == old(confirmed) && toasts == old(toasts)
    {
      values := ItemsArrived(values, items);
    }

    /**
     * The user edits a field. While the request is pending the label and
     * each item's name and calories are disabled; the meal type, the time
     * and each item's quantity, unit and notes stay editable.
     */
    method Edit(v: FormValues)
      requires !pending || LockedFieldsKept(values, v)
      modifies this
      ensures values == v
      ensures pending == old(pending) && sent == old(sent) && confirmed == old(confirmed) && toasts == old(toasts)
    {
      values := v;
    }

    /** The submit button, disabled while a request is pending, then `handleSubmit`. */
    method Submit()
      modifies this
      ensures !old(pending) && FormValid(old(values)) ==> sent == old(sent) + [Post(ConfirmUrl(sessionId), old(values))] && pending
      ensures old(pending) || !FormValid(old(values)) ==> sent == old(sent) && pending == old(pending)
      ensures values == old(values) && confirmed == old(confirmed) && toasts == old(toasts)
    {
      if !pending && FormValid(values) {
        sent := sent + [Post(ConfirmUrl(sessionId), values)];
        pending := true;
      }
    }

    /** The request settles: success runs `onConfirm`; failure only toasts. */
    method Settle(ok: bool)
      requires pending
      modifies this
      ensures !pending && values == old(values) && sent == old(sent)
      ensures ok ==> confirmed == old(confirmed) + 1 && toasts == old(toasts)
      ensures !ok ==> confirmed == old(confirmed) && toasts == old(toasts) + [Toast(ConfirmFailedMessage, ErrorToast)]
    {
      pending := false;
      if ok {
        confirmed := confirmed + 1;
      } else {
        toasts := toasts + [Toast(ConfirmFailedMessage, ErrorToast)];
      }
    }
  }
}
