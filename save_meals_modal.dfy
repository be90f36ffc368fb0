/**
 * components/save-meals-modal.tsx: the dialog that records a recipe as an
 * eaten meal. Opening it resets the form to the meal type of the current
 * hour, the current local time, the caller's label and servings and no
 * notes; a valid form is posted to `/recipes/<id>/add-to-meal`, and a
 * success refreshes the calorie history and chart before telling the
 * caller. The clock is a parameter.
 */
module SaveMealsModal {
  import opened Wrappers
  import opened FormRules
  import opened MealClock
  import opened Queries
  import opened Text

  /** The optional props: `defaultLabel` (default "") and `servings` (default 1). */
  datatype Props = Props(recipeId: string, defaultLabel: Option<string>, servings: Option<real>)

  /** `SaveMealForm`; `servings` is read with `valueAsNumber`. */
  datatype SaveMealForm = SaveMealForm(mealType: MealType, mealLabel: string, eatenAt: string, servings: NumField, notes: string)

  const SavedMessage := "Berhasil disimpan ke catatan makan!"
  const FailedMessage := "Gagal menyimpan data."

  function DefaultLabel(props: Props): (s: string)
    ensures props.defaultLabel.None? ==> s == ""
    ensures props.defaultLabel.Some? ==> s == props.defaultLabel.value
  {
    props.defaultLabel.GetOr("")
  }

  function Servings(props: Props): (n: real)
    ensures props.servings.None? ==> n == 1.0
    ensures props.servings.Some? ==> n == props.servings.value
  {
    props.servings.GetOr(1.0)
  }

  /** `defaultValues`, before the dialog is first opened: lunch and no time yet. */
  function Initial(props: Props): (f: SaveMealForm)
    ensures f.mealType == Lunch && f.eatenAt == "" && f.notes == ""
    ensures f.mealLabel == DefaultLabel(props) && f.servings == Num(Servings(props))
  {
    SaveMealForm(Lunch, DefaultLabel(props), "", Num(Servings(props)), "")
  }

  /** The `reset` of the open effect: the hour's meal type, the current local time, the props, no notes. */
  function OnOpen(props: Props, now: LocalTime): (f: SaveMealForm)
    requires ValidTime(now)
    ensures f.mealType == AutoMealType(now.hour) && f.eatenAt == DateTimeLocal(now) && f.notes == ""
    ensures f.mealLabel == DefaultLabel(props) && f.servings == Num(Servings(props))
  {
    SaveMealForm(AutoMealType(now.hour), DefaultLabel(props), DateTimeLocal(now), Num(Servings(props)), "")
  }

  /** Label: required, then at least three UTF-16 code units. */
  function LabelError(text: string): (e: Option<RuleError>)
    ensures e == None <==> Utf16Length(text) >= 3
    ensures e == Some(Required) <==> text == ""
    ensures e == Some(TooShort) <==> text != "" && Utf16Length(text) < 3
  {
    TextRule(text, true, 3)
  }

  /** `{ required: true }`, the rule of `ModalConfirm.LabelError`. */
  function EatenAtError(eatenAt: string): (e: Option<RuleError>)
    ensures e == None <==> eatenAt != ""
  {
    TextRule(eatenAt, true, 0)
  }

  /** Servings: required, then at least 1. */
  function ServingsError(servings: NumField): (e: Option<RuleError>)
    ensures e == None <==> servings.NotANumber? || (servings.Num? && servings.value >= 1.0)
    ensures e == Some(Required) <==> servings.Blank?
    ensures e == Some(BelowMin) <==> servings.Num? && servings.value < 1.0
  {
    NumberRule(servings, true, 1.0)
  }

  /** Notes are optional, but a note that is given needs five UTF-16 code units. */
  function NotesError(notes: string): (e: Option<RuleError>)
    ensures e == None <==> notes == "" || Utf16Length(notes) >= 5
    ensures e == Some(TooShort) <==> notes != "" && Utf16Length(notes) < 5
  {
    TextRule(notes, false, 5)
  }

  predicate FormValid(f: SaveMealForm) {
    LabelError(f.mealLabel) == None && EatenAtError(f.eatenAt) == None &&
    ServingsError(f.servings) == None && NotesError(f.notes) == None
  }

  /**
   * Right after opening, the form can be saved as it stands exactly when
   * the caller's label is three UTF-16 code units long or more and its servings are at least 1.
   */
  lemma OpenedFormValid(props: Props, now: LocalTime)
    requires ValidTime(now)
    ensures FormValid(OnOpen(props, now)) <==> Utf16Length(DefaultLabel(props)) >= 3 && Servings(props) >= 1.0
  {
    var s := DateTimeLocal(now);
    assert s[|s| - 3] == ':';
  }

  /** Before the first open the time is empty, so that form cannot be saved. */
  lemma InitialFormInvalid(props: Props)
    ensures !FormValid(Initial(props))
    ensures EatenAtError(Initial(props).eatenAt) == Some(Required)
  {
  }

  function AddToMealUrl(recipeId: string): (u: string)
    ensures |u| == |recipeId| + 21
    ensures u[..9] == "/recipes/" && u[9..|u| - 12] == recipeId && u[|u| - 12..] == "/add-to-meal"
  {
    "/recipes/" + recipeId + "/add-to-meal"
  }

  /** Meals saved from different recipes are posted to different paths. */
  lemma AddToMealUrlsDistinct(a: string, b: string)
    ensures AddToMealUrl(a) == AddToMealUrl(b) <==> a == b
  {
    AffixInjective("/recipes/", a, b, "/add-to-meal");
  }

  /** The caches a saved meal marks stale. */
  function SavedInvalidations(): (roots: set<string>)
    ensures roots == {CalorieHistoryRoot, CalorieChartRoot}
  {
    {CalorieHistoryRoot, CalorieChartRoot}
  }

  /** The dialog's form, its open flag and body lock, and what it has sent and reported. */
  class SaveMealDialog {
    const props: Props
    var isOpen: bool
    var values: SaveMealForm
    /** `overflow-hidden` on the document body. */
    var scrollLocked: bool
    /** The requests posted, oldest first. */
    var sent: seq<Post<SaveMealForm>>
    /** Posted requests that have not settled yet. */
    var inFlight: nat
    var invalidated: set<string>
    /** How many times the caller's `onSuccess` ran. */
    var successCalls: nat
    var toasts: seq<Toast>

    predicate Valid()
      reads this
    {
      scrollLocked == isOpen
    }

    /** `if (!isOpen) return null`. */
    predicate Renders()
      reads this
    {
      isOpen
    }

    constructor (props: Props)
      ensures Valid() && this.props == props && !isOpen && values == Initial(props)
      ensures sent == [] && inFlight == 0 && invalidated == {} && successCalls == 0 && toasts == []
    {
      inFlight := 0;
      this.props := props;
      isOpen := false;
      values := Initial(props);
      scrollLocked := false;
      sent := [];
      invalidated := {};
      successCalls := 0;
      toasts := [];
    }

    /** The caller opens the dialog: both effects keyed on `isOpen` run. */
    method Open(now: LocalTime)
      requires ValidTime(now) && Valid() && !isOpen
      modifies this
      ensures Valid() && isOpen && values == OnOpen(props, now)
      ensures sent == old(sent) && inFlight == old(inFlight) && invalidated == old(invalidated) && successCalls == old(successCalls) && toasts == old(toasts)
    {
      isOpen := true;
      values := OnOpen(props, now);
      scrollLocked := true;
    }

    /** The caller closes the dialog (after `onClose`): the lock is released and the form kept. */
    method Close()
      requires Valid()
      modifies this
      ensures Valid() && !isOpen && values == old(values)
      ensures sent == old(sent) && inFlight == old(inFlight) && invalidated == old(invalidated) && successCalls == old(successCalls) && toasts == old(toasts)
    {
      isOpen := false;
      scrollLocked := false;
    }

    method Edit(f: SaveMealForm)
      requires Valid() && isOpen
      modifies this
      ensures Valid() && isOpen && values == f
      ensures sent == old(sent) && inFlight == old(inFlight) && invalidated == old(invalidated) && successCalls == old(successCalls) && toasts == old(toasts)
    {
      values := f;
    }

    /**
     * `handleSubmit(onSubmit)`: a valid form is posted. The button is only
     * disabled while `handleSubmit` itself runs, not while the request is
     * in flight, so nothing here waits for an earlier request.
     */
    method Submit()
      requires Valid() && isOpen
      modifies this
      ensures FormValid(old(values)) ==>
        sent == old(sent) + [Post(AddToMealUrl(props.recipeId), old(values))] && inFlight == old(inFlight) + 1
      ensures !FormValid(old(values)) ==> sent == old(sent) && inFlight == old(inFlight)
      ensures Valid() && isOpen && values == old(values)
      ensures invalidated == old(invalidated) && successCalls == old(successCalls) && toasts == old(toasts)
    {
      if FormValid(values) {
        sent := sent + [Post(AddToMealUrl(props.recipeId), values)];
        inFlight := inFlight + 1;
      }
    }

    /**
     * One posted request settles. The callbacks are the hook's own, so they
     * run for every request, even one sent before a later one or settling
     * after the dialog closed: success toasts, refreshes both calorie
     * caches and calls `onSuccess`; an error only toasts.
     */
    method Settle(ok: bool)
      requires Valid() && inFlight > 0
      modifies this
      ensures ok ==> (invalidated == old(invalidated) + SavedInvalidations() && successCalls == old(successCalls) + 1 &&
                      toasts == old(toasts) + [Toast(SavedMessage, SuccessToast)])
      ensures !ok ==> (invalidated == old(invalidated) && successCalls == old(successCalls) &&
                       toasts == old(toasts) + [Toast(FailedMessage, ErrorToast)])
      ensures Valid() && isOpen == old(isOpen) && values == old(values) && sent == old(sent)
      ensures inFlight == old(inFlight) - 1
    {
      inFlight := inFlight - 1;
      if ok {
        toasts := toasts + [Toast(SavedMessage, SuccessToast)];
        invalidated := invalidated + SavedInvalidations();
        successCalls := successCalls + 1;
      } else {
        toasts := toasts + [Toast(FailedMessage, ErrorToast)];
      }
    }
  }

  /** A saved meal refreshes the calorie lists and charts, and never the weight or user caches. */
  lemma SavedMealRefreshesCalories(key: seq<string>)
    requires |key| > 0
    ensures Invalidates(SavedInvalidations(), key) <==> key[0] == CalorieHistoryRoot || key[0] == CalorieChartRoot
  {
  }
}
