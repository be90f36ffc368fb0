/**
 * components/dahboard/generate-menu.tsx: the "Buat Menu" flow. The user
 * picks a cooking method, a main ingredient, a cuisine, a budget level and
 * a number of servings; the request goes to `/recipes/requests`, and the
 * request id it returns is kept in component state and in `localStorage`
 * so the generated recipes can be fetched again later. A recipe can be
 * opened and then saved as an eaten meal through the save-meal dialog.
 * `localStorage` is the field `storage` (the one key the component uses).
 */
module GenerateMenu {
  import opened Wrappers
  import opened FormRules
  import opened Queries
  import SaveMealsModal

  datatype BudgetLevel = Hemat | Sedang | Mahal

  datatype Budget = Budget(min: nat, max: nat)

  /** `budgetMap`. */
  function BudgetRange(level: BudgetLevel): (b: Budget)
    ensures b.min < b.max
    ensures level == Hemat ==> b.min == 0
    ensures level == Mahal ==> b.max == 100000
  {
    match level
    case Hemat => Budget(0, 25000)
    case Sedang => Budget(25000, 50000)
    case Mahal => Budget(50000, 100000)
  }

  /**
   * Every amount below 100000 falls in exactly one level's half-open
   * range: the three ranges leave no gap and do not overlap.
   */
  lemma BudgetLevelsPartition(amount: nat, a: BudgetLevel, b: BudgetLevel)
    requires amount < 100000
    ensures exists l: BudgetLevel :: BudgetRange(l).min <= amount < BudgetRange(l).max
    ensures BudgetRange(a).min <= amount < BudgetRange(a).max && BudgetRange(b).min <= amount < BudgetRange(b).max ==> a == b
  {
    if amount < 25000 {
      assert BudgetRange(Hemat).min <= amount < BudgetRange(Hemat).max;
    } else if amount < 50000 {
      assert BudgetRange(Sedang).min <= amount < BudgetRange(Sedang).max;
    } else {
      assert BudgetRange(Mahal).min <= amount < BudgetRange(Mahal).max;
    }
  }

  /** The form state of the modal; `servings` is the number the text reads as. */
  datatype MenuForm = MenuForm(
    cookingMethod: string, foodType: string, cuisine: string, servings: NumField,
    budgetLevel: BudgetLevel, dietRestrictions: seq<string>)

  /** `RequestGenerateMenu`; `servings` is `None` where `Number(...)` is `NaN`. */
  datatype MenuRequest = MenuRequest(
    cookingMethod: string, foodType: string, cuisine: string, budgetMin: nat, budgetMax: nat,
    maxCalories: real, servings: Option<real>, dietRestrictions: seq<string>)

  /** A generated recipe, as far as the flow uses it. */
  datatype Recipe = Recipe(id: string, title: string, caloriesPerServing: real, servings: real)

  const StorageKey := "last_recipe_request_id"
  const RequestsUrl := "/recipes/requests"

  /** The initial form: steamed, chicken, Indonesian, one serving, the middle budget, no restrictions. */
  const InitialForm := MenuForm("steamed", "chicken", "indonesian", Num(1.0), Sedang, [])

  /** The request body `handleSubmit` builds from the form. */
  function Body(form: MenuForm, maxCalories: real): (r: MenuRequest)
    ensures r.cookingMethod == form.cookingMethod && r.foodType == form.foodType && r.cuisine == form.cuisine
    ensures r.budgetMin == BudgetRange(form.budgetLevel).min && r.budgetMax == BudgetRange(form.budgetLevel).max
    ensures r.budgetMin < r.budgetMax
    ensures r.maxCalories == maxCalories && r.dietRestrictions == form.dietRestrictions
    ensures r.servings == ToNumber(form.servings)
  {
    var b := BudgetRange(form.budgetLevel);
    MenuRequest(form.cookingMethod, form.foodType, form.cuisine, b.min, b.max, maxCalories,
                ToNumber(form.servings), form.dietRestrictions)
  }

  /**
   * `Number(servings || "") < 1`: the warning under the servings input. A
   * blank field reads as 0 and is warned about; text that is not a number
   * reads as `NaN`, and `NaN < 1` is false.
   */
  function ServingsWarning(servings: NumField): (shown: bool)
    ensures shown <==> servings.Blank? || (servings.Num? && servings.value < 1.0)
  {
    var n := ToNumber(servings);
    n.Some? && n.value < 1.0
  }

  /**
   * `useMenus`: the result list of a request runs only for a non-empty
   * request id, is cached under `["menus", id]` and fetches the request's
   * `/result`.
   */
  function MenusQuery(recipeId: Option<string>): (q: Option<Query>)
    ensures q.Some? <==> recipeId.Some? && recipeId.value != ""
    ensures q.Some? ==> q.value == Query([MenusRoot, recipeId.value], "/recipes/requests/" + recipeId.value + "/result")
  {
    IdQuery(MenusRoot, "/recipes/requests/", "/result", recipeId)
  }

  /** The save-meal dialog's props for a recipe: its id, its title as the label and its servings. */
  function SaveProps(r: Recipe): (p: SaveMealsModal.Props)
    ensures p.recipeId == r.id
    ensures SaveMealsModal.DefaultLabel(p) == r.title && SaveMealsModal.Servings(p) == r.servings
  {
    SaveMealsModal.Props(r.id, Some(r.title), Some(r.servings))
  }

  const AnalysingMessage := "Menganalisis..."
  const GeneratedMessage := "Resep berhasil dibuat!"
  const GenerateFailedMessage := "Gagal membuat resep. Coba lagi nanti."
  /** The error toast of the generate hook itself, shown before the call's own. */
  const HookFailedMessage := "Terjadi kesalahan saat Membuat Menu"

  /** `if (lastId) setRecipeId(lastId)`: a stored, non-empty id replaces the current one. */
  function Restored(current: Option<string>, storage: Option<string>): (r: Option<string>)
    ensures storage.Some? && storage.value != "" ==> r == storage
    ensures storage.None? || storage.value == "" ==> r == current
  {
    if storage.Some? && storage.value != "" then storage else current
  }

  /** The component: its six pieces of state, the form, the pending request, storage and the body lock. */
  class MenuPlanner {
    const maxCalories: real
    var isModalOpen: bool
    var recipeId: Option<string>
    var isRecipeModalOpen: bool
    var isSaveModalOpen: bool
    var selectedRecipe: Option<Recipe>
    var form: MenuForm
    var pending: bool
    /** `localStorage["last_recipe_request_id"]`. */
    var storage: Option<string>
    /** `overflow-hidden` on the document body. */
    var scrollLocked: bool
    /** The bodies posted to `/recipes/requests`, oldest first. */
    var sent: seq<MenuRequest>
    var toasts: seq<Toast>
    /**
     * Saves the save-meal dialog has posted that have not settled. The
     * dialog's hook-level `onSuccess` calls back into this component even
     * when the dialog was closed (and unmounted) after posting.
     */
    var savesInFlight: nat

    /** The lock is held exactly while one of the three dialogs is open. */
    predicate Valid()
      reads this
    {
      scrollLocked == (isModalOpen || isRecipeModalOpen || isSaveModalOpen)
    }

    /** The save-meal dialog is mounted only with a selected recipe and its flag set. */
    predicate SaveDialogShown()
      reads this
    {
      selectedRecipe.Some? && isSaveModalOpen
    }

    /** The recipe dialog is shown only with a selected recipe and its flag set. */
    predicate RecipeDialogShown()
      reads this
    {
      isRecipeModalOpen && selectedRecipe.Some?
    }

    /** Mounting: the initial state, then the storage effect restores a saved request id. */
    constructor (maxCalories: real, storage: Option<string>)
      ensures Valid() && this.maxCalories == maxCalories && this.storage == storage
      ensures !isModalOpen && !isRecipeModalOpen && !isSaveModalOpen && selectedRecipe.None?
      ensures recipeId == Restored(None, storage) && form == InitialForm
      ensures Body(form, maxCalories).servings == Some(1.0)
      ensures Body(form, maxCalories).budgetMin == 25000 && Body(form, maxCalories).budgetMax == 50000
      ensures !pending && sent == [] && toasts == [] && savesInFlight == 0
    {
      this.maxCalories := maxCalories;
      isModalOpen := false;
      recipeId := Restored(None, storage);
      isRecipeModalOpen := false;
      isSaveModalOpen := false;
      selectedRecipe := None;
      form := InitialForm;
      pending := false;
      this.storage := storage;
      scrollLocked := false;
      sent := [];
      toasts := [];
      savesInFlight := 0;
    }

    /** Sets the form dialog's flag; when it changes, the storage effect runs again. */
    method SetModalOpen(open: bool)
      requires Valid()
      modifies this
      ensures Valid() && isModalOpen == open
      ensures open != old(isModalOpen) ==> recipeId == Restored(old(recipeId), storage)
      ensures open == old(isModalOpen) ==> recipeId == old(recipeId)
      ensures isRecipeModalOpen == old(isRecipeModalOpen) && isSaveModalOpen == old(isSaveModalOpen)
      ensures selectedRecipe == old(selectedRecipe) && form == old(form) && pending == old(pending)
      ensures storage == old(storage) && sent == old(sent) && toasts == old(toasts) && savesInFlight == old(savesInFlight)
    {
      if open != isModalOpen {
        isModalOpen := open;
        recipeId := Restored(recipeId, storage);
      }
      scrollLocked := isModalOpen || isRecipeModalOpen || isSaveModalOpen;
    }

    /** A form control changes (they are disabled while a request is pending). */
    method EditForm(f: MenuForm)
      requires Valid() && isModalOpen && !pending
      modifies this
      ensures Valid() && form == f
      ensures isModalOpen == old(isModalOpen) && recipeId == old(recipeId) && isRecipeModalOpen == old(isRecipeModalOpen)
      ensures isSaveModalOpen == old(isSaveModalOpen) && selectedRecipe == old(selectedRecipe)
      ensures pending == old(pending) && storage == old(storage) && sent == old(sent) && toasts == old(toasts)
      ensures savesInFlight == old(savesInFlight)
    {
      form := f;
    }

    /**
     * "GENERATE MENU": disabled only while a request is pending; the
     * servings warning does not stop it.
     */
    method Generate()
      requires Valid() && isModalOpen && !pending
      modifies this
      ensures Valid() && pending
      ensures sent == old(sent) + [Body(old(form), maxCalories)]
      ensures toasts == old(toasts) + [Toast(AnalysingMessage, LoadingToast)]
      ensures isModalOpen == old(isModalOpen) && recipeId == old(recipeId) && isRecipeModalOpen == old(isRecipeModalOpen)
      ensures isSaveModalOpen == old(isSaveModalOpen) && selectedRecipe == old(selectedRecipe)
      ensures form == old(form) && storage == old(storage) && savesInFlight == old(savesInFlight)
    {
      toasts := toasts + [Toast(AnalysingMessage, LoadingToast)];
      sent := sent + [Body(form, maxCalories)];
      pending := true;
    }

    /**
     * The request settles. Success keeps the new id in state and in
     * storage and closes the form dialog; an error only toasts, first from
     * the hook and then from the call.
     */
    method GenerateSettled(result: Option<string>)
      requires Valid() && pending
      modifies this
      ensures Valid() && !pending
      ensures result.Some? ==> (recipeId == result && storage == result && !isModalOpen &&
                                toasts == old(toasts) + [Toast(GeneratedMessage, SuccessToast)])
      ensures result.None? ==> (recipeId == old(recipeId) && storage == old(storage) && isModalOpen == old(isModalOpen) &&
                                toasts == old(toasts) + [Toast(HookFailedMessage, ErrorToast), Toast(GenerateFailedMessage, ErrorToast)])
      ensures isRecipeModalOpen == old(isRecipeModalOpen) && isSaveModalOpen == old(isSaveModalOpen)
      ensures selectedRecipe == old(selectedRecipe) && form == old(form) && sent == old(sent)
      ensures savesInFlight == old(savesInFlight)
    {
      pending := false;
      match result
      case Some(id) =>
        toasts := toasts + [Toast(GeneratedMessage, SuccessToast)];
        recipeId := Some(id);
        storage := Some(id);
        SetModalOpen(false);
      case None =>
        toasts := toasts + [Toast(HookFailedMessage, ErrorToast), Toast(GenerateFailedMessage, ErrorToast)];
    }

    /** Fetching the results failed: the stored id is removed; the id in state stays. */
    method MenusFailed()
      requires Valid() && MenusQuery(recipeId).Some?
      modifies this
      ensures Valid() && storage.None? && recipeId == old(recipeId)
      ensures isModalOpen == old(isModalOpen) && isRecipeModalOpen == old(isRecipeModalOpen)
      ensures isSaveModalOpen == old(isSaveModalOpen) && selectedRecipe == old(selectedRecipe)
      ensures form == old(form) && pending == old(pending) && sent == old(sent) && toasts == old(toasts)
      ensures savesInFlight == old(savesInFlight)
    {
      storage := None;
    }

    /** A recipe card is clicked: it is selected and its dialog opens. */
    method SelectRecipe(r: Recipe)
      requires Valid()
      modifies this
      ensures Valid() && selectedRecipe == Some(r) && isRecipeModalOpen && RecipeDialogShown()
      ensures isModalOpen == old(isModalOpen) && isSaveModalOpen == old(isSaveModalOpen) && recipeId == old(recipeId)
      ensures form == old(form) && pending == old(pending) && storage == old(storage) && sent == old(sent) && toasts == old(toasts)
      ensures savesInFlight == old(savesInFlight)
    {
      selectedRecipe := Some(r);
      isRecipeModalOpen := true;
      scrollLocked := true;
    }

    /** Either close button of the recipe dialog. */
    method CloseRecipe()
      requires Valid()
      modifies this
      ensures Valid() && !isRecipeModalOpen && selectedRecipe == old(selectedRecipe)
      ensures isModalOpen == old(isModalOpen) && isSaveModalOpen == old(isSaveModalOpen) && recipeId == old(recipeId)
      ensures form == old(form) && pending == old(pending) && storage == old(storage) && sent == old(sent) && toasts == old(toasts)
      ensures savesInFlight == old(savesInFlight)
    {
      isRecipeModalOpen := false;
      scrollLocked := isModalOpen || isSaveModalOpen;
    }

    /** "Jadiakan Menu Saat ini": the recipe dialog gives way to the save-meal dialog. */
    method UseAsMeal()
      requires Valid() && RecipeDialogShown()
      modifies this
      ensures Valid() && !isRecipeModalOpen && isSaveModalOpen && SaveDialogShown()
      ensures selectedRecipe == old(selectedRecipe) && isModalOpen == old(isModalOpen) && recipeId == old(recipeId)
      ensures form == old(form) && pending == old(pending) && storage == old(storage) && sent == old(sent) && toasts == old(toasts)
      ensures savesInFlight == old(savesInFlight)
    {
      isRecipeModalOpen := false;
      isSaveModalOpen := true;
      scrollLocked := true;
    }

    /** The props the save-meal dialog receives while it is shown. */
    function SaveDialogProps(): (p: SaveMealsModal.Props)
      requires SaveDialogShown()
      reads this
      ensures p.recipeId == selectedRecipe.value.id
    {
      SaveProps(selectedRecipe.value)
    }

    /** The save-meal dialog's `onClose`. */
    method CloseSave()
      requires Valid()
      modifies this
      ensures Valid() && !isSaveModalOpen && !SaveDialogShown()
      ensures selectedRecipe == old(selectedRecipe) && isModalOpen == old(isModalOpen) && isRecipeModalOpen == old(isRecipeModalOpen)
      ensures recipeId == old(recipeId) && form == old(form) && pending == old(pending) && storage == old(storage)
      ensures sent == old(sent) && toasts == old(toasts) && savesInFlight == old(savesInFlight)
    {
      isSaveModalOpen := false;
      scrollLocked := isModalOpen || isRecipeModalOpen;
    }

    /** The shown save-meal dialog posts a meal for the selected recipe. */
    method SaveSubmitted()
      requires Valid() && SaveDialogShown()
      modifies this
      ensures Valid() && savesInFlight == old(savesInFlight) + 1
      ensures isModalOpen == old(isModalOpen) && recipeId == old(recipeId) && isRecipeModalOpen == old(isRecipeModalOpen)
      ensures isSaveModalOpen == old(isSaveModalOpen) && selectedRecipe == old(selectedRecipe)
      ensures form == old(form) && pending == old(pending) && storage == old(storage) && sent == old(sent) && toasts == old(toasts)
    {
      savesInFlight := savesInFlight + 1;
    }

    /**
     * A posted save fails: the dialog toasts (its own state), this component
     * does not react.
     */
    method SaveFailed()
      requires Valid() && savesInFlight > 0
      modifies this
      ensures Valid() && savesInFlight == old(savesInFlight) - 1
      ensures isModalOpen == old(isModalOpen) && recipeId == old(recipeId) && isRecipeModalOpen == old(isRecipeModalOpen)
      ensures isSaveModalOpen == old(isSaveModalOpen) && selectedRecipe == old(selectedRecipe)
      ensures form == old(form) && pending == old(pending) && storage == old(storage) && sent == old(sent) && toasts == old(toasts)
    {
      savesInFlight := savesInFlight - 1;
    }

    /**
     * The save-meal dialog's `onSuccess` for a posted save, whether or not
     * the dialog is still open: the plan is done, so the stored id, the id
     * in state and the selection are cleared and both dialogs close.
     */
    method MealSaved()
      requires Valid() && savesInFlight > 0
      modifies this
      ensures Valid() && storage.None? && recipeId.None? && selectedRecipe.None?
      ensures !isSaveModalOpen && !isModalOpen && isRecipeModalOpen == old(isRecipeModalOpen)
      ensures !MenusQuery(recipeId).Some? && savesInFlight == old(savesInFlight) - 1
      ensures form == old(form) && pending == old(pending) && sent == old(sent) && toasts == old(toasts)
    {
      savesInFlight := savesInFlight - 1;
      storage := None;
      recipeId := None;
      selectedRecipe := None;
      isSaveModalOpen := false;
      scrollLocked := isModalOpen || isRecipeModalOpen;
      SetModalOpen(false);
    }
  }

  /** From mounting with a stored id, the result list is fetched right away. */
  method MountWithStoredId(maxCalories: real, id: string) returns (p: MenuPlanner)
    requires id != ""
    ensures fresh(p) && p.Valid() && p.recipeId == Some(id) && MenusQuery(p.recipeId).Some?
  {
    p := new MenuPlanner(maxCalories, Some(id));
  }

  /** A generated plan survives a reload: the next mount restores the id from storage. */
  method GenerateThenRemount(maxCalories: real, id: string) returns (first: MenuPlanner, second: MenuPlanner)
    requires id != ""
    ensures fresh(first) && fresh(second)
    ensures first.recipeId == Some(id) && second.recipeId == Some(id)
  {
    first := new MenuPlanner(maxCalories, None);
    first.SetModalOpen(true);
    first.Generate();
    first.GenerateSettled(Some(id));
    second := new MenuPlanner(maxCalories, first.storage);
  }

  /**
   * A save that succeeds after its dialog was closed still ends the plan:
   * the stored id is gone, so the next mount starts without results.
   */
  method SaveSettlesAfterClose(maxCalories: real, id: string, r: Recipe) returns (p: MenuPlanner)
    requires id != ""
    ensures fresh(p) && p.Valid() && p.storage.None? && p.recipeId.None? && p.selectedRecipe.None?
    ensures !p.isSaveModalOpen && !p.isModalOpen && !MenusQuery(p.recipeId).Some?
  {
    p := new MenuPlanner(maxCalories, Some(id));
    p.SelectRecipe(r);
    p.UseAsMeal();
    p.SaveSubmitted();
    p.CloseSave();
    assert !p.SaveDialogShown();
    p.MealSaved();
  }
}
