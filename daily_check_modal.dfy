/**
 * components/daily-check-modal.tsx: the daily check-in dialog. It is
 * pre-filled with the user's current weight, validates and sends one
 * weigh-in, and closes on success or when the user skips. `onClose` is the
 * parent's callback; here it is recorded as a count of calls.
 */
module DailyCheckModal {
  import opened Wrappers
  import opened CivilDates
  import opened FormRules
  import opened Queries
  import opened WeighIn

  datatype Outcome = Saved | Failed

  /** The roots the source invalidates after a check-in. */
  function AsWrittenInvalidations(): (roots: set<string>)
    ensures roots == WeighIn.AsWrittenInvalidations() + {DashboardRoot}
  {
    {WeightHistoryRoot, WeightChartRoot, DashboardRoot}
  }

  /** The weigh-in caches plus the dashboard summary, which shows today's weight. */
  function CheckInInvalidations(): (roots: set<string>)
    ensures roots == WeighInInvalidations() + {DashboardRoot}
    ensures forall r :: r in roots <==> r == WeightDataRoot || r == WeightChartRoot || r == DashboardRoot
  {
    WeighInInvalidations() + {DashboardRoot}
  }

  class DailyCheckState {
    var open: bool
    var currentWeight: real
    var weight: NumField
    var defaultWeight: NumField
    var error: Option<RuleError>
    /** react-hook-form's `isSubmitted`: from the first submit on, every change re-validates the field. */
    var submitted: bool
    var pending: bool
    var sent: seq<WeighInBody>
    var invalidated: set<string>
    var toasts: seq<Toast>
    var closeCalls: nat

    /** Mounting with the parent's props; the input starts blank. */
    constructor(open: bool, currentWeight: real)
      ensures this.open == open && this.currentWeight == currentWeight
      ensures weight == Blank && defaultWeight == Blank && error == None && !submitted && !pending
      ensures sent == [] && invalidated == {} && toasts == [] && closeCalls == 0
    {
      this.open := open;
      this.currentWeight := currentWeight;
      weight := Blank;
      defaultWeight := Blank;
      error := None;
      submitted := false;
      pending := false;
      sent := [];
      invalidated := {};
      toasts := [];
      closeCalls := 0;
    }

    /** What the dialog renders: nothing at all while `open` is false. */
    predicate Renders()
      reads this
    {
      open
    }

    /**
     * The prefill effect, run when `currentWeight` changes: a non-zero
     * weight resets the form to it, which also makes it the value a later
     * `reset()` returns to, and clears the error and the submitted state.
     */
    method Prefill(currentWeight: real)
      modifies this
      ensures this.currentWeight == currentWeight
      ensures currentWeight != 0.0 ==>
        weight == Num(currentWeight) && defaultWeight == Num(currentWeight) && error == None && !submitted
      ensures currentWeight == 0.0 ==>
        weight == old(weight) && defaultWeight == old(defaultWeight) && error == old(error) && submitted == old(submitted)
      ensures open == old(open) && pending == old(pending)
      ensures sent == old(sent) && invalidated == old(invalidated) && toasts == old(toasts) && closeCalls == old(closeCalls)
    {
      this.currentWeight := currentWeight;
      if currentWeight != 0.0 {
        weight := Num(currentWeight);
        defaultWeight := Num(currentWeight);
        error := None;
        submitted := false;
      }
    }

    /**
     * The user edits the input: after the first submit the default
     * `reValidateMode` of `onChange` checks the new value at once; before
     * it the shown error is left alone.
     */
    method Enter(value: NumField)
      modifies this
      ensures weight == value
      ensures error == (if old(submitted) then WeightError(value) else old(error))
      ensures open == old(open) && currentWeight == old(currentWeight) && defaultWeight == old(defaultWeight)
      ensures submitted == old(submitted) && pending == old(pending)
      ensures sent == old(sent) && invalidated == old(invalidated) && toasts == old(toasts) && closeCalls == old(closeCalls)
    {
      weight := value;
      if submitted {
        error := WeightError(value);
      }
    }

    /** "Simpan": disabled only while pending; otherwise validate, then send. */
    method Submit(today: Date)
      requires Valid(today) && open
      modifies this
      ensures old(pending) ==> error == old(error) && submitted == old(submitted) && pending && sent == old(sent)
      ensures !old(pending) ==>
        submitted && error == WeightError(old(weight)) &&
        (error.Some? ==> !pending && sent == old(sent)) &&
        (error.None? ==> pending && sent == old(sent) + [Body(old(weight), today)])
      ensures open == old(open) && weight == old(weight) && defaultWeight == old(defaultWeight) && currentWeight == old(currentWeight)
      ensures invalidated == old(invalidated) && toasts == old(toasts) && closeCalls == old(closeCalls)
    {
      if pending {
        return;
      }
      submitted := true;
      error := WeightError(weight);
      if error == None {
        sent := sent + [Body(weight, today)];
        pending := true;
      }
    }

    /**
     * Success invalidates the weigh-in and dashboard caches, toasts and
     * asks the parent to close; failure only toasts and stays open.
     */
    method Settle(outcome: Outcome)
      requires pending
      modifies this
      ensures !pending && sent == old(sent) && open == old(open) && weight == old(weight)
      ensures error == old(error) && submitted == old(submitted)
      ensures defaultWeight == old(defaultWeight) && currentWeight == old(currentWeight)
      ensures outcome == Saved ==>
        invalidated == old(invalidated) + CheckInInvalidations() &&
        toasts == old(toasts) + [Toast("Berat badan berhasil disimpan", SuccessToast)] &&
        closeCalls == old(closeCalls) + 1
      ensures outcome == Failed ==>
        invalidated == old(invalidated) &&
        toasts == old(toasts) + [Toast("Gagal menyimpan data", ErrorToast)] &&
        closeCalls == old(closeCalls)
    {
      pending := false;
      if outcome == Saved {
        invalidated := invalidated + CheckInInvalidations();
        toasts := toasts + [Toast("Berat badan berhasil disimpan", SuccessToast)];
        closeCalls := closeCalls + 1;
      } else {
        toasts := toasts + [Toast("Gagal menyimpan data", ErrorToast)];
      }
    }

    /** "Nanti Saja": `reset()` to the default value, no error and not submitted, then close; nothing is sent. */
    method Skip()
      modifies this
      ensures weight == old(defaultWeight) && error == None && !submitted && closeCalls == old(closeCalls) + 1
      ensures sent == old(sent) && invalidated == old(invalidated) && toasts == old(toasts)
      ensures open == old(open) && pending == old(pending) && defaultWeight == old(defaultWeight) && currentWeight == old(currentWeight)
    {
      weight := defaultWeight;
      error := None;
      submitted := false;
      closeCalls := closeCalls + 1;
    }
  }
}
