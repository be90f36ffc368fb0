/**
 * components/stats/weight-form.tsx: the weigh-in form of the weight tab.
 * Its state is the input's value, the mutation's pending flag and what the
 * form has done to the outside world: the requests it sent, the cache roots
 * it invalidated and the toasts it showed. `isAlreadyLogged` is the
 * weight tab's `isAlreadyInput`.
 */
module WeightForm {
  import opened Wrappers
  import opened CivilDates
  import opened PeriodMemo
  import opened FormRules
  import opened Queries
  import opened WeighIn
  import WeightSection

  /** The outcome of `POST /weights`. */
  datatype Outcome = Saved | Failed

  const DefaultWeight: NumField := Num(0.0)

  /** The submit button is disabled while a save is pending or when today is already logged. */
  predicate SubmitDisabled(pending: bool, isAlreadyLogged: bool)
    ensures !SubmitDisabled(pending, isAlreadyLogged) <==> !pending && !isAlreadyLogged
  {
    pending || isAlreadyLogged
  }

  /** The untouched form cannot be submitted: its default of 0 breaks the 1 kg minimum. */
  lemma DefaultFailsRule()
    ensures WeightError(DefaultWeight) == Some(BelowMin)
  {
  }

  class WeightFormState {
    var isAlreadyLogged: bool
    var weight: NumField
    var error: Option<RuleError>
    /** react-hook-form's `isSubmitted`: from the first submit on, every change re-validates the field. */
    var submitted: bool
    var pending: bool
    var sent: seq<WeighInBody>
    var invalidated: set<string>
    var toasts: seq<Toast>

    constructor(isAlreadyLogged: bool)
      ensures this.isAlreadyLogged == isAlreadyLogged
      ensures weight == DefaultWeight && error == None && !submitted && !pending
      ensures sent == [] && invalidated == {} && toasts == []
    {
      this.isAlreadyLogged := isAlreadyLogged;
      weight := DefaultWeight;
      error := None;
      submitted := false;
      pending := false;
      sent := [];
      invalidated := {};
      toasts := [];
    }

    /**
     * The user edits the input. Before the first submit the shown error is
     * left alone; after it, the default `reValidateMode` of `onChange`
     * checks the new value at once, so a valid entry clears the message.
     */
    method Enter(value: NumField)
      modifies this
      ensures weight == value
      ensures error == (if old(submitted) then WeightError(value) else old(error))
      ensures submitted == old(submitted) && isAlreadyLogged == old(isAlreadyLogged) && pending == old(pending)
      ensures sent == old(sent) && invalidated == old(invalidated) && toasts == old(toasts)
    {
      weight := value;
      if submitted {
        error := WeightError(value);
      }
    }

    /**
     * Pressing "Simpan": nothing happens while the button is disabled; a
     * value that breaks the rule shows its error; otherwise the body is
     * sent and the save is pending.
     */
    method Submit(today: Date)
      requires Valid(today)
      modifies this
      ensures SubmitDisabled(old(pending), old(isAlreadyLogged)) ==>
        weight == old(weight) && error == old(error) && submitted == old(submitted) && pending == old(pending) && sent == old(sent)
      ensures !SubmitDisabled(old(pending), old(isAlreadyLogged)) ==>
        submitted && error == WeightError(old(weight)) &&
        (error.Some? ==> !pending && sent == old(sent)) &&
        (error.None? ==> pending && sent == old(sent) + [Body(old(weight), today)])
      ensures weight == old(weight) && isAlreadyLogged == old(isAlreadyLogged)
      ensures invalidated == old(invalidated) && toasts == old(toasts)
    {
      if SubmitDisabled(pending, isAlreadyLogged) {
        return;
      }
      submitted := true;
      error := WeightError(weight);
      if error == None {
        sent := sent + [Body(weight, today)];
        pending := true;
      }
    }

    /**
     * The pending save settles. Success invalidates the history and chart
     * caches, shows a success toast and `reset()`s the form: the default
     * value, no error, and not submitted. Failure only shows an error
     * toast and keeps the entered value and its error.
     */
    method Settle(outcome: Outcome)
      requires pending
      modifies this
      ensures !pending && sent == old(sent) && isAlreadyLogged == old(isAlreadyLogged)
      ensures outcome == Saved ==>
        invalidated == old(invalidated) + WeighInInvalidations() &&
        toasts == old(toasts) + [Toast("Berat badan berhasil disimpan", SuccessToast)] &&
        weight == DefaultWeight && error == None && !submitted
      ensures outcome == Failed ==>
        invalidated == old(invalidated) &&
        toasts == old(toasts) + [Toast("Gagal menyimpan data", ErrorToast)] &&
        weight == old(weight) && error == old(error) && submitted == old(submitted)
    {
      pending := false;
      if outcome == Saved {
        invalidated := invalidated + WeighInInvalidations();
        toasts := toasts + [Toast("Berat badan berhasil disimpan", SuccessToast)];
        weight := DefaultWeight;
        error := None;
        submitted := false;
      } else {
        toasts := toasts + [Toast("Gagal menyimpan data", ErrorToast)];
      }
    }
  }

  /**
   * Submitting the untouched form shows the 1 kg message; typing a valid
   * weight afterwards clears it without another submit, and nothing is
   * sent until the next press.
   */
  method ErrorClearsOnValidEntry(today: Date) returns (form: WeightFormState)
    requires Valid(today)
    ensures fresh(form) && form.error == None && form.submitted && form.sent == []
  {
    form := new WeightFormState(false);
    form.Submit(today);
    assert form.error == Some(BelowMin);
    form.Enter(Num(70.0));
  }

  /**
   * The roots invalidated in the source miss the weight tab's history
   * query, whose key starts with "weight-data"; the corrected roots reach
   * both the history and the chart, and neither touches the dashboard.
   */
  lemma AsWrittenMissesHistory(period: Period, today: Date)
    requires Valid(today)
    ensures !Invalidates(AsWrittenInvalidations(), WeightSection.HistoryKey(period, today))
    ensures Invalidates(AsWrittenInvalidations(), WeightSection.ChartKey(period, today))
    ensures Invalidates(WeighInInvalidations(), WeightSection.HistoryKey(period, today))
    ensures Invalidates(WeighInInvalidations(), WeightSection.ChartKey(period, today))
    ensures !Invalidates(WeighInInvalidations(), [DashboardRoot])
  {
    var h := WeightSection.HistoryKey(period, today);
    assert h[0] == WeightDataRoot;
    assert WeightDataRoot != WeightHistoryRoot && WeightDataRoot != WeightChartRoot by {
      assert WeightDataRoot[7] != WeightHistoryRoot[7] && WeightDataRoot[7] != WeightChartRoot[7];
    }
    assert DashboardRoot[0] != WeightDataRoot[0] && DashboardRoot[0] != WeightChartRoot[0];
  }
}
