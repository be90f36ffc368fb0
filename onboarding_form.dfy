/**
 * components/profile/onboarding-form.tsx: the profile form of the
 * onboarding and profile pages. It is filled from the signed-in user, checks
 * name, birth date, height and weight, and sends the update with the
 * fields renamed to the API's names.
 */
module OnboardingForm {
  import opened Wrappers
  import opened Types
  import opened Text
  import opened CivilDates
  import opened FormRules
  import opened Queries

  datatype OnboardingInputs = OnboardingInputs(
    name: string,
    birthDate: string,
    height: NumField,
    weight: NumField,
    goal: Option<GoalType>)

  /** The update body: no gender, `goal_type` omitted when the form has none. */
  datatype OnboardingPayload = OnboardingPayload(
    birthDate: string,
    currentWeightKg: Option<real>,
    name: string,
    heightCm: Option<real>,
    goalType: Option<GoalType>)

  const Defaults: OnboardingInputs := OnboardingInputs("", "", Blank, Blank, Some(Lose))

  /** `s.split("T")[0]`: everything before the first "T". */
  function BeforeT(s: string): (r: string)
    ensures 'T' !in r
    ensures |r| <= |s| && r == s[..|r|]
    ensures |r| < |s| ==> s[|r|] == 'T'
  {
    if s == [] || s[0] == 'T' then [] else [s[0]] + BeforeT(s[1..])
  }

  /** A full date followed by a time part: the split keeps exactly the date. */
  lemma {:induction false} BeforeTOfTimestamp(date: string, rest: string)
    requires IsFullDate(date)
    ensures BeforeT(date + "T" + rest) == date
  {
    var s := date + "T" + rest;
    var r := BeforeT(s);
    assert 'T' !in date by {
      forall i | 0 <= i < |date|
        ensures date[i] != 'T'
      {
        if i < 4 { assert date[..4][i] == date[i]; }
        else if 5 <= i < 7 { assert date[5..7][i - 5] == date[i]; }
        else if 8 <= i { assert date[8..][i - 8] == date[i]; }
      }
    }
    assert forall i :: 0 <= i < |date| ==> s[i] == date[i];
    assert s[|date|] == 'T';
    assert |r| == |date|;
    assert r == s[..|date|] == date;
  }

  /** `OptionField`: an optional number as the input shows it: missing is blank. */
  function ToField(x: Option<real>): (f: NumField)
    ensures x.None? <==> f.Blank?
    ensures x.Some? ==> f == Num(x.value)
  {
    if x.None? then Blank else Num(x.value)
  }

  /**
   * The reset from the loaded user: name or "", the birth date before any
   * "T" (or ""), height and weight with 0 treated as missing, the goal as is.
   */
  function ResetValues(user: User): (v: OnboardingInputs)
    ensures v.name == user.name.GetOr("")
    ensures user.birthDate.None? || user.birthDate == Some("") ==> v.birthDate == ""
    ensures user.birthDate.Some? ==> v.birthDate == BeforeT(user.birthDate.value)
    ensures v.height == ToField(TruthyOrNone(user.heightCm)) && v.weight == ToField(TruthyOrNone(user.currentWeightKg))
    ensures v.goal == user.goalType
  {
    var birthDate := if user.birthDate.Some? && user.birthDate.value != "" then BeforeT(user.birthDate.value) else "";
    OnboardingInputs(user.name.GetOr(""), birthDate, ToField(TruthyOrNone(user.heightCm)), ToField(TruthyOrNone(user.currentWeightKg)), user.goalType)
  }

  /** Name and birth date are `{ required: true }`, the rule of `ModalConfirm.LabelError`. */
  function NameError(name: string): (e: Option<RuleError>)
    ensures e == None <==> name != ""
  {
    TextRule(name, true, 0)
  }

  function BirthDateError(birthDate: string): (e: Option<RuleError>)
    ensures e == None <==> birthDate != ""
  {
    TextRule(birthDate, true, 0)
  }

  /** Height: required and at least 30 cm. */
  function HeightError(height: NumField): (e: Option<RuleError>)
    ensures e == None <==> height.NotANumber? || (height.Num? && height.value >= 30.0)
  {
    NumberRule(height, true, 30.0)
  }

  /** Weight: required and at least 1 kg. */
  function WeightError(weight: NumField): (e: Option<RuleError>)
    ensures e == None <==> weight.NotANumber? || (weight.Num? && weight.value >= 1.0)
  {
    NumberRule(weight, true, 1.0)
  }

  /**
   * Every rule passes: a name and a birth date, a height not blank and not
   * below 30 cm, a weight not blank and not below 1 kg (text that is not a
   * number slips through `min`).
   */
  function FormValid(v: OnboardingInputs): (ok: bool)
    ensures ok <==> (v.name != "" && v.birthDate != "" &&
      (v.height.NotANumber? || (v.height.Num? && v.height.value >= 30.0)) &&
      (v.weight.NotANumber? || (v.weight.Num? && v.weight.value >= 1.0)))
  {
    NameError(v.name) == None && BirthDateError(v.birthDate) == None &&
    HeightError(v.height) == None && WeightError(v.weight) == None
  }

  /** The renaming in `onSubmit`. */
  function Payload(v: OnboardingInputs): (p: OnboardingPayload)
    ensures p.name == v.name && p.birthDate == v.birthDate && p.goalType == v.goal
    ensures p.heightCm == ToNumber(v.height) && p.currentWeightKg == ToNumber(v.weight)
  {
    OnboardingPayload(v.birthDate, ToNumber(v.weight), v.name, ToNumber(v.height), v.goal)
  }

  /** The three goal buttons carry three different captions. */
  lemma GoalCaptionsDistinct(g: GoalType, h: GoalType)
    ensures GoalCaption(g) == GoalCaption(h) <==> g == h
  {
  }

  /** A user whose stored profile passes the rules is sent back unchanged by an untouched form. */
  lemma ResetThenSubmitKeepsProfile(user: User)
    requires FormValid(ResetValues(user))
    ensures var p := Payload(ResetValues(user));
      user.heightCm.Some? && p.heightCm == user.heightCm &&
      user.currentWeightKg.Some? && p.currentWeightKg == user.currentWeightKg &&
      p.goalType == user.goalType && p.name == user.name.GetOr("")
  {
  }

  /** The three goal buttons and their captions. */
  function GoalCaption(g: GoalType): (c: string)
    ensures c in {"Turun BB", "Stabil", "Naik BB"}
  {
    match g
    case Lose => "Turun BB"
    case Maintain => "Stabil"
    case Gain => "Naik BB"
  }

  /** The user as the source reads it, `data?.data.user` on the value `useUser` returns. */
  function AsWrittenUser(data: Option<User>): (r: Result<Option<User>, string>)
    ensures data.None? ==> r == Success(None)
    ensures data.Some? ==> r.Failure?
  {
    if data.None? then Success(None)
    else Failure("TypeError: Cannot read properties of undefined (reading 'user')")
  }

  /** The user the form is filled from: the value `useUser` returns. */
  function FormUser(data: Option<User>): (r: Option<User>)
    ensures r == data
  {
    data
  }

  /** As written, the form can never be filled: once the user loads, reading it throws. */
  lemma AsWrittenNeverFills(user: User)
    ensures AsWrittenUser(Some(user)).Failure?
    ensures FormUser(Some(user)) == Some(user)
  {
  }

  const SavedMessage: string := "Profile data anda berhasil di perbarui !."
  const FailedMessage: string := "Terjadi kesalahan saat memperbarui data profile."
  /** The fallback of the profile-update hook's own error toast. */
  const HookFailedMessage: string := "Gagal Menyimpan Data Profil!"

  /**
   * The form's state. Updates are numbered by their position in `sent`.
   * `mutateAsync` runs the call's own `onSuccess`/`onError` only for the
   * latest call; the hook's `onError` runs for every call.
   */
  class OnboardingState {
    var values: OnboardingInputs
    /** Updates sent: the button is never disabled, so several can be in flight. */
    var sent: seq<OnboardingPayload>
    /** The numbers of the updates sent and not yet settled. */
    var inFlight: set<nat>
    var invalidated: set<string>
    var toasts: seq<Toast>

    predicate Valid()
      reads this
    {
      forall c :: c in inFlight ==> c < |sent|
    }

    /** The call whose own callbacks `mutateAsync` still runs. */
    predicate IsLatest(call: nat)
      reads this
    {
      call + 1 == |sent|
    }

    constructor()
      ensures Valid() && values == Defaults && inFlight == {} && sent == [] && invalidated == {} && toasts == []
    {
      values := Defaults;
      inFlight := {};
      sent := [];
      invalidated := {};
      toasts := [];
    }

    /** The reset effect, run when the user value changes. */
    method UserChanged(data: Option<User>)
      modifies this
      ensures FormUser(data).Some? ==> values == ResetValues(FormUser(data).value)
      ensures FormUser(data).None? ==> values == old(values)
      ensures inFlight == old(inFlight) && sent == old(sent) && invalidated == old(invalidated) && toasts == old(toasts)
    {
      var user := FormUser(data);
      if user.Some? {
        values := ResetValues(user.value);
      }
    }

    method SetGoal(g: GoalType)
      modifies this
      ensures values == old(values).(goal := Some(g))
      ensures inFlight == old(inFlight) && sent == old(sent) && invalidated == old(invalidated) && toasts == old(toasts)
    {
      values := values.(goal := Some(g));
    }

    method Edit(v: OnboardingInputs)
      modifies this
      ensures values == v
      ensures inFlight == old(inFlight) && sent == old(sent) && invalidated == old(invalidated) && toasts == old(toasts)
    {
      values := v;
    }

    /**
     * "Simpan & Lanjutkan": a valid form is sent as the next-numbered
     * update, even while an earlier one is in flight; an invalid one only
     * shows its errors.
     */
    method Submit()
      requires Valid()
      modifies this
      ensures Valid() && values == old(values) && invalidated == old(invalidated) && toasts == old(toasts)
      ensures FormValid(values) ==>
        sent == old(sent) + [Payload(values)] && inFlight == old(inFlight) + {|old(sent)|} && IsLatest(|old(sent)|)
      ensures !FormValid(values) ==> inFlight == old(inFlight) && sent == old(sent)
    {
      if FormValid(values) {
        inFlight := inFlight + {|sent|};
        sent := sent + [Payload(values)];
      }
    }

    /**
     * Update `call` settles. A failure always shows the hook's toast (its
     * message, or its own fallback). Only for the latest call does success
     * refresh the user cache and toast, and failure add the form's toast;
     * an overtaken call changes nothing else.
     */
    method Settle(call: nat, outcome: Result<(), string>)
      requires Valid() && call in inFlight
      modifies this
      ensures Valid() && inFlight == old(inFlight) - {call} && values == old(values) && sent == old(sent)
      ensures outcome.Success? && IsLatest(call) ==>
        invalidated == old(invalidated) + {UserRoot} && toasts == old(toasts) + [Toast(SavedMessage, SuccessToast)]
      ensures outcome.Failure? && IsLatest(call) ==>
        invalidated == old(invalidated) &&
        toasts == old(toasts) + [Toast(if outcome.error != "" then outcome.error else HookFailedMessage, ErrorToast),
                                 Toast(FailedMessage, ErrorToast)]
      ensures !IsLatest(call) ==>
        invalidated == old(invalidated) &&
        toasts == old(toasts) + (if outcome.Failure? then [Toast(if outcome.error != "" then outcome.error else HookFailedMessage, ErrorToast)] else [])
    {
      inFlight := inFlight - {call};
      if outcome.Failure? {
        toasts := toasts + [Toast(if outcome.error != "" then outcome.error else HookFailedMessage, ErrorToast)];
      }
      if IsLatest(call) {
        if outcome.Success? {
          invalidated := invalidated + {UserRoot};
          toasts := toasts + [Toast(SavedMessage, SuccessToast)];
        } else {
          toasts := toasts + [Toast(FailedMessage, ErrorToast)];
        }
      }
    }
  }

  /**
   * Saving twice before the first save returns: both updates are sent,
   * but only the second one's success refreshes the user cache and
   * toasts, so there is exactly one success toast.
   */
  method DoubleSave(v: OnboardingInputs) returns (form: OnboardingState)
    requires FormValid(v)
    ensures fresh(form) && form.Valid() && form.inFlight == {}
    ensures form.sent == [Payload(v), Payload(v)]
    ensures form.invalidated == {UserRoot} && form.toasts == [Toast(SavedMessage, SuccessToast)]
  {
    form := new OnboardingState();
    form.Edit(v);
    form.Submit();
    form.Submit();
    form.Settle(0, Success(()));
    form.Settle(1, Success(()));
  }
}
