/**
 * components/data-modal.tsx: the "Lengkapi Profil" dialog shown to a user
 * without a goal. It collects weight, height, birth date, goal and gender,
 * validates them, sends the profile update, refreshes the user cache and
 * closes once the update has gone through.
 */
module DataModal {
  import opened Wrappers
  import opened Types
  import opened Text
  import opened CivilDates
  import opened FormRules
  import opened Queries

  /** The form values; the number inputs hold whatever the input produced. */
  datatype ProfileForm = ProfileForm(
    currentWeightKg: NumField,
    heightCm: NumField,
    birthDate: string,
    gender: Gender,
    goalType: GoalType)

  /** The five fields of the `PUT /auth/profile` body. */
  datatype ProfilePayload = ProfilePayload(
    currentWeightKg: NumField,
    birthDate: string,
    heightCm: NumField,
    gender: Gender,
    goalType: GoalType)

  /** Defaults: no weight, height or birth date; male; goal "lose". */
  const Defaults: ProfileForm := ProfileForm(Blank, Blank, "", Male, Lose)

  /** Weight and height share one rule: required and at least 1. */
  function MeasureError(value: NumField): (e: Option<RuleError>)
    ensures e == None <==> value.NotANumber? || (value.Num? && value.value >= 1.0)
  {
    NumberRule(value, true, 1.0)
  }

  /** Birth date: required, and not later than today when compared as strings. */
  function BirthDateError(value: string, today: Date): (e: Option<RuleError>)
    requires Valid(today)
    ensures e == Some(Required) <==> value == ""
    ensures e == Some(Rejected) <==> value != "" && StrLess(FormatIso(today), value)
    ensures e.Some? ==> e == Some(Required) || e == Some(Rejected)
  {
    if value == "" then Some(Required)
    else if StrLess(FormatIso(today), value) then Some(Rejected)
    else None
  }

  /** For a date the input produces, the string rule is the calendar rule: no birth date after today. */
  lemma BirthDateRuleIsDateOrder(birth: Date, today: Date)
    requires Valid(birth) && Valid(today) && FourDigitYear(birth) && FourDigitYear(today)
    ensures BirthDateError(FormatIso(birth), today) == None <==> !Before(today, birth)
  {
    FormatOrder(today, birth);
    FormatThenParse(birth);
  }

  /**
   * The dialog's rules all pass: weight and height not blank and not below
   * 1 (text that is not a number slips through `min`), and a birth date
   * that is not after today's rendering.
   */
  function FormValid(form: ProfileForm, today: Date): (ok: bool)
    requires Valid(today)
    ensures ok <==>
      (form.currentWeightKg.NotANumber? || (form.currentWeightKg.Num? && form.currentWeightKg.value >= 1.0)) &&
      (form.heightCm.NotANumber? || (form.heightCm.Num? && form.heightCm.value >= 1.0)) &&
      form.birthDate != "" && !StrLess(FormatIso(today), form.birthDate)
  {
    MeasureError(form.currentWeightKg) == None &&
    MeasureError(form.heightCm) == None &&
    BirthDateError(form.birthDate, today) == None
  }

  /** The untouched dialog cannot be saved: weight, height and birth date are all missing. */
  lemma DefaultsInvalid(today: Date)
    requires Valid(today)
    ensures MeasureError(Defaults.currentWeightKg) == Some(Required)
    ensures MeasureError(Defaults.heightCm) == Some(Required)
    ensures BirthDateError(Defaults.birthDate, today) == Some(Required)
  {
  }

  /**
   * `save`'s payload: the birth date goes through `new Date(...)` and back
   * to `YYYY-MM-DD`; a value that is not a date makes `toISOString` throw.
   */
  function Payload(form: ProfileForm): (r: Result<ProfilePayload, string>)
    ensures r.Success? <==> IsFullDate(form.birthDate)
    ensures r.Success? ==>
      r.value.currentWeightKg == form.currentWeightKg && r.value.heightCm == form.heightCm &&
      r.value.gender == form.gender && r.value.goalType == form.goalType &&
      r.value.birthDate == form.birthDate
  {
    match ParseIso(form.birthDate)
    case None => Failure("RangeError: Invalid time value")
    case Some(d) =>
      ParseThenFormat(form.birthDate);
      Success(ProfilePayload(form.currentWeightKg, FormatIso(d), form.heightCm, form.gender, form.goalType))
  }

  /** The advice shown under the goal select. */
  function GoalInfo(goal: GoalType): (text: string)
    ensures |text| > 0
  {
    match goal
    case Lose => "Defisit kalori aman untuk hasil jangka panjang."
    case Gain => "Surplus kalori membantu menaikkan massa otot."
    case Maintain => "Menjaga kalori seimbang untuk stabilitas tubuh."
  }

  /** Each goal has its own advice. */
  lemma GoalInfoInjective(a: GoalType, b: GoalType)
    ensures GoalInfo(a) == GoalInfo(b) <==> a == b
  {
    assert |GoalInfo(Gain)| == 45 && |GoalInfo(Lose)| == |GoalInfo(Maintain)| == 47;
    assert GoalInfo(Lose)[45] == 'g' && GoalInfo(Maintain)[45] == 'h';
  }

  const SavedMessage: string := "Profile data anda berhasil di tambahkan!."
  const FailedMessage: string := "Gagal Menyimpan Data Profil!"

  class DataModalState {
    var open: bool
    var form: ProfileForm
    var pending: bool
    var sent: seq<ProfilePayload>
    var invalidated: set<string>
    var toasts: seq<Toast>
    var closeCalls: nat

    constructor(open: bool)
      ensures this.open == open && form == Defaults && !pending
      ensures sent == [] && invalidated == {} && toasts == [] && closeCalls == 0
    {
      this.open := open;
      form := Defaults;
      pending := false;
      sent := [];
      invalidated := {};
      toasts := [];
      closeCalls := 0;
    }

    /** Nothing is rendered while the dialog is closed. */
    predicate Renders()
      reads this
    {
      open
    }

    /** The "Pria"/"Wanita" buttons set only the gender; like every input they are disabled while saving. */
    method SetGender(g: Gender)
      requires !pending
      modifies this
      ensures form == old(form).(gender := g)
      ensures open == old(open) && pending == old(pending) && sent == old(sent)
      ensures invalidated == old(invalidated) && toasts == old(toasts) && closeCalls == old(closeCalls)
    {
      form := form.(gender := g);
    }

    /** Typing into the inputs or choosing a goal, while no save is pending. */
    method Edit(values: ProfileForm)
      requires !pending
      modifies this
      ensures form == values
      ensures open == old(open) && pending == old(pending) && sent == old(sent)
      ensures invalidated == old(invalidated) && toasts == old(toasts) && closeCalls == old(closeCalls)
    {
      form := values;
    }

    /**
     * "SIMPAN & HITUNG": an invalid form sends nothing; a valid one sends
     * the payload, unless building it throws.
     */
    method Save(today: Date)
      requires Valid(today) && open && !pending
      modifies this
      ensures form == old(form) && open == old(open)
      ensures invalidated == old(invalidated) && toasts == old(toasts) && closeCalls == old(closeCalls)
      ensures FormValid(form, today) && Payload(form).Success? ==>
        pending && sent == old(sent) + [Payload(form).value]
      ensures !(FormValid(form, today) && Payload(form).Success?) ==> !pending && sent == old(sent)
    {
      if !FormValid(form, today) {
        return;
      }
      var payload := Payload(form);
      if payload.Success? {
        sent := sent + [payload.value];
        pending := true;
      }
    }

    /**
     * The update settles. Success refreshes the user cache, toasts and
     * then closes; failure toasts the error and the dialog stays open.
     */
    method Settle(outcome: Result<(), string>)
      requires pending
      modifies this
      ensures !pending && form == old(form) && open == old(open) && sent == old(sent)
      ensures outcome.Success? ==>
        invalidated == old(invalidated) + {UserRoot} &&
        toasts == old(toasts) + [Toast(SavedMessage, SuccessToast)] &&
        closeCalls == old(closeCalls) + 1
      ensures outcome.Failure? ==>
        invalidated == old(invalidated) && closeCalls == old(closeCalls) &&
        toasts == old(toasts) + [Toast(if outcome.error != "" then outcome.error else FailedMessage, ErrorToast)]
    {
      pending := false;
      if outcome.Success? {
        invalidated := invalidated + {UserRoot};
        toasts := toasts + [Toast(SavedMessage, SuccessToast)];
        closeCalls := closeCalls + 1;
      } else {
        toasts := toasts + [Toast(if outcome.error != "" then outcome.error else FailedMessage, ErrorToast)];
      }
    }
  }
}
