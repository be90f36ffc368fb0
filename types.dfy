/**
 * The user record of lib/types.ts, together with the JavaScript truthiness
 * rules the components apply to its optional fields.
 */
module Types {
  import opened Wrappers

  datatype Gender = Male | Female

  datatype GoalType = Maintain | Lose | Gain

  /**
   * A user as the client receives it. Fields the components test for
   * presence (`!user.goal_type`, `user.height_cm || 0`, ...) are optional.
   */
  datatype User = User(
    name: Option<string>,
    email: string,
    gender: Gender,
    birthDate: Option<string>,
    heightCm: Option<real>,
    currentWeightKg: Option<real>,
    goalType: Option<GoalType>)

  /** JavaScript `x || 0` on an optional number: a missing value and 0 both give 0. */
  function OrZero(x: Option<real>): (r: real)
    ensures x.Some? && x.value != 0.0 ==> r == x.value
    ensures x.None? || x == Some(0.0) ==> r == 0.0
  {
    if x.Some? then x.value else 0.0
  }

  /** JavaScript `x || undefined` on an optional number: 0 becomes missing. */
  function TruthyOrNone(x: Option<real>): (r: Option<real>)
    ensures r.Some? <==> x.Some? && x.value != 0.0
    ensures r.Some? ==> r == x
  {
    if x == Some(0.0) then None else x
  }

}
