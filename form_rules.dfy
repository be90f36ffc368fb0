/**
 * The validation rules of react-hook-form as the forms use them: `required`,
 * `minLength` (checked only on a non-empty value), `min` (checked only on a
 * value that reads as a number), `pattern` and `validate`. A field reports
 * the first rule it breaks, in that order.
 */
module FormRules {
  import opened Wrappers

  datatype RuleError = Required | TooShort | BelowMin | PatternMismatch | Rejected

  /**
   * The value of a numeric input: left blank, a number, or text that does
   * not read as a number (JavaScript `NaN`).
   */
  datatype NumField = Blank | Num(value: real) | NotANumber

  /** Characters outside the Basic Multilingual Plane take two UTF-16 code units. */
  predicate IsAstral(c: char) {
    c >= '\U{10000}'
  }

  /**
   * JavaScript's `.length`, the measure `minLength` compares: UTF-16 code
   * units, so one code unit per character of the Basic Multilingual Plane
   * and two for any other character.
   */
  function Utf16Length(s: string): (n: nat)
    ensures |s| <= n <= 2 * |s|
    ensures n == |s| <==> forall k :: 0 <= k < |s| ==> !IsAstral(s[k])
  {
    if s == [] then 0
    else
      var rest := Utf16Length(s[..|s| - 1]);
      assert forall k :: 0 <= k < |s| - 1 ==> s[..|s| - 1][k] == s[k];
      rest + (if IsAstral(s[|s| - 1]) then 2 else 1)
  }

  /** `.length` of a concatenation is the sum of the lengths. */
  lemma {:induction false} Utf16LengthAppend(a: string, b: string)
    ensures Utf16Length(a + b) == Utf16Length(a) + Utf16Length(b)
    decreases |b|
  {
    if b != [] {
      var b' := b[..|b| - 1];
      assert (a + b)[..|a + b| - 1] == a + b';
      assert (a + b)[|a + b| - 1] == b[|b| - 1];
      Utf16LengthAppend(a, b');
    } else {
      assert a + b == a;
    }
  }

  /** `required` plus `minLength` on a text field, `minLength` counted in UTF-16 code units. */
  function TextRule(value: string, required: bool, minLength: nat): (e: Option<RuleError>)
    ensures e == None <==> (value == [] ==> !required) && (value != [] ==> Utf16Length(value) >= minLength)
    ensures e == Some(Required) <==> required && value == []
    ensures e == Some(TooShort) <==> value != [] && Utf16Length(value) < minLength
  {
    if value == [] then (if required then Some(Required) else None)
    else if Utf16Length(value) < minLength then Some(TooShort)
    else None
  }

  /** `required` plus `min` on a numeric field; text that is not a number passes `min`. */
  function NumberRule(value: NumField, required: bool, min: real): (e: Option<RuleError>)
    ensures e == None <==> (value.Blank? ==> !required) && (value.Num? ==> value.value >= min)
    ensures e == Some(Required) <==> required && value.Blank?
    ensures e == Some(BelowMin) <==> value.Num? && value.value < min
  {
    match value
    case Blank => if required then Some(Required) else None
    case Num(x) => if x < min then Some(BelowMin) else None
    case NotANumber => None
  }

  /** JavaScript `Number(...)` on the field: blank reads as 0, text that is not a number as `NaN` (`None`). */
  function ToNumber(value: NumField): (r: Option<real>)
    ensures value.Num? ==> r == Some(value.value)
    ensures value.Blank? ==> r == Some(0.0)
    ensures r == None <==> value.NotANumber?
  {
    match value
    case Blank => Some(0.0)
    case Num(x) => Some(x)
    case NotANumber => None
  }
}
