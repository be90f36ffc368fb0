/**
 * The clock helpers shared by components/scan/modal-confirm.tsx and
 * components/save-meals-modal.tsx: the meal type suggested for the
 * current hour and the `datetime-local` value for the current local time.
 * The clock is a parameter: a local civil date plus hour and minute.
 */
module MealClock {
  import opened Text
  import opened CivilDates

  datatype MealType = Breakfast | Lunch | Dinner | Snack

  /** `getAutoMealType`: 5-10 breakfast, 11-15 lunch, 16-20 dinner, any other hour a snack. */
  function AutoMealType(hour: int): (m: MealType)
    ensures m == Breakfast <==> 5 <= hour < 11
    ensures m == Lunch <==> 11 <= hour < 16
    ensures m == Dinner <==> 16 <= hour < 21
    ensures m == Snack <==> hour < 5 || hour >= 21
  {
    if 5 <= hour < 11 then Breakfast
    else if 11 <= hour < 16 then Lunch
    else if 16 <= hour < 21 then Dinner
    else Snack
  }

  /** The wire value of a meal type, as the `meal_type` field and the select options use it. */
  function MealTypeValue(m: MealType): (v: string)
    ensures v in {"breakfast", "lunch", "dinner", "snack"}
  {
    match m
    case Breakfast => "breakfast"
    case Lunch => "lunch"
    case Dinner => "dinner"
    case Snack => "snack"
  }

  /** The display label modal-confirm pairs with each meal type. */
  function MealTypeLabel(m: MealType): (l: string)
    ensures l in {"Sarapan", "Makan Siang", "Makan Malam", "Makanan ringan"}
  {
    match m
    case Breakfast => "Sarapan"
    case Lunch => "Makan Siang"
    case Dinner => "Makan Malam"
    case Snack => "Makanan ringan"
  }

  /** Values and labels both identify the meal type: neither table maps two types to one string. */
  lemma MealTypeNamesInjective(a: MealType, b: MealType)
    ensures MealTypeValue(a) == MealTypeValue(b) <==> a == b
    ensures MealTypeLabel(a) == MealTypeLabel(b) <==> a == b
  {
    if a != b {
      assert MealTypeValue(a)[0] != MealTypeValue(b)[0] || |MealTypeValue(a)| != |MealTypeValue(b)|;
      assert MealTypeLabel(a)[|MealTypeLabel(a)| - 1] != MealTypeLabel(b)[|MealTypeLabel(b)| - 1] || |MealTypeLabel(a)| != |MealTypeLabel(b)|;
    }
  }

  /** `pad`: a leading "0" below ten, otherwise the number as JavaScript prints it. */
  function Pad(n: nat): (s: string)
    ensures AllDigits(s) && ValueOf(s) == n
    ensures n < 100 ==> |s| == 2
  {
    ValueOfDecimal(n);
    if n < 10 then "0" + Decimal(n) else Decimal(n)
  }

  /** `getFullYear()` concatenated to a string: a minus sign for negative years, no padding. */
  function YearString(y: int): (s: string)
    ensures y >= 0 ==> AllDigits(s) && ValueOf(s) == y
    ensures y < 0 ==> |s| >= 2 && s[0] == '-' && AllDigits(s[1..]) && ValueOf(s[1..]) == -y
  {
    ValueOfDecimal(if y >= 0 then y else -y);
    if y >= 0 then Decimal(y) else "-" + Decimal(-y)
  }

  /** A local wall-clock reading: `getFullYear`/`getMonth() + 1`/`getDate`, `getHours`, `getMinutes`. */
  datatype LocalTime = LocalTime(date: Date, hour: nat, minute: nat)

  predicate ValidTime(t: LocalTime) {
    Valid(t.date) && t.hour < 24 && t.minute < 60
  }

  /**
   * `getDateTimeLocalNow`: `YYYY-MM-DDTHH:MM` built from the local clock.
   * Whatever the year's width, the value ends in `T`, two digits, `:` and
   * two digits that read back as the hour and the minute.
   */
  function DateTimeLocal(t: LocalTime): (s: string)
    requires ValidTime(t)
    ensures |s| >= 13 && s[|s| - 6] == 'T' && s[|s| - 3] == ':'
    ensures AllDigits(s[|s| - 5..|s| - 3]) && ValueOf(s[|s| - 5..|s| - 3]) == t.hour
    ensures AllDigits(s[|s| - 2..]) && ValueOf(s[|s| - 2..]) == t.minute
  {
    var date := YearString(t.date.year) + "-" + Pad(t.date.month) + "-" + Pad(t.date.day);
    var s := date + "T" + Pad(t.hour) + ":" + Pad(t.minute);
    assert s[|s| - 5..|s| - 3] == Pad(t.hour) && s[|s| - 2..] == Pad(t.minute);
    s
  }

  /** `Decimal` and `Fixed` agree on a number that needs exactly `w` digits. */
  lemma {:induction false} DecimalIsFixed(n: nat, w: nat)
    requires w >= 1 && n < Pow10(w) && (w == 1 || Pow10(w - 1) <= n)
    ensures Decimal(n) == Fixed(n, w)
  {
    if n < 10 {
      assert w == 1;
      assert Fixed(n / 10, 0) == "";
    } else {
      assert w >= 2;
      assert Pow10(w - 1) == 10 * Pow10(w - 2);
      assert w - 1 == 1 || Pow10(w - 2) <= n / 10;
      DecimalIsFixed(n / 10, w - 1);
    }
  }

  /** Below 100, `pad` is the two-digit zero-padded rendering. */
  lemma PadIsFixed(n: nat)
    requires n < 100
    ensures Pad(n) == Fixed(n, 2)
  {
    if n < 10 {
      assert Fixed(n, 2) == Fixed(0, 1) + [DigitChar(n)];
      assert Fixed(0, 1) == [DigitChar(0)];
    } else {
      DecimalIsFixed(n, 2);
    }
  }

  /** Where the pieces of a `date "T" hour ":" minute` string sit. */
  lemma DateTimeLayout(date: string, hour: string, minute: string)
    requires |date| == 10 && |hour| == 2 && |minute| == 2
    ensures var s := date + "T" + hour + ":" + minute;
      |s| == 16 && s[..10] == date && s[10] == 'T' && s[11..13] == hour &&
      s[13] == ':' && s[14..16] == minute
  {
    var s := date + "T" + hour + ":" + minute;
    assert s[11..13] == (date + "T" + hour)[11..13];
  }

  /** For a four-digit year, the local date part is the date's `YYYY-MM-DD` rendering. */
  lemma LocalDatePart(d: Date)
    requires Valid(d) && 1000 <= d.year <= 9999
    ensures YearString(d.year) + "-" + Pad(d.month) + "-" + Pad(d.day) == FormatIso(d)
  {
    assert Pow10(3) == 1000 && Pow10(4) == 10000;
    DecimalIsFixed(d.year, 4);
    PadIsFixed(d.month);
    PadIsFixed(d.day);
  }

  /**
   * For a four-digit year the value is exactly 16 characters, `-`, `-`,
   * `T` and `:` sit at the fixed positions, the date part is the date's
   * `YYYY-MM-DD` rendering, and the time fields read back as the hour and
   * minute.
   */
  lemma DateTimeLocalShape(t: LocalTime)
    requires ValidTime(t) && 1000 <= t.date.year <= 9999
    ensures var s := DateTimeLocal(t);
      |s| == 16 && s[4] == '-' && s[7] == '-' && s[10] == 'T' && s[13] == ':' &&
      s[..10] == FormatIso(t.date) &&
      s[11..13] == Fixed(t.hour, 2) && s[14..16] == Fixed(t.minute, 2)
  {
    LocalDatePart(t.date);
    PadIsFixed(t.hour);
    PadIsFixed(t.minute);
    DateTimeLayout(FormatIso(t.date), Fixed(t.hour, 2), Fixed(t.minute, 2));
  }
}
