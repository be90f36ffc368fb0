/**
 * Calendar dates as the client's `Date` objects use them: day and month
 * arithmetic with JavaScript's roll-over rules (`setDate`, `setMonth`),
 * and the `YYYY-MM-DD` rendering produced by
 * `toISOString().split("T")[0]` together with its parser. A date on the
 * wire is an RFC 3339 section 5.6 `full-date`.
 */
module CivilDates {
  import opened Text
  import opened Wrappers

  /** A proleptic Gregorian calendar date; `month` is 1-based. */
  datatype Date = Date(year: int, month: int, day: int)

  predicate IsLeapYear(y: int) {
    y % 4 == 0 && (y % 100 != 0 || y % 400 == 0)
  }

  function DaysInMonth(y: int, m: int): (n: int)
    requires 1 <= m <= 12
    ensures 28 <= n <= 31
  {
    if m == 2 then (if IsLeapYear(y) then 29 else 28)
    else if m == 4 || m == 6 || m == 9 || m == 11 then 30
    else 31
  }

  predicate Valid(d: Date) {
    1 <= d.month <= 12 && 1 <= d.day <= DaysInMonth(d.year, d.month)
  }

  /** Years that `toISOString` writes with four digits. */
  predicate FourDigitYear(d: Date) {
    0 <= d.year <= 9999
  }

  /** Strict chronological order. */
  predicate Before(a: Date, b: Date) {
    a.year < b.year || (a.year == b.year && (a.month < b.month || (a.month == b.month && a.day < b.day)))
  }

  /** Months counted from year 0, January: the position of a date's month on a single line. */
  function MonthIndex(d: Date): int {
    d.year * 12 + d.month - 1
  }

  function NextDay(d: Date): (r: Date)
    requires Valid(d)
    ensures Valid(r) && Before(d, r)
  {
    if d.day < DaysInMonth(d.year, d.month) then Date(d.year, d.month, d.day + 1)
    else if d.month < 12 then Date(d.year, d.month + 1, 1)
    else Date(d.year + 1, 1, 1)
  }

  function PrevDay(d: Date): (r: Date)
    requires Valid(d)
    ensures Valid(r) && Before(r, d)
  {
    if d.day > 1 then Date(d.year, d.month, d.day - 1)
    else if d.month > 1 then Date(d.year, d.month - 1, DaysInMonth(d.year, d.month - 1))
    else Date(d.year - 1, 12, 31)
  }

  /** Stepping a day forward and a day back, in either order, returns to the same date. */
  lemma NextPrevInverse(d: Date)
    requires Valid(d)
    ensures PrevDay(NextDay(d)) == d && NextDay(PrevDay(d)) == d
  {
  }

  /** The date `k` days after `d` (before it when `k` is negative). */
  function AddDays(d: Date, k: int): (r: Date)
    requires Valid(d)
    ensures Valid(r)
    ensures k > 0 ==> Before(d, r)
    ensures k < 0 ==> Before(r, d)
    decreases if k < 0 then -k else k
  {
    if k == 0 then d
    else if k > 0 then AddDays(NextDay(d), k - 1)
    else AddDays(PrevDay(d), k + 1)
  }

  lemma {:induction false} AddDaysAfterNext(d: Date, k: int)
    requires Valid(d)
    ensures AddDays(NextDay(d), k) == AddDays(d, k + 1)
  {
    if k < 0 {
      NextPrevInverse(d);
    }
  }

  lemma {:induction false} AddDaysAfterPrev(d: Date, k: int)
    requires Valid(d)
    ensures AddDays(PrevDay(d), k) == AddDays(d, k - 1)
  {
    if k > 0 {
      NextPrevInverse(d);
    }
  }

  /** Shifting by `a` days and then by `b` days is shifting by `a + b` days. */
  lemma {:induction false} AddDaysAdditive(d: Date, a: int, b: int)
    requires Valid(d)
    ensures AddDays(AddDays(d, a), b) == AddDays(d, a + b)
    decreases if a < 0 then -a else a
  {
    if a > 0 {
      AddDaysAdditive(NextDay(d), a - 1, b);
      AddDaysAfterNext(d, a - 1 + b);
    } else if a < 0 {
      AddDaysAdditive(PrevDay(d), a + 1, b);
      AddDaysAfterPrev(d, a + 1 + b);
    }
  }

  /** Counting days forward from the first of a month stays inside that month. */
  lemma {:induction false} AddDaysWithinMonth(y: int, m: int, j: nat)
    requires 1 <= m <= 12 && j < DaysInMonth(y, m)
    ensures AddDays(Date(y, m, 1), j) == Date(y, m, 1 + j)
  {
    if j > 0 {
      AddDaysWithinMonth(y, m, j - 1);
      AddDaysAdditive(Date(y, m, 1), j - 1, 1);
    }
  }

  /** Counting past the end of a month by up to 28 days lands in the next month. */
  lemma {:induction false} AddDaysIntoNextMonth(y: int, m: int, j: int)
    requires 1 <= m <= 12
    requires DaysInMonth(y, m) <= j < DaysInMonth(y, m) + 28
    ensures AddDays(Date(y, m, 1), j) ==
      (if m < 12 then Date(y, m + 1, 1 + j - DaysInMonth(y, m)) else Date(y + 1, 1, 1 + j - DaysInMonth(y, m)))
  {
    var n := DaysInMonth(y, m);
    var first := if m < 12 then Date(y, m + 1, 1) else Date(y + 1, 1, 1);
    AddDaysWithinMonth(y, m, n - 1);
    AddDaysAdditive(Date(y, m, 1), n - 1, 1);
    assert AddDays(Date(y, m, n), 1) == first;
    assert AddDays(Date(y, m, 1), n) == first;
    AddDaysWithinMonth(first.year, first.month, j - n);
    AddDaysAdditive(Date(y, m, 1), n, j - n);
  }

  /** Moving forward by at most 28 days advances the month by at most one. */
  lemma FewDaysForwardMonth(d: Date, n: nat)
    requires Valid(d) && n <= 28
    ensures MonthIndex(AddDays(d, n)) <= MonthIndex(d) + 1
  {
    var first := Date(d.year, d.month, 1);
    var j := d.day - 1 + n;
    AddDaysWithinMonth(d.year, d.month, d.day - 1);
    AddDaysAdditive(first, d.day - 1, n);
    assert AddDays(d, n) == AddDays(first, j);
    if j < DaysInMonth(d.year, d.month) {
      AddDaysWithinMonth(d.year, d.month, j);
      assert AddDays(d, n) == Date(d.year, d.month, 1 + j);
    } else {
      AddDaysIntoNextMonth(d.year, d.month, j);
    }
  }

  /**
   * `Date.prototype.setDate(k)`: day `k` of the same month, where a day
   * outside the month rolls into the neighbouring months.
   */
  function SetDayOfMonth(d: Date, k: int): (r: Date)
    requires Valid(d)
    ensures Valid(r)
  {
    AddDays(Date(d.year, d.month, 1), k - 1)
  }

  /**
   * `Date.prototype.setMonth(m0)` with a 0-based month `m0` that may lie
   * outside 0..11: the year absorbs whole multiples of twelve (floor
   * division), the day of the month is kept and, when the month is too
   * short for it, rolls forward into the next month.
   */
  function SetMonth(d: Date, m0: int): (r: Date)
    requires Valid(d)
    ensures Valid(r)
  {
    AddDays(Date(d.year + m0 / 12, m0 % 12 + 1, 1), d.day - 1)
  }

  /** `setDate(getDate() + k)` moves a date by exactly `k` days. */
  lemma SetDayOfMonthShifts(d: Date, k: int)
    requires Valid(d)
    ensures SetDayOfMonth(d, d.day + k) == AddDays(d, k)
  {
    AddDaysWithinMonth(d.year, d.month, d.day - 1);
    AddDaysAdditive(Date(d.year, d.month, 1), d.day - 1, k);
  }

  /** The first day of the month at position `i` on the month line. */
  function MonthStart(i: int): (r: Date)
    ensures Valid(r) && r.day == 1 && MonthIndex(r) == i
  {
    Date(i / 12, i % 12 + 1, 1)
  }

  /** Floor division by twelve moves whole years out of a month count. */
  lemma YearAbsorbsMonths(y: int, m0: int)
    ensures (y * 12 + m0) / 12 == y + m0 / 12 && (y * 12 + m0) % 12 == m0 % 12
  {
    var q, rm := m0 / 12, m0 % 12;
    assert m0 == q * 12 + rm && 0 <= rm < 12;
    assert y * 12 + m0 == (y + q) * 12 + rm;
  }

  /**
   * `setMonth(getMonth() - k)` for 0 <= k <= 12: the same day `k` months
   * earlier when that month is long enough; otherwise the overflow days
   * counted into the month after it.
   */
  lemma SetMonthBack(d: Date, k: nat)
    requires Valid(d) && k <= 12
    ensures var r := SetMonth(d, d.month - 1 - k);
      var t := MonthStart(MonthIndex(d) - k);
      var n := DaysInMonth(t.year, t.month);
      (d.day <= n ==> MonthIndex(r) == MonthIndex(d) - k && r.day == d.day) &&
      (d.day > n ==> MonthIndex(r) == MonthIndex(d) - k + 1 && r.day == d.day - n)
  {
    var m0 := d.month - 1 - k;
    var t := Date(d.year + m0 / 12, m0 % 12 + 1, 1);
    assert MonthIndex(d) - k == d.year * 12 + m0;
    YearAbsorbsMonths(d.year, m0);
    assert MonthStart(MonthIndex(d) - k) == t;
    var n := DaysInMonth(t.year, t.month);
    if d.day <= n {
      AddDaysWithinMonth(t.year, t.month, d.day - 1);
    } else {
      AddDaysIntoNextMonth(t.year, t.month, d.day - 1);
    }
  }

  /** `toISOString`'s year: four digits in 0..9999, otherwise a sign and six digits. */
  function IsoYear(y: int): (s: string)
    ensures 0 <= y <= 9999 ==> |s| == 4 && AllDigits(s) && ValueOf(s) == y
    ensures y < 0 ==> |s| >= 7 && s[0] == '-' && AllDigits(s[1..])
    ensures y > 9999 ==> |s| >= 7 && s[0] == '+' && AllDigits(s[1..])
  {
    if 0 <= y <= 9999 then
      assert Pow10(4) == 10000 by { assert Pow10(2) == 100; }
      ValueOfFixed(y, 4);
      Fixed(y, 4)
    else (if y < 0 then "-" else "+") + ZeroPad(if y < 0 then -y else y, 6)
  }

  /** `String(n).padStart(w, "0")`. */
  function ZeroPad(n: nat, w: nat): (s: string)
    ensures |s| >= w && AllDigits(s)
    ensures |Decimal(n)| >= w ==> s == Decimal(n)
  {
    var digits := Decimal(n);
    if |digits| >= w then digits else Zeros(w - |digits|) + digits
  }

  function Zeros(k: nat): (s: string)
    ensures |s| == k && AllDigits(s)
  {
    if k == 0 then "" else Zeros(k - 1) + "0"
  }

  /** The date part of `toISOString()`: `YYYY-MM-DD` for years 0..9999. */
  function FormatIso(d: Date): (s: string)
    requires Valid(d)
    ensures FourDigitYear(d) ==> |s| == 10 && s[4] == '-' && s[7] == '-'
  {
    IsoYear(d.year) + "-" + Fixed(d.month, 2) + "-" + Fixed(d.day, 2)
  }

  /** RFC 3339 section 5.6 `full-date`: `date-fullyear "-" date-month "-" date-mday`, with the day valid for the month. */
  predicate IsFullDate(s: string)
    ensures IsFullDate(s) ==> |s| == 10 && s[4] == '-' && s[7] == '-' && AllDigits(s[8..]) && 1 <= ValueOf(s[8..]) <= 31
  {
    |s| == 10 && AllDigits(s[..4]) && s[4] == '-' && AllDigits(s[5..7]) && s[7] == '-' && AllDigits(s[8..]) &&
    1 <= ValueOf(s[5..7]) <= 12 && 1 <= ValueOf(s[8..]) <= DaysInMonth(ValueOf(s[..4]), ValueOf(s[5..7]))
  }

  /** Reading a `YYYY-MM-DD` string into a date; anything else is an invalid date. */
  function ParseIso(s: string): (r: Option<Date>)
    ensures r.Some? <==> IsFullDate(s)
    ensures r.Some? ==> Valid(r.value) && FourDigitYear(r.value)
  {
    if IsFullDate(s) then
      ValueOfBound(s[..4]);
      Some(Date(ValueOf(s[..4]), ValueOf(s[5..7]), ValueOf(s[8..])))
    else None
  }

  /** Every valid four-digit-year date renders as a full-date that parses back to it. */
  lemma FormatThenParse(d: Date)
    requires Valid(d) && FourDigitYear(d)
    ensures IsFullDate(FormatIso(d))
    ensures ParseIso(FormatIso(d)) == Some(d)
  {
    var s := FormatIso(d);
    assert s[..4] == Fixed(d.year, 4) && s[5..7] == Fixed(d.month, 2) && s[8..] == Fixed(d.day, 2);
    ValueOfFixed(d.year, 4);
    ValueOfFixed(d.month, 2);
    ValueOfFixed(d.day, 2);
  }

  /** Every full-date string is the rendering of the date it parses to. */
  lemma ParseThenFormat(s: string)
    requires IsFullDate(s)
    ensures FormatIso(ParseIso(s).value) == s
  {
    FixedOfValue(s[..4]);
    FixedOfValue(s[5..7]);
    FixedOfValue(s[8..]);
    assert s == s[..4] + "-" + s[5..7] + "-" + s[8..];
  }

  /** Two `-`-separated strings whose heads have equal length compare head first. */
  lemma StrLessDash(x: string, xr: string, y: string, yr: string)
    requires |x| == |y|
    ensures StrLess(x + "-" + xr, y + "-" + yr) <==> StrLess(x, y) || (x == y && StrLess(xr, yr))
  {
    assert x + "-" + xr == x + ("-" + xr);
    assert y + "-" + yr == y + ("-" + yr);
    StrLessConcat(x, "-" + xr, y, "-" + yr);
    StrLessConcat("-", xr, "-", yr);
    assert !StrLess("-", "-");
  }

  /** Same-width renderings are equal exactly when the numbers are. */
  lemma FixedEqual(n: nat, m: nat, w: nat)
    requires n < Pow10(w) && m < Pow10(w)
    ensures Fixed(n, w) == Fixed(m, w) <==> n == m
  {
    ValueOfFixed(n, w);
    ValueOfFixed(m, w);
  }

  /** A four-digit-year rendering, grouped as year, then month and day. */
  lemma IsoParts(d: Date)
    requires Valid(d) && FourDigitYear(d)
    ensures FormatIso(d) == Fixed(d.year, 4) + "-" + (Fixed(d.month, 2) + "-" + Fixed(d.day, 2))
  {
  }

  /** The `MM-DD` tails of two renderings compare as the months, then the days. */
  lemma MonthDayOrder(a: Date, b: Date)
    requires Valid(a) && Valid(b)
    ensures StrLess(Fixed(a.month, 2) + "-" + Fixed(a.day, 2), Fixed(b.month, 2) + "-" + Fixed(b.day, 2)) <==>
      a.month < b.month || (a.month == b.month && a.day < b.day)
  {
    StrLessDash(Fixed(a.month, 2), Fixed(a.day, 2), Fixed(b.month, 2), Fixed(b.day, 2));
    FixedOrder(a.month, b.month, 2);
    FixedOrder(a.day, b.day, 2);
    FixedEqual(a.month, b.month, 2);
  }

  /**
   * For four-digit years, comparing renderings as strings (what `a > b`
   * does on two `YYYY-MM-DD` strings) is comparing the dates.
   */
  lemma FormatOrder(a: Date, b: Date)
    requires Valid(a) && Valid(b) && FourDigitYear(a) && FourDigitYear(b)
    ensures StrLess(FormatIso(a), FormatIso(b)) <==> Before(a, b)
  {
    IsoParts(a);
    IsoParts(b);
    StrLessDash(Fixed(a.year, 4), Fixed(a.month, 2) + "-" + Fixed(a.day, 2),
                Fixed(b.year, 4), Fixed(b.month, 2) + "-" + Fixed(b.day, 2));
    MonthDayOrder(a, b);
    FixedOrder(a.year, b.year, 4);
    FixedEqual(a.year, b.year, 4);
  }
}
