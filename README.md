# Sehatin client rules in Dafny

Sehatin is a nutrition and weight tracker: a Next.js client over a REST API.
This project models the client's own logic, the part that decides what is
sent, what is shown and when. It covers:

- **Statistics:** the date ranges and chart series of the statistics tabs,
  including the calorie axis rounding and the blank fallback series.
- **Form rules and payloads:**
  - the rules of the sign-in, sign-up, profile and onboarding forms;
  - the weigh-in, meal-confirmation and save-meal forms, with the
    react-hook-form semantics of `required`, `minLength`, `min`, `pattern`
    and `validate`;
  - the request bodies those forms send.
- **Dialogs:**
  - the daily check-in gate that runs after sign-in;
  - the scan flow from camera to confirmation to analysis;
  - the menu generator with its `localStorage` restore;
  - each dialog's own view of the body scroll lock.
- **Plumbing:** the query keys and the cache invalidations after each
  mutation, and the auth guard's redirect.

## How the model is built

Each source file is one module. Pure helpers become datatypes, functions
and lemmas. A component whose state React changes step by step becomes a
`class`:

- each `useState`, the form values, the mutation's pending flag and the body
  lock become fields;
- what the component sends or reports becomes fields as well: the request
  bodies it posts, the cache roots it invalidates, its toasts and its calls
  to the parent;
- event handlers and effects become methods that state the whole new state
  with `old(...)`.

The clock, the network answers and `localStorage` are parameters of these
methods. JavaScript dates are proleptic Gregorian civil dates with
`setDate`/`setMonth` roll-over (`CivilDates`). `toISOString().split("T")[0]`
is the `YYYY-MM-DD` rendering of RFC 3339 section 5.6 `full-date`, proved
to round-trip with its parser. Text comparison of such dates is proved
equal to date order.

## Model

| member | source | states |
|---|---|---|
| AuthGuard.Render | providers/AuthProvider.tsx:33-45 | spinner exactly while loading; nothing exactly when loaded without a user; the children exactly when loaded with one |
| AuthGuard.RedirectTarget | providers/AuthProvider.tsx:17-31 | a redirect happens iff there is no token, or the query finished without a user; the target is always the sign-in page |
| AuthGuard.NothingRedirects | providers/AuthProvider.tsx:17-43 | whenever the guard renders nothing, its effect redirects to sign-in |
| AuthGuard.ChildrenNeedUser | providers/AuthProvider.tsx:41-45 | the page is rendered only for a loaded user |
| AuthGuard.Guard.constructor | providers/AuthProvider.tsx:17 | starts at the given browser location |
| AuthGuard.Guard.Effect | providers/AuthProvider.tsx:17-31 | the location becomes the sign-in page exactly when a redirect is due, and is unchanged otherwise |
| PeriodMemo.PeriodName | lib/period-memo.ts:1 | every period has a parameter of at least four characters |
| PeriodMemo.PeriodNameInjective | lib/period-memo.ts:1 | distinct periods have distinct names, so they never share a cache key |
| PeriodMemo.StartDate | lib/period-memo.ts:5-8 | the start after `setDate`/`setMonth` is a valid date |
| PeriodMemo.PeriodGetter | lib/period-memo.ts:1-14 | `dateTo` is today rendered and `dateFrom` is the period's start rendered, and that start is strictly before today; `RangeIsOrderedFullDates` adds that both are full-dates and `dateFrom` sorts first |
| PeriodMemo.WeekIsSevenDays | lib/period-memo.ts:6 | the week start is exactly seven days back; seven days forward from it is today |
| PeriodMemo.MonthPeriodsKeepDay | lib/period-memo.ts:7-8 | month and 3-month starts keep today's day one or three months back, rolling surplus days into the next month |
| PeriodMemo.StartBeforeToday | lib/period-memo.ts:5-8 | for every period the start is strictly before today |
| PeriodMemo.MonthIndexOrder | lib/period-memo.ts:7-8 | an earlier month, or the same month and an earlier day, is an earlier date |
| PeriodMemo.RangeIsOrderedFullDates | lib/period-memo.ts:10-13 | for years 1..9999, both ends are full-dates, `dateTo` renders today, and `dateFrom` is earlier as a date and as a string |
| PeriodMemo.StartStaysInYearRange | lib/period-memo.ts:5-8 | going back at most three months from year >= 1 never reaches a negative year |
| PeriodMemo.SevenDaysBackYear | lib/period-memo.ts:6 | seven days back moves at most one year back |
| PeriodMemo.RangeRequestIdentifies | lib/period-memo.ts:1-13 | a request URL made of a period and a range (same-width dates) names the period and the range: two such URLs are equal iff both parts are |
| CivilDates.DaysInMonth | lib/period-memo.ts:6-8 | every month has 28 to 31 days |
| CivilDates.NextDay | lib/period-memo.ts:6 | the next day is valid and strictly later |
| CivilDates.PrevDay | lib/period-memo.ts:6 | the previous day is valid and strictly earlier |
| CivilDates.NextPrevInverse | lib/period-memo.ts:6 | one day forward and one back, in either order, is the identity |
| CivilDates.AddDays | lib/period-memo.ts:6 | moving by k days gives a valid date, later for k > 0 and earlier for k < 0 |
| CivilDates.AddDaysAfterNext | lib/period-memo.ts:6 | k days after the next day is k + 1 days after the date |
| CivilDates.AddDaysAfterPrev | lib/period-memo.ts:6 | k days after the previous day is k - 1 days after the date |
| CivilDates.AddDaysAdditive | lib/period-memo.ts:6 | moving by a and then by b is moving by a + b |
| CivilDates.AddDaysWithinMonth | lib/period-memo.ts:7-8 | counting j days from the first of a month stays in that month, on day 1 + j |
| CivilDates.AddDaysIntoNextMonth | lib/period-memo.ts:7-8 | counting past the month's end, by up to 28 days, lands in the next month on the overflow day |
| CivilDates.FewDaysForwardMonth | lib/period-memo.ts:7-8 | up to 28 days forward advances the month by at most one |
| CivilDates.SetDayOfMonth | lib/period-memo.ts:6 | `setDate` always yields a valid date |
| CivilDates.SetMonth | lib/period-memo.ts:7-8 | `setMonth` with any month number yields a valid date |
| CivilDates.SetDayOfMonthShifts | lib/period-memo.ts:6 | `setDate(getDate() + k)` moves by exactly k days |
| CivilDates.SetMonthBack | lib/period-memo.ts:7-8 | `setMonth(getMonth() - k)` lands on the same day k months back when that month is long enough, and on the overflow day of the month after otherwise |
| CivilDates.ZeroPad | lib/period-memo.ts:11 | a zero-padded number has at least the width and only digits; a number already that wide is unchanged |
| CivilDates.IsoYear | lib/period-memo.ts:11 | years 0..9999 give four digits that read back as the year; earlier years start with "-" and later ones with "+", followed by digits |
| CivilDates.FormatIso | lib/period-memo.ts:11 | for a four-digit year, ten characters with dashes at positions 4 and 7 |
| CivilDates.Zeros | lib/period-memo.ts:11 | k zeros are k digits |
| CivilDates.ParseIso | components/stats/section/calories.tsx:173 | a string parses iff it is a full-date; the date it gives is valid with a four-digit year |
| CivilDates.IsFullDate | components/stats/section/calories.tsx:173 | a string `new Date` reads as a calendar day has ten characters, dashes at positions 4 and 7, and a two-digit day from 1 to 31 |
| CivilDates.FormatThenParse | lib/period-memo.ts:11 | every valid four-digit-year date renders as a full-date that parses back to itself |
| CivilDates.ParseThenFormat | components/stats/section/calories.tsx:173-175 | every full-date is the rendering of the date it parses to |
| CivilDates.FormatOrder | components/data-modal.tsx:160-161 | string `<` on two renderings is date order |
| Text.Fixed | lib/period-memo.ts:11 | a fixed-width rendering has exactly w digits |
| Text.Decimal | components/scan/modal-confirm.tsx:54 | `String(n)` is at least one digit, and a single digit exactly below 10 |
| Text.FixedOrder | components/data-modal.tsx:161 | same-width renderings compare as strings exactly as the numbers compare |
| Types.OrZero | components/container-modal.tsx:94 | `x \|\| 0`: a present non-zero value is kept; a missing value or 0 gives 0 |
| Types.TruthyOrNone | components/profile/onboarding-form.tsx:49-50 | `x \|\| undefined`: present exactly for a non-zero value, and then unchanged |
| Queries.Invalidates | components/save-meals-modal.tsx:94-95 | invalidating a set of roots reaches a key exactly when some root is a one-element prefix of it, the partial match `invalidateQueries({ queryKey: [root] })` applies |
| Queries.IdQuery | components/scan/modal-confirm.tsx:95-96 | an id query runs iff the id is present and non-empty, and then is keyed by the root and the id and fetches the path around the id |
| Queries.IdQueriesIdentify | components/dahboard/generate-menu.tsx:95-96 | two running queries of one kind share a key iff their ids agree and a URL iff their ids agree, and invalidating a root set reaches them iff it holds the root |
| FormRules.TextRule | components/auth/register-form.tsx:70-76 | valid iff a required field is non-empty and a non-empty value has at least the minimum length in UTF-16 code units; `required` fires only on empty, `minLength` only on non-empty |
| FormRules.Utf16Length | components/auth/login-form.tsx:53-60 | JavaScript `.length`: between the number of characters and twice it, and equal to it iff no character lies outside the Basic Multilingual Plane |
| FormRules.Utf16LengthAppend | components/auth/login-form.tsx:53-60 | the length of a concatenation is the sum of the lengths |
| FormRules.NumberRule | components/stats/weight-form.tsx:74-78 | valid iff a required field is non-blank and a number meets the minimum; `NaN` passes `min` |
| FormRules.ToNumber | components/stats/weight-form.tsx:61 | `Number(...)`: blank is 0, a number itself, and `NaN` exactly for non-numeric text |
| CircleProgress.Radius | components/dahboard/circle-progress.tsx:19 | the centred stroke's outer edge sits exactly half a stroke inside the box, i.e. half a stroke of margin on each side; the radius is positive iff the box is wider than two strokes |
| CircleProgress.Clamp | components/dahboard/circle-progress.tsx:22 | always in [0, 100]; identity inside; 0 below and 100 above |
| CircleProgress.OffsetBounds | components/dahboard/circle-progress.tsx:20-23 | the offset lies in [0, circumference]; the full circumference at or below 0%, and 0 at or above 100% |
| CircleProgress.Offset | components/dahboard/circle-progress.tsx:20-23 | the undrawn part of the ring is the circumference times the share of 100 the clamped percentage leaves |
| CircleProgress.OffsetMonotone | components/dahboard/circle-progress.tsx:22-23 | a larger percentage never leaves more of the ring undrawn |
| ChartCanvas.Fallback | components/stats/chart-canvas.tsx:80-81 | seven empty labels and seven zeros |
| ChartCanvas.CalorieSeries | components/stats/chart-canvas.tsx:90-91 | one label and one value per point, in order: date and calories |
| ChartCanvas.WeightSeries | components/stats/chart-canvas.tsx:105-106 | one label and one value per point, in order: date and weight |
| ChartCanvas.OrFallback | components/stats/chart-canvas.tsx:89-95 | non-empty, equal-length series; the source when non-empty, the fallback otherwise |
| ChartCanvas.MaxOf | components/stats/chart-canvas.tsx:124 | `Math.max` is one of the values and bounds them all |
| ChartCanvas.Ceil | components/stats/chart-canvas.tsx:125 | `Math.ceil`: the least integer at or above x |
| ChartCanvas.RoundedMax | components/stats/chart-canvas.tsx:123-125 | a multiple of 50 at or above the maximum and less than 50 above it; 50 for a zero maximum |
| ChartCanvas.CalorieAxis | components/stats/chart-canvas.tsx:122-135 | step 50 and a suggested maximum that is a multiple of 50 bounding every plotted value |
| ChartCanvas.TabSeries | components/stats/chart-canvas.tsx:86-111 | the selected series is never empty and its arrays have equal length |
| ChartCanvas.RenderChart | components/stats/chart-canvas.tsx:69-135 | the effect plots the tab's series; the calorie tab gets "Kalori (kcal)" and the rounded axis, the weight tab "Berat Badan (kg)" and the zero-based axis |
| ChartCanvas.PlotsSourceSeries | components/stats/chart-canvas.tsx:86-111 | a non-empty source series is plotted point for point, in order |
| ChartCanvas.EmptySeriesFallsBack | components/stats/chart-canvas.tsx:92-95 | an empty source gives the fallback, whose axis tops out at 50 |
| ChartCanvas.OneQueryPerTab | components/stats/chart-canvas.tsx:45-62 | exactly one of the two chart queries is enabled |
| ChartCanvas.WeightQueryEnabled | components/stats/chart-canvas.tsx:45 | the weight query runs on every tab but the calorie tab |
| ChartCanvas.CalorieQueryEnabled | components/stats/chart-canvas.tsx:62 | the calorie query runs on every tab but the weight tab |
| ChartCanvas.ChartKey | components/stats/chart-canvas.tsx:36-53 | four parts, starting with the query's root |
| ChartCanvas.WeightChartUrl | components/stats/chart-canvas.tsx:41 | the request starts with the weight chart path and its `period` parameter, and ends with `&end_date=` and the range's end |
| ChartCanvas.CalorieChartUrl | components/stats/chart-canvas.tsx:58 | the request starts with the nutrition chart path and its `period` parameter, and ends with `&end_date=` and the range's end |
| ChartCanvas.ChartRequestsMatchKeys | components/stats/chart-canvas.tsx:36-53 | for same-width ranges, two weight-chart (or two calorie-chart) requests have the same URL iff they have the same cache key |
| CaloriesSection.GetDateRange | components/stats/section/calories.tsx:24-31 | the week range: seven days before today to today, rendered |
| CaloriesSection.ShiftDay | components/stats/section/calories.tsx:172-176 | a shifted value exists iff the filter is a full-date, and is the date k days later, rendered |
| CaloriesSection.ShiftIsOneDay | components/stats/section/calories.tsx:172-201 | previous and next move a rendered date by exactly one calendar day |
| CaloriesSection.PrevThenNext | components/stats/section/calories.tsx:172-201 | next undoes previous and previous undoes next |
| CaloriesSection.MealsUrl | components/stats/section/calories.tsx:65 | `&meal_type=` is appended only when a type is chosen |
| CaloriesSection.MealsUrlDistinguishesFilters | components/stats/section/calories.tsx:65 | for one day, two filters give the same URL iff they are equal |
| CaloriesSection.ShowsEmptyMessage | components/stats/section/calories.tsx:260 | the empty message shows exactly while the list is missing or empty |
| CaloriesSection.CalorieChart | components/stats/section/calories.tsx:85-126 | the calorie series or the fallback, on an axis that only begins at zero |
| CaloriesSection.CaloriesTab.constructor | components/stats/section/calories.tsx:34-43 | week, no type, today's date filter, and the range fixed at mount |
| CaloriesSection.CaloriesTab.ChartKey | components/stats/section/calories.tsx:47 | the chart key uses the current period and the mount-time range |
| CaloriesSection.CaloriesTab.ChartUrl | components/stats/section/calories.tsx:47-51 | the tab requests the statistics calorie chart's own URL for its period and mount-time range, so the two share a cache entry |
| CaloriesSection.CaloriesTab.HistoryKey | components/stats/section/calories.tsx:60 | the history key is the root, the date filter, and the type's value or "" when no type is chosen |
| CaloriesSection.CaloriesTab.SetPeriod | components/stats/section/calories.tsx:131 | only the period changes; the chart URL keeps everything after the period |
| CaloriesSection.CaloriesTab.SetMealType | components/stats/section/calories.tsx:145-147 | only the type changes |
| CaloriesSection.CaloriesTab.PickDate | components/stats/section/calories.tsx:160-163 | only the date filter changes |
| CaloriesSection.CaloriesTab.Step | components/stats/section/calories.tsx:172-201 | the filter moves by one day when it is a date, and is unchanged otherwise |
| CaloriesSection.CaloriesTab.Today | components/stats/section/calories.tsx:186-188 | the filter becomes today |
| WeightSection.IsAlreadyInput | components/stats/section/weight.tsx:129-135 | false on an empty chart; otherwise true iff some entry falls on today |
| WeightSection.OnDay | components/stats/section/weight.tsx:131-133 | an entry falls on today only when its date is a full-date and today has a four-digit year; an unparsable date never matches |
| WeightSection.OnDayIsSameDate | components/stats/section/weight.tsx:129-135 | an entry dated with a day's own rendering falls on today iff that day is today |
| WeightSection.HistoryKey | components/stats/section/weight.tsx:41 | root "weight-data", the period's range, then the period |
| WeightSection.HistoryUrl | components/stats/section/weight.tsx:44-50 | the request starts with the weights path and its `period` parameter, and asks for at most 100 entries |
| WeightSection.HistoryRequestMatchesKey | components/stats/section/weight.tsx:41-49 | for years 1..9999, two history requests have the same URL iff they have the same cache key; the URL ends with `&limit=100` |
| WeightSection.ChartKey | components/stats/section/weight.tsx:25 | the same key as the statistics chart's weight query |
| WeightSection.DisplayHeight | components/stats/section/weight.tsx:176 | `height_cm \|\| 0` |
| WeightSection.WeightChart | components/stats/section/weight.tsx:60-97 | the weight series or the fallback, on a zero-based axis |
| WeighIn.WeightError | components/stats/weight-form.tsx:74-78 | valid iff `NaN` or at least 1 kg |
| WeighIn.Body | components/stats/weight-form.tsx:57-66 | the log date is today rendered, and the weight is `Number(input)` |
| WeighIn.ValidBodyWeight | components/stats/weight-form.tsx:57-78 | a body from a valid input carries at least 1 kg, or `NaN` |
| WeighIn.BodyDateIsToday | components/stats/weight-form.tsx:58 | the log date is a full-date that reads back as today |
| WeighIn.AsWrittenInvalidations | components/stats/weight-form.tsx:45-47 | the two roots the source invalidates: "weight-history" and "weight-chart" |
| WeighIn.WeighInInvalidations | components/stats/section/weight.tsx:25-41 | the roots of the two queries a weigh-in changes: "weight-data" and "weight-chart" |
| WeightForm.DefaultFailsRule | components/stats/weight-form.tsx:29-33 | the default 0 breaks the 1 kg minimum |
| WeightForm.SubmitDisabled | components/stats/weight-form.tsx:90 | the button is enabled exactly when no save is pending and today is not yet logged |
| WeightForm.AsWrittenMissesHistory | components/stats/weight-form.tsx:45 | as written, the history query is not invalidated but the chart is; the corrected roots reach both and not the dashboard |
| WeightForm.WeightFormState.constructor | components/stats/weight-form.tsx:29-33 | the default weight, no error, not yet submitted, nothing pending or sent |
| WeightForm.WeightFormState.Enter | components/stats/weight-form.tsx:24-33 | the value changes; once the form has been submitted, the error becomes the new value's rule result, and before that it is kept |
| WeightForm.WeightFormState.Submit | components/stats/weight-form.tsx:57-90 | nothing while disabled (pending or already logged); otherwise the form counts as submitted, an invalid value shows its error, and a valid one is sent and pending |
| WeightForm.WeightFormState.Settle | components/stats/weight-form.tsx:44-53 | corrected (see ## Findings): success invalidates the corrected roots, toasts and `reset()`s to the default with no error and not submitted; failure toasts and keeps the value and its error |
| WeightForm.ErrorClearsOnValidEntry | components/stats/weight-form.tsx:24-84 | submitting the untouched form and then typing a valid weight clears the error without another submit, and nothing is sent |
| DailyCheckModal.AsWrittenInvalidations | components/daily-check-modal.tsx:40-43 | the weigh-in roots as written, plus the dashboard |
| DailyCheckModal.CheckInInvalidations | components/daily-check-modal.tsx:40-43 | corrected: exactly "weight-data", "weight-chart" and "dashboard" |
| DailyCheckModal.DailyCheckState.constructor | components/daily-check-modal.tsx:57-59 | a blank input, no error, not yet submitted, nothing sent |
| DailyCheckModal.DailyCheckState.Prefill | components/daily-check-modal.tsx:61-67 | a non-zero current weight becomes the value and the reset default, and clears the error and the submitted state; 0 changes nothing |
| DailyCheckModal.DailyCheckState.Enter | components/daily-check-modal.tsx:50-57 | the value changes; once the form has been submitted, the error becomes the new value's rule result, and before that it is kept |
| DailyCheckModal.DailyCheckState.Submit | components/daily-check-modal.tsx:70-130 | nothing while pending; otherwise the form counts as submitted, an invalid value shows its error, and a valid one is sent with today's date |
| DailyCheckModal.DailyCheckState.Settle | components/daily-check-modal.tsx:40-49 | corrected (see ## Findings): success invalidates the corrected roots, toasts and closes; failure only toasts |
| DailyCheckModal.DailyCheckState.Skip | components/daily-check-modal.tsx:142-146 | back to the default value, no error, not submitted, closed, nothing sent |
| ContainerModal.GetToday | components/container-modal.tsx:17 | ten characters, a full-date that parses to today |
| ContainerModal.DailyUrl | components/container-modal.tsx:34-36 | the lookup asks for `daily` weights from today to today, both ends reading back as today, and ends with `&limit=1` |
| ContainerModal.CheckedIn | components/container-modal.tsx:30-46 | checked in iff the answer has a non-empty list; a failure means no |
| ContainerModal.DailyModalWeight | components/container-modal.tsx:94 | `current_weight_kg \|\| 0` |
| ContainerModal.Gate.constructor | components/container-modal.tsx:20-22 | both dialogs closed, check-in unknown, page scrollable |
| ContainerModal.Gate.Commit | components/container-modal.tsx:69-88 | the check-in effect runs only on changed dependencies and opens the daily dialog for a known "no" with the profile dialog closed; this component's lock follows the dialogs |
| ContainerModal.Gate.UserChanged | components/container-modal.tsx:52-64 | no user: nothing; no goal: the profile dialog opens and nothing is sent; otherwise today's lookup is sent |
| ContainerModal.Gate.DailyAnswered | components/container-modal.tsx:38-44 | the check-in becomes the answer, and the daily dialog opens for "no" while the profile dialog is closed |
| ContainerModal.Gate.CloseDataModal | components/container-modal.tsx:92 | the profile dialog closes; a pending "no" then opens the daily dialog |
| ContainerModal.Gate.CloseDailyModal | components/container-modal.tsx:96 | the daily dialog closes and stays closed |
| ContainerModal.Gate.Unmount | components/container-modal.tsx:87 | the lock is released |
| ContainerModal.NoWeighInOpensDaily | components/container-modal.tsx:52-76 | a user with a goal and no weigh-in ends with the daily dialog open and one lookup sent |
| ContainerModal.NoGoalOpensProfile | components/container-modal.tsx:52-60 | a user without a goal sees only the profile dialog, and no lookup is sent |
| DataModal.MeasureError | components/data-modal.tsx:93-99 | valid iff `NaN` or at least 1 |
| DataModal.BirthDateError | components/data-modal.tsx:157-165 | `required` iff empty; rejected iff later than today as strings |
| DataModal.BirthDateRuleIsDateOrder | components/data-modal.tsx:159-163 | for a rendered date, the string rule is "not after today" |
| DataModal.DefaultsInvalid | components/data-modal.tsx:27-33 | the untouched dialog misses weight, height and birth date |
| DataModal.FormValid | components/data-modal.tsx:89-198 | the rules pass iff weight and height are `NaN` or at least 1 and the birth date is non-empty and not after today as a string |
| DataModal.Payload | components/data-modal.tsx:46-58 | a payload exists iff the birth date is a full-date; it carries the form's fields |
| DataModal.GoalInfo | components/data-modal.tsx:36-40 | every goal has advice |
| DataModal.GoalInfoInjective | components/data-modal.tsx:36-40 | each goal has its own advice |
| DataModal.DataModalState.constructor | components/data-modal.tsx:26-34 | the defaults, nothing sent |
| DataModal.DataModalState.SetGender | components/data-modal.tsx:215-228 | only the gender changes; the buttons are disabled while saving |
| DataModal.DataModalState.Edit | components/data-modal.tsx:89-198 | only the form changes; the inputs are disabled while saving |
| DataModal.DataModalState.Save | components/data-modal.tsx:46-58 | a valid form with a parsable date is sent and pending; anything else sends nothing |
| DataModal.DataModalState.Settle | components/data-modal.tsx:60-67 | success invalidates "user", toasts and closes; failure toasts the hook's error and stays open |
| OnboardingForm.BeforeT | components/profile/onboarding-form.tsx:43 | `split("T")[0]`: the longest prefix without "T" |
| OnboardingForm.BeforeTOfTimestamp | components/profile/onboarding-form.tsx:42-44 | a full date followed by a time part keeps exactly the date |
| OnboardingForm.ToField | components/profile/onboarding-form.tsx:49-50 | missing is blank, a number is itself |
| OnboardingForm.ResetValues | components/profile/onboarding-form.tsx:40-53 | name or "", the date part of the birth date, height and weight with 0 as missing, the goal as is |
| OnboardingForm.NameError | components/profile/onboarding-form.tsx:96 | valid iff non-empty |
| OnboardingForm.BirthDateError | components/profile/onboarding-form.tsx:111 | valid iff non-empty |
| OnboardingForm.HeightError | components/profile/onboarding-form.tsx:129-133 | valid iff `NaN` or at least 30 |
| OnboardingForm.WeightError | components/profile/onboarding-form.tsx:149-153 | valid iff `NaN` or at least 1 |
| OnboardingForm.FormValid | components/profile/onboarding-form.tsx:93-155 | the rules pass iff there is a name and a birth date, a height of `NaN` or at least 30, and a weight of `NaN` or at least 1 |
| OnboardingForm.GoalCaptionsDistinct | components/profile/onboarding-form.tsx:171-186 | the three goal buttons have three different captions |
| OnboardingForm.GoalCaption | components/profile/onboarding-form.tsx:180-184 | each goal button shows one of "Turun BB", "Stabil" and "Naik BB" |
| OnboardingForm.Payload | components/profile/onboarding-form.tsx:60-70 | the fields renamed to the API's names, numbers through `Number` |
| OnboardingForm.ResetThenSubmitKeepsProfile | components/profile/onboarding-form.tsx:40-70 | an untouched form filled from a valid profile sends that profile back |
| OnboardingForm.AsWrittenUser | components/profile/onboarding-form.tsx:19 | `data?.data.user` on the returned user: nothing before loading, an error after |
| OnboardingForm.FormUser | service/auth.ts:34-42 | the corrected read: the user the hook returns |
| OnboardingForm.AsWrittenNeverFills | components/profile/onboarding-form.tsx:19 | as written, a loaded user always makes the read throw; the corrected read gives the user |
| OnboardingForm.OnboardingState.constructor | components/profile/onboarding-form.tsx:30-38 | the defaults, nothing in flight or sent |
| OnboardingForm.OnboardingState.UserChanged | components/profile/onboarding-form.tsx:40-54 | corrected (see ## Findings): a user read the corrected way resets the form to its values; no user keeps it |
| OnboardingForm.OnboardingState.SetGoal | components/profile/onboarding-form.tsx:171-173 | only the goal changes |
| OnboardingForm.OnboardingState.Edit | components/profile/onboarding-form.tsx:93-155 | only the values change |
| OnboardingForm.OnboardingState.Submit | components/profile/onboarding-form.tsx:60-70 | a valid form is sent as the newest update, even while another is in flight; an invalid one sends nothing |
| OnboardingForm.OnboardingState.Settle | components/profile/onboarding-form.tsx:71-82 | a failure always toasts the hook's error; only the newest update's success invalidates "user" and toasts, and only its failure adds the form's toast |
| OnboardingForm.DoubleSave | components/profile/onboarding-form.tsx:60-83 | saving twice before the first answer sends both updates but shows one success toast and invalidates "user" once |
| LoginForm.IndexOf | components/auth/login-form.tsx:36 | the first position of a character, and `None` iff it is absent |
| LoginForm.LastIndexOf | components/auth/login-form.tsx:36 | the last position of a character, and `None` iff it is absent |
| LoginForm.EmailValidIsPattern | components/auth/login-form.tsx:36 | the direct test via the first "@" and last "." accepts exactly what the anchored pattern matches |
| LoginForm.EmailValid | components/auth/login-form.tsx:36 | an accepted address holds an "@" that does not come first, and a "." followed by two to four characters at its end |
| LoginForm.EmailError | components/auth/login-form.tsx:32-38 | `required` iff empty; valid iff the pattern matches |
| LoginForm.PasswordError | components/auth/login-form.tsx:53-60 | `required` iff empty; too short iff 1 to 5 UTF-16 code units; valid iff at least 6 |
| LoginForm.Credentials | components/auth/login-form.tsx:20-21 | sent iff valid, and then unchanged |
| LoginForm.SentLogin | components/auth/login-form.tsx:20-60 | a sent login has exactly one "@", ends in two letters, and has a password of at least 6 UTF-16 code units |
| RegisterForm.EmailAcceptedIsPattern | components/auth/register-form.tsx:55 | the local test accepts exactly the strings the unanchored pattern finds a match in |
| RegisterForm.PatternGivesAccepted | components/auth/register-form.tsx:55 | a match anywhere gives the local shape |
| RegisterForm.AcceptedGivesPattern | components/auth/register-form.tsx:55 | the local shape contains a match |
| RegisterForm.NameError | components/auth/register-form.tsx:39-42 | valid iff non-empty |
| RegisterForm.EmailError | components/auth/register-form.tsx:51-57 | `required` iff empty; valid iff the pattern finds a match |
| RegisterForm.PasswordError | components/auth/register-form.tsx:70-80 | `required` iff empty; too short iff 1 to 7 UTF-16 code units; valid iff at least 8 with a letter and a digit on one line |
| RegisterForm.PasswordPattern | components/auth/register-form.tsx:78 | a matching password has at least two characters, since a letter and a digit cannot be one character |
| RegisterForm.ConfirmationError | components/auth/register-form.tsx:96-100 | valid iff non-empty and equal to the password |
| RegisterForm.Credentials | components/auth/register-form.tsx:26-28 | sent iff valid, and then unchanged |
| RegisterForm.SentRegistration | components/auth/register-form.tsx:26-100 | a sent registration has a name, an "@" before a ".", a password of at least 8 UTF-16 code units with a letter and a digit, and a matching confirmation |
| MealClock.AutoMealType | components/scan/modal-confirm.tsx:42-49 | breakfast iff 5-10, lunch iff 11-15, dinner iff 16-20, snack otherwise |
| MealClock.MealTypeNamesInjective | components/scan/modal-confirm.tsx:42-49 | values and labels each identify the meal type |
| MealClock.MealTypeValue | components/scan/modal-confirm.tsx:45-48 | each meal type sends one of "breakfast", "lunch", "dinner" and "snack" |
| MealClock.MealTypeLabel | components/scan/modal-confirm.tsx:45-48 | each meal type is labelled one of "Sarapan", "Makan Siang", "Makan Malam" and "Makanan ringan" |
| MealClock.Pad | components/scan/modal-confirm.tsx:54 | the digits read back as the number; two characters below 100 |
| MealClock.YearString | components/scan/modal-confirm.tsx:57 | the unpadded year, with a minus sign when negative, reads back as the year |
| MealClock.DecimalIsFixed | components/scan/modal-confirm.tsx:54 | a number of exactly w digits prints as its w-digit rendering |
| MealClock.PadIsFixed | components/scan/modal-confirm.tsx:54 | below 100, `pad` is two-digit zero padding |
| MealClock.DateTimeLocalShape | components/scan/modal-confirm.tsx:52-67 | for four-digit years: 16 characters, separators in place, the date rendered, and hour and minute readable |
| MealClock.DateTimeLocal | components/scan/modal-confirm.tsx:52-67 | for any year, the value ends in "T", two digits, ":" and two digits that read back as the hour and the minute |
| ModalConfirm.ToFormItem | components/scan/modal-confirm.tsx:151-161 | id, name, calories and macros copied; quantity 1, unit "porsi", no notes |
| ModalConfirm.ToFormItems | components/scan/modal-confirm.tsx:123-133 | one form item per scan item, in order |
| ModalConfirm.AddOrNaN | components/scan/modal-confirm.tsx:168 | a sum is a number iff both operands are, and is then their sum |
| ModalConfirm.TotalCalories | components/scan/modal-confirm.tsx:167-170 | the total is a number iff no item's calories read as `NaN` |
| ModalConfirm.TotalAppend | components/scan/modal-confirm.tsx:167-170 | the total of a concatenation adds the two totals |
| ModalConfirm.TotalIsSum | components/scan/modal-confirm.tsx:167-170 | without `NaN`, the total is the sum of calories, with missing counted as 0 |
| ModalConfirm.Defaults | components/scan/modal-confirm.tsx:119-134 | lunch, "Makan siang dari scan", a 16-character time, the loaded items |
| ModalConfirm.IsoMinute | components/scan/modal-confirm.tsx:122 | `slice(0, 16)` of the UTC rendering is 16 characters |
| ModalConfirm.IsoMinuteIsDateTimeLocal | components/scan/modal-confirm.tsx:122-142 | the default and the prefill have the same format for one clock reading |
| ModalConfirm.PrefillLabel | components/scan/modal-confirm.tsx:141 | "Makan " + the meal label + " dari scan" |
| ModalConfirm.PrefillLabelInjective | components/scan/modal-confirm.tsx:141 | the label determines the meal type |
| ModalConfirm.SessionPrefill | components/scan/modal-confirm.tsx:137-144 | without an id nothing changes; with one, type and label share a meal type, the time is local now, and the items are kept |
| ModalConfirm.PrefillAgrees | components/scan/modal-confirm.tsx:140-141 | the prefilled type and label name the hour's meal type |
| ModalConfirm.ItemsArrived | components/scan/modal-confirm.tsx:147-164 | non-empty items replace the form's; empty ones leave the form; the other fields are kept |
| ModalConfirm.LabelError | components/scan/modal-confirm.tsx:224-227 | valid iff non-empty |
| ModalConfirm.NameError | components/scan/modal-confirm.tsx:265-268 | valid iff non-empty |
| ModalConfirm.CaloriesError | components/scan/modal-confirm.tsx:288-295 | valid iff `NaN` or at least 1; `required` iff blank |
| ModalConfirm.QuantityError | components/scan/modal-confirm.tsx:312-318 | valid iff `NaN` or at least 1; `required` iff blank |
| ModalConfirm.CopiedItemValid | components/scan/modal-confirm.tsx:151-161 | a named scan item with at least 1 calorie passes every item rule as copied |
| ModalConfirm.MissingCaloriesBlock | components/scan/modal-confirm.tsx:288-295 | an item with missing or sub-1 calories blocks the submit |
| ModalConfirm.ItemValid | components/scan/modal-confirm.tsx:265-318 | an item passes iff it has a name and its calories and quantity are `NaN` or at least 1; a blank one never passes |
| ModalConfirm.FormValid | components/scan/modal-confirm.tsx:174-183 | the submit goes through iff the label is non-empty and every item passes; a labelled form without items goes through |
| ModalConfirm.ConfirmUrl | components/scan/modal-confirm.tsx:76 | "/scan/" + id + "/confirm" |
| ModalConfirm.ConfirmUrlsDistinct | components/scan/modal-confirm.tsx:76 | two sessions post to the same confirm URL iff they are the same session |
| ModalConfirm.SessionQuery | components/scan/modal-confirm.tsx:95-103 | the session query runs iff the id is non-empty, keyed by "scan-session" and the id, fetching `/scan/` + id |
| ModalConfirm.ConfirmDialog.constructor | components/scan/modal-confirm.tsx:119-134 | the defaults with no items, nothing sent |
| ModalConfirm.ConfirmDialog.SessionEffect | components/scan/modal-confirm.tsx:137-144 | the values become the session prefill |
| ModalConfirm.ConfirmDialog.ItemsEffect | components/scan/modal-confirm.tsx:147-164 | the values take the arrived items |
| ModalConfirm.ConfirmDialog.Edit | components/scan/modal-confirm.tsx:200-330 | only the values change; while pending, the disabled label, names and calories stay as they are |
| ModalConfirm.ConfirmDialog.Submit | components/scan/modal-confirm.tsx:174-183 | when not pending and valid, the values are posted to this session's confirm URL and the dialog is pending; otherwise nothing |
| ModalConfirm.ConfirmDialog.Settle | components/scan/modal-confirm.tsx:69-73 | success runs `onConfirm`; failure toasts |
| SaveMealsModal.DefaultLabel | components/save-meals-modal.tsx:47 | `defaultLabel` or "" |
| SaveMealsModal.Servings | components/save-meals-modal.tsx:48 | `servings` or 1 |
| SaveMealsModal.Initial | components/save-meals-modal.tsx:57-65 | lunch, no time, no notes, the props' label and servings |
| SaveMealsModal.OnOpen | components/save-meals-modal.tsx:67-77 | the hour's meal type, local now, no notes, the props' label and servings |
| SaveMealsModal.LabelError | components/save-meals-modal.tsx:151-154 | valid iff at least 3 UTF-16 code units; `required` iff empty |
| SaveMealsModal.EatenAtError | components/save-meals-modal.tsx:172-174 | valid iff non-empty |
| SaveMealsModal.ServingsError | components/save-meals-modal.tsx:193-197 | valid iff `NaN` or at least 1 |
| SaveMealsModal.NotesError | components/save-meals-modal.tsx:212-214 | valid iff empty or at least 5 UTF-16 code units |
| SaveMealsModal.OpenedFormValid | components/save-meals-modal.tsx:67-77 | a freshly opened form is valid iff the label has at least 3 UTF-16 code units and the servings are at least 1 |
| SaveMealsModal.InitialFormInvalid | components/save-meals-modal.tsx:57-65 | before the first opening, the empty time blocks saving |
| SaveMealsModal.AddToMealUrl | components/save-meals-modal.tsx:87 | "/recipes/" + id + "/add-to-meal" |
| SaveMealsModal.AddToMealUrlsDistinct | components/save-meals-modal.tsx:87 | two recipes post to the same add-to-meal URL iff they are the same recipe |
| SaveMealsModal.SavedInvalidations | components/save-meals-modal.tsx:94-95 | exactly the calorie history and chart roots |
| SaveMealsModal.SavedMealRefreshesCalories | components/save-meals-modal.tsx:94-95 | a key is refreshed iff it is a calorie history or chart key |
| SaveMealsModal.SaveMealDialog.constructor | components/save-meals-modal.tsx:57-65 | closed, the initial form, nothing sent or in flight |
| SaveMealsModal.SaveMealDialog.Open | components/save-meals-modal.tsx:67-83 | open and locked, the form reset for now |
| SaveMealsModal.SaveMealDialog.Close | components/save-meals-modal.tsx:79-83 | closed and unlocked, the form kept |
| SaveMealsModal.SaveMealDialog.Edit | components/save-meals-modal.tsx:128-215 | only the form changes |
| SaveMealsModal.SaveMealDialog.Submit | components/save-meals-modal.tsx:87-103 | a valid form is posted to this recipe's add-to-meal URL and is in flight, with no pending gate; an invalid one sends nothing |
| SaveMealsModal.SaveMealDialog.Settle | components/save-meals-modal.tsx:92-100 | a posted request settles, whether or not it is the latest: success toasts, invalidates both calorie roots and calls `onSuccess`; failure toasts |
| GenerateMenu.BudgetRange | components/dahboard/generate-menu.tsx:87-91 | min below max; hemat starts at 0 and mahal ends at 100000 |
| GenerateMenu.BudgetLevelsPartition | components/dahboard/generate-menu.tsx:87-91 | every amount below 100000 is in exactly one level's range: the ranges leave no gap and do not overlap |
| GenerateMenu.Body | components/dahboard/generate-menu.tsx:163-172 | the form's choices, the level's budget, the calorie cap, and `Number(servings)` |
| GenerateMenu.ServingsWarning | components/dahboard/generate-menu.tsx:330 | the warning shows iff the field is blank or below 1; not for `NaN` |
| GenerateMenu.MenusQuery | components/dahboard/generate-menu.tsx:93-101 | the results query runs iff the id is present and non-empty, keyed by "menus" and the id, fetching that request's `/result` |
| GenerateMenu.SaveProps | components/dahboard/generate-menu.tsx:559-572 | the recipe's id, its title as the label, its servings |
| GenerateMenu.Restored | components/dahboard/generate-menu.tsx:143-149 | a stored non-empty id replaces the current one; otherwise the current one stays |
| GenerateMenu.MenuPlanner.constructor | components/dahboard/generate-menu.tsx:119-149 | closed dialogs, the initial form with one serving and 25000..50000, the stored id restored |
| GenerateMenu.MenuPlanner.SetModalOpen | components/dahboard/generate-menu.tsx:143-157 | the flag is set; when it changed, storage is read again; the lock follows |
| GenerateMenu.MenuPlanner.EditForm | components/dahboard/generate-menu.tsx:236-324 | only the form changes |
| GenerateMenu.MenuPlanner.Generate | components/dahboard/generate-menu.tsx:159-174 | the body is sent, pending, with a loading toast |
| GenerateMenu.MenuPlanner.GenerateSettled | components/dahboard/generate-menu.tsx:66-70 | success stores the id in state and storage and closes the form; failure toasts twice |
| GenerateMenu.MenuPlanner.MenusFailed | components/dahboard/generate-menu.tsx:104-106 | the stored id is removed; the state keeps it |
| GenerateMenu.MenuPlanner.SelectRecipe | components/dahboard/generate-menu.tsx:398-401 | the recipe is selected and its dialog shown |
| GenerateMenu.MenuPlanner.CloseRecipe | components/dahboard/generate-menu.tsx:432 | the recipe dialog closes, the selection stays |
| GenerateMenu.MenuPlanner.UseAsMeal | components/dahboard/generate-menu.tsx:546-550 | the recipe dialog gives way to the save dialog |
| GenerateMenu.MenuPlanner.SaveDialogProps | components/dahboard/generate-menu.tsx:558-572 | the props are the selected recipe's |
| GenerateMenu.MenuPlanner.CloseSave | components/dahboard/generate-menu.tsx:561 | the save dialog closes |
| GenerateMenu.MenuPlanner.SaveSubmitted | components/save-meals-modal.tsx:103 | one more save is in flight; nothing else changes |
| GenerateMenu.MenuPlanner.SaveFailed | components/save-meals-modal.tsx:98-100 | the failed save is no longer in flight; nothing else changes |
| GenerateMenu.MenuPlanner.MealSaved | components/dahboard/generate-menu.tsx:563-569 | a save settling with success, whether or not its dialog is still shown, clears storage, id and selection, closes both dialogs and turns the results query off |
| GenerateMenu.MountWithStoredId | components/dahboard/generate-menu.tsx:143-149 | mounting with a stored id fetches its results at once |
| GenerateMenu.GenerateThenRemount | components/dahboard/generate-menu.tsx:177-185 | a generated id survives a remount through storage |
| GenerateMenu.SaveSettlesAfterClose | components/dahboard/generate-menu.tsx:558-569 | a save whose dialog was closed before it succeeded still clears storage and the id, and turns the results query off |
| ModalAnalisis.PriorityIcon | components/scan/modal-analisis.tsx:62-71 | triangle iff medium, circle iff high, check otherwise |
| ModalAnalisis.PriorityColor | components/scan/modal-analisis.tsx:73-82 | yellow iff medium, red iff high, green otherwise |
| ModalAnalisis.TypeIcon | components/scan/modal-analisis.tsx:214 | the table's icon, or the default for unknown types |
| ModalAnalisis.TypeLabel | components/scan/modal-analisis.tsx:215 | the table's label, or "Nutrisi" for unknown types |
| ModalAnalisis.UnknownTypeFallsBack | components/scan/modal-analisis.tsx:34-47 | an unknown nutrient gets "Nutrisi" and the default icon |
| ModalAnalisis.KnownTypesDistinct | components/scan/modal-analisis.tsx:34-47 | the four known nutrients have distinct labels and icons, none the fallback |
| ModalAnalisis.InlineLabel | components/scan/modal-analisis.tsx:193-201 | empty iff the type is not one of the four |
| ModalAnalisis.InlineLabelAgrees | components/scan/modal-analisis.tsx:193-215 | the grid label is the list label plus a space for known types |
| ModalAnalisis.RowColor | components/scan/modal-analisis.tsx:216 | a colour iff low, medium or high, from the table |
| ModalAnalisis.GridAndListDiffer | components/scan/modal-analisis.tsx:49-82 | medium is coloured and marked differently in grid and list; low agrees |
| ModalAnalisis.RadarData | components/scan/modal-analisis.tsx:120-126 | four values: protein, carbs, fat, fiber |
| ModalAnalisis.RadarPairs | components/scan/modal-analisis.tsx:116-126 | each radar label names the value at its position |
| ModalAnalisis.AnalysisQuery | components/scan/modal-analisis.tsx:94-99 | the analysis query runs iff a non-empty `sessionId` is passed, keyed by "scan-analisis" and the id, fetching that session's `/analysis` |
| ModalAnalisis.ShownHealthTips | components/scan/modal-analisis.tsx:243-258 | the tips box lists the loaded tips in order, and is absent iff nothing is loaded or the list is empty |
| ModalAnalisis.ShownAllergens | components/scan/modal-analisis.tsx:261-276 | the allergen box lists the loaded warnings in order, and is absent iff nothing is loaded or the list is empty |
| ModalScan.AsWrittenAnalysisProps | components/scan/modal-scan.tsx:119 | as written, the analysis dialog gets no `sessionId` |
| ModalScan.AsWrittenAnalysisNeverRuns | components/scan/modal-scan.tsx:117-124 | as written, the analysis query is never enabled |
| ModalScan.AnalysisProps | components/scan/modal-scan.tsx:117-124 | corrected: the session id under the prop name the dialog reads |
| ModalScan.AnalysisRunsForShownDialog | components/scan/modal-analisis.tsx:94-95 | with the corrected props, a non-empty id enables the query under its key |
| ModalScan.ScanFlow.constructor | components/scan/modal-scan.tsx:45-50 | camera open, both dialogs closed, no session, locked iff open |
| ModalScan.ScanFlow.SetOpen | components/scan/modal-scan.tsx:54-66 | the lock follows `isOpen`; nothing else changes |
| ModalScan.ScanFlow.Capture | components/scan/modal-scan.tsx:68-70 | a new upload starts as the newest one, with a loading toast; the camera closes |
| ModalScan.ScanFlow.UploadSettled | components/scan/modal-scan.tsx:71-82 | a failure always shows the hook's toast; only the newest upload's success stores the id, toasts and opens confirm, and only its failure adds the second toast |
| ModalScan.ScanFlow.Confirmed | components/scan/modal-scan.tsx:110-114 | confirm closes and the analysis is shown |
| ModalScan.ScanFlow.AnalysisDialogProps | components/scan/modal-scan.tsx:117-124 | corrected (see ## Findings): with the props passed under the name the dialog reads, a shown analysis dialog's query is enabled |
| ModalScan.ScanFlow.CloseModal | components/scan/modal-scan.tsx:85-90 | camera back, both dialogs closed, the parent told, the id kept |
| ModalScan.ScanToAnalysis | components/scan/modal-scan.tsx:68-124 | capture, upload and confirm show the analysis; its query runs with the corrected props and never as written |
| ModalScan.OvertakenUpload | components/scan/modal-scan.tsx:68-90 | an upload overtaken by a rescan cannot replace the newer session: confirm shows the second upload's id |

## Left out

- **Time and clocks:**
  - Clocks are parameters. The source mixes UTC (`toISOString`) and local time (`getHours`, `toDateString`). The model takes one civil date or wall-clock reading per call, so the day boundary between the two time zones is not modelled.
  - `getAutoMealType` is called twice in the modal-confirm prefill, at components/scan/modal-confirm.tsx:140-141. The model reads the clock once; the two calls disagree only across an hour boundary.
- **Date parsing and formatting:**
  - `new Date(s)` on strings other than `YYYY-MM-DD` is not modelled. Any other string is an invalid date. In the source, some other strings, such as timestamps with a time part, parse.
  - Years outside 0..9999 are rendered by `toISOString` with a sign and at least six digits. `CivilDates.IsoYear` states the sign and the digits; the parser reads only four-digit years, so such renderings are not proved to read back.
  - `toLocaleDateString("id-ID")` is not modelled, nor the text of `toDateString` beyond naming a day. `WeightSection.OnDay` models `toDateString` equality as the entry's date being today's full-date.
- **Numbers:**
  - Floating point is not modelled. Numbers are reals, and `Math.PI` is not modelled.
  - CircleProgress.Offset: takes the circumference as a parameter rather than computing `2 * Math.PI * radius`.
  - Number inputs are the number they read as: blank, a number, or `NaN`. Their raw text is not modelled.
- **Forms and queries:**
  - react-hook-form and react-query internals are not modelled. Only the rule semantics, the submit gate, the weigh-in forms' re-validation on change after a submit, the mutation outcome and the invalidated roots are; the cache itself, retries and refetching are not.
  - Inputs the source disables while a request is pending are modelled by the preconditions of the edit methods: `DataModal.DataModalState.SetGender`, `DataModal.DataModalState.Edit` and `GenerateMenu.MenuPlanner.EditForm` require nothing pending, and `ModalConfirm.ConfirmDialog.Edit` keeps the label, names and calories while pending. The save-meal inputs are disabled on `isSubmitting`, which is set only while the synchronous submit handler runs, so they are not gated.
  - The browser's own `type="email"` validation is not modelled, only the pattern rule.
- **Body scroll lock:**
  - ContainerModal.Gate.Commit: keeps this component's own `scrollLocked`. The source has one shared flag, the `overflow-hidden` class on `document.body`, which the four dialogs' effects add and remove (components/container-modal.tsx:84-87, components/save-meals-modal.tsx:80-82, components/scan/modal-scan.tsx:58-64, components/dahboard/generate-menu.tsx:153-156), so one of them unlocking the page while another is open is not modelled.
  - SaveMealsModal.SaveMealDialog.Close: unlocks only its own `scrollLocked`; in the source it unlocks the page for every open dialog.
  - ModalScan.ScanFlow.SetOpen: sets only its own `scrollLocked`; in the source closing it unlocks the page for every open dialog.
  - GenerateMenu.MenuPlanner.SetModalOpen: sets only its own `scrollLocked`, under the same shared-flag caveat.
- **Corrected members:** these model the intended behaviour recorded under "## Findings", not the code as written; each has an as-written member beside it.
  - WeightForm.WeightFormState.Settle: invalidates the corrected roots ("weight-data", "weight-chart"); components/stats/weight-form.tsx:45 invalidates "weight-history", which misses the history query (`WeightForm.AsWrittenMissesHistory`).
  - DailyCheckModal.DailyCheckState.Settle: invalidates `CheckInInvalidations` rather than the roots written at components/daily-check-modal.tsx:40-43 (`DailyCheckModal.AsWrittenInvalidations`).
  - OnboardingForm.OnboardingState.UserChanged: resets from the corrected user read; as written, components/profile/onboarding-form.tsx:19 throws for any loaded user (`OnboardingForm.AsWrittenNeverFills`).
  - ModalScan.ScanFlow.AnalysisDialogProps: gives the corrected props; as written the analysis dialog's query is never enabled (`ModalScan.AsWrittenAnalysisNeverRuns`).
- **Toasts:** a toast is a message and a kind. The toast id that lets a later toast replace a loading one is not modelled.
- **I/O:**
  - The network is not modelled: request bodies are recorded and outcomes are parameters. The hooks in service/auth.ts that send the login and registration, and their redirects, are not modelled.
  - Camera capture (components/camera-scan.tsx) is not part of this model.
  - Chart.js drawing, the canvas lookup and the radar chart's `chartRef` are not modelled. A chart effect is the configuration it passes to Chart.js.
- **Lookups:** `typeLabels[item.type]` on prototype keys such as `"constructor"` is not modelled. The tables are maps, so such keys fall back like any unknown type.
- **Styling:** markup, class names and icons beyond the ones the logic selects are not modelled.

## Findings

| source | as written | input that shows it | evidently intended | confidence | as-written member | corrected member |
|---|---|---|---|---|---|---|
| components/scan/modal-scan.tsx:119 | the analysis dialog is given `sesssionId` (three s), but it reads `sessionId` (components/scan/modal-analisis.tsx:85-94), so its query is never enabled | any upload that succeeds and is confirmed, e.g. session id "abc" | pass the session id as `sessionId` so the analysis is fetched | not executed | ModalScan.AsWrittenAnalysisNeverRuns | ModalScan.AnalysisRunsForShownDialog |
| components/profile/onboarding-form.tsx:19 | `data?.data.user` on the value `useUser` returns, which is already the user (service/auth.ts:42) | any loaded user: `user.data` is undefined and `.user` throws | read the user itself (`data`) | not executed | OnboardingForm.AsWrittenNeverFills | OnboardingForm.FormUser |
| components/stats/weight-form.tsx:45 | a weigh-in invalidates "weight-history", but the history query's key starts with "weight-data" (components/stats/section/weight.tsx:41); the same holds at components/daily-check-modal.tsx:41 | save a weight on the weight tab: the history list keeps its stale entries | invalidate "weight-data" | not executed | WeightForm.AsWrittenMissesHistory | WeighIn.WeighInInvalidations |
