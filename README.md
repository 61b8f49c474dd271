# mood-meals: onboarding wizard, unit toggles and daily trackers in Dafny

This project models the logic underneath the screens of the mood-meals app.
The app is a React Native nutrition app. Its onboarding wizard collects a
user's answers one step at a time and stores some of them in the user's
profile row. Its home screens track the day: an activity streak, a water
glass counter and a pantry food log. Everything else in the repository is
view code.

What is modelled, one Dafny module per source file:

- `Layout` (`app/onboarding/_layout.tsx`): the fixed list of eight steps and
  the class `OnboardingLayout`. Its index moves with `handleNext` and
  `handleBack`. On the last step, next calls `completeOnboarding` and the
  index stays put.
- `OnboardingHook` (`hooks/useOnboarding.ts`): the `useOnboarding` record and
  its updaters. Each updater is a function from the previous record to the
  next one. A reducer `Run` strings updates together.
- `OnboardingData` (`hooks/useOnboardingData.tsx`): the spread merge
  `updateData` as a right-biased map union. Also the provider guard of
  `useOnboardingData`.
- `NameStep`, `AgeStep`, `GenderStep`, `DietStep`: each screen is a class
  holding its `useState` fields. Its `handleNext` is a method that returns
  whether `onNext` is called.
- `GoalStep`, `ActiveStep`, `WeightStep`, `WaterStep`: these screens first
  look up the signed-in user and then write one profile column. Both backend
  calls are abstract outcomes (`Outcomes.AuthOutcome`,
  `Outcomes.WriteOutcome`). Each method also returns the update it sends.
- `HeightStep`, `WeightStep`, `IdealWeightStep`: the unit toggles. They use
  the integer conversions of `Units`. `Math.round` over exact rationals is
  floor(x + 1/2), written as division by a positive constant.
- `HomeStreak` (`app/home/main.tsx`): the sort by date, the backward scan
  with `break` as a loop method, and its specification `TrailingRun`.
- `WaterTrack` (`app/home/watertrack.tsx`): the glass counter, the tap
  dispatch, the fetched-goal default and the goal dialog.
- `Pantry` (`app/home/pantry.tsx`): the food log. It uses JavaScript's
  `trim` over JavaScript's white-space characters.

What the code does and does not contain:

- No calorie or weeks-to-goal estimator exists. `app/prediction.tsx` shows
  fixed numbers and text.
- Advancing past the last step does not leave the wizard. The index stays at
  7 and `completeOnboarding` is called; it only logs.
- Several steps store nothing: name, gender, age, height, ideal weight and
  diet.
- The diet and water screens are not in the step list.
- The layout keeps its own index in `useState`. It does not use the index in
  `useOnboarding`.

Quirks the model keeps, as the code has them:

- `idealWeight.tsx` has no same-unit guard. Pressing the unit already shown
  still converts the number: 150 lbs becomes 68 under the lbs label
  (`IdealWeightStep.RepressingLbsRescales`).
- Conversions are not clamped to the new slider range. 30 kg becomes 66 lbs,
  below the lbs minimum of 70. 120 cm becomes 47 inches, below the ft
  minimum of 48.
- The water-goal step leaves its "calculating" view up after a successful
  write. It then schedules navigation and never calls `onNext`.

## Model

| member | source | states |
|---|---|---|
| `Units.CmFromInches` | mood-meals/app/onboarding/height.tsx:25 | the result is the integer nearest to inches·2.54, with halves rounded up |
| `Units.InchesFromCm` | mood-meals/app/onboarding/height.tsx:28 | the result is the integer nearest to cm/2.54, with halves rounded up |
| `Units.KgFromLbs` | mood-meals/app/onboarding/weight.tsx:39 | the result is the integer nearest to lbs/2.205, with halves rounded up |
| `Units.LbsFromKg` | mood-meals/app/onboarding/weight.tsx:31 | the result is the integer nearest to kg·2.205, with halves rounded up |
| `Units.ConvertFrom` | mood-meals/app/onboarding/weight.tsx:29-31 | leaving lbs divides by 2.205 and leaving kg multiplies by 2.205, each rounded to the nearest integer |
| `Units.InchesRoundTrip` | mood-meals/app/onboarding/height.tsx:24-29 | inches → cm → inches gives back the same inches exactly |
| `Units.CmRoundTripDrift` | mood-meals/app/onboarding/height.tsx:24-29 | cm → inches → cm drifts by at most 1 |
| `Units.KgRoundTrip` | mood-meals/app/onboarding/weight.tsx:29-34 | kg → lbs → kg gives back the same kilograms exactly |
| `Units.LbsRoundTripDrift` | mood-meals/app/onboarding/weight.tsx:29-34 | lbs → kg → lbs drifts by at most 1 |
| `Units.ConvertThereAndBack` | mood-meals/app/onboarding/weight.tsx:26-35 | toggling the weight unit twice restores kilograms exactly and pounds within 1 |
| `Units.JsRem` | mood-meals/app/onboarding/height.tsx:40 | JavaScript `%`: for a non-negative dividend the remainder lies in [0, b) and completes floor division; for a negative one it lies in (-b, 0] and is a − b·trunc(a/b), the remainder of division truncated toward zero |
| `Layout.OnboardingScreens` | mood-meals/app/onboarding/_layout.tsx:18-30 | the step list has 8 distinct steps, from name to active; diet and water are not in it |
| `Layout.NextIndex` | mood-meals/app/onboarding/_layout.tsx:36-38 | a valid index stays valid; the index moves on by exactly one, and stays put exactly at or past the last step |
| `Layout.BackIndex` | mood-meals/app/onboarding/_layout.tsx:48-50 | a valid index stays valid; the index moves back by exactly one, and stays put exactly at or before the first step |
| `Layout.HandlersStayInBounds` | mood-meals/app/onboarding/_layout.tsx:36-52 | from any valid index, both handlers give a valid index |
| `Layout.NextThenBack` | mood-meals/app/onboarding/_layout.tsx:36-52 | below the last step, next moves to i+1 and back then returns to i |
| `Layout.BackThenNext` | mood-meals/app/onboarding/_layout.tsx:36-52 | above the first step, back moves to i-1 and next then returns to i |
| `Layout.NextTimesSaturates` | mood-meals/app/onboarding/_layout.tsx:36-46 | k presses of next from step i reach step min(i+k, 7) |
| `Layout.OnboardingLayout.constructor` | mood-meals/app/onboarding/_layout.tsx:33 | the wizard starts at index 0, which satisfies the bounds invariant |
| `Layout.OnboardingLayout.CurrentScreen` | mood-meals/app/onboarding/_layout.tsx:54 | under the invariant the lookup is in bounds and never yields diet or water |
| `Layout.OnboardingLayout.HandleNext` | mood-meals/app/onboarding/_layout.tsx:36-46 | below 7 the index becomes i+1; at 7 it stays and `completeOnboarding` is called; 0 ≤ index < 8 is kept |
| `Layout.OnboardingLayout.HandleBack` | mood-meals/app/onboarding/_layout.tsx:48-52 | above 0 the index becomes i-1; at 0 nothing changes; the invariant is kept |
| `OnboardingHook.InitialState` | mood-meals/hooks/useOnboarding.ts:13-18 | the hook starts with an empty name, no gender, no goal and index 0 |
| `OnboardingHook.SetName` | mood-meals/hooks/useOnboarding.ts:21-22 | only the name changes |
| `OnboardingHook.SetGender` | mood-meals/hooks/useOnboarding.ts:24-25 | only the gender changes |
| `OnboardingHook.SetGoal` | mood-meals/hooks/useOnboarding.ts:27-28 | only the goal changes |
| `OnboardingHook.NextScreen` | mood-meals/hooks/useOnboarding.ts:30-34 | the index grows by exactly 1 with no upper bound; the answers are kept |
| `OnboardingHook.PrevScreen` | mood-meals/hooks/useOnboarding.ts:36-40 | the index becomes max(i-1, 0), never negative; the answers are kept |
| `OnboardingHook.ResetOnboarding` | mood-meals/hooks/useOnboarding.ts:42-48 | from any state the result is the initial record: name '', no gender, no goal, index 0 |
| `OnboardingHook.PrevAfterNext` | mood-meals/hooks/useOnboarding.ts:30-40 | for a non-negative index, prevScreen after nextScreen is the identity |
| `OnboardingHook.NextAfterPrev` | mood-meals/hooks/useOnboarding.ts:30-40 | for an index of at least 1, nextScreen after prevScreen is the identity |
| `OnboardingHook.PrevAtZero` | mood-meals/hooks/useOnboarding.ts:36-40 | index 0 is a fixed point of prevScreen |
| `OnboardingHook.ResetIdempotent` | mood-meals/hooks/useOnboarding.ts:42-48 | resetting twice equals resetting once |
| `OnboardingHook.SettersOverwriteAndCommute` | mood-meals/hooks/useOnboarding.ts:21-28 | a second set of a field overwrites the first; setters of different fields commute |
| `OnboardingHook.RunKeepsIndexNonNegative` | mood-meals/hooks/useOnboarding.ts:14-48 | starting from a non-negative index, such as the initial 0, no sequence of updater calls makes the index negative |
| `OnboardingHook.RunOnlyNextMoves` | mood-meals/hooks/useOnboarding.ts:30-34 | n calls of nextScreen add exactly n to the index and keep every answer |
| `OnboardingData.UpdateData` | mood-meals/hooks/useOnboardingData.tsx:15-17 | the key set becomes the union; new keys take the new values; other keys keep their old values |
| `OnboardingData.UpdateWithNothing` | mood-meals/hooks/useOnboardingData.tsx:16 | `updateData({})` is the identity |
| `OnboardingData.UpdateIdempotent` | mood-meals/hooks/useOnboardingData.tsx:16 | applying the same update twice equals applying it once |
| `OnboardingData.UpdateTwice` | mood-meals/hooks/useOnboardingData.tsx:16 | two merges in a row equal one merge of their union |
| `OnboardingData.LastUpdateWins` | mood-meals/hooks/useOnboardingData.tsx:13-17 | from the initial `{}`, a key holds the value of the last update that carried it |
| `OnboardingData.UntouchedKeyAbsent` | mood-meals/hooks/useOnboardingData.tsx:13-17 | from the initial `{}`, a key that no update carried is absent |
| `OnboardingData.UseOnboardingData` | mood-meals/hooks/useOnboardingData.tsx:26-32 | with no provider the hook fails with the provider error; otherwise it returns the context |
| `NameStep.NameScreen.constructor` | mood-meals/app/onboarding/name.tsx:19 | the name starts empty |
| `NameStep.NameScreen.OnChangeText` | mood-meals/app/onboarding/name.tsx:44 | the typed text replaces the name |
| `NameStep.NameScreen.ForwardDisabled` | mood-meals/app/onboarding/name.tsx:53 | the forward button is disabled exactly when the name is the empty string |
| `NameStep.NameScreen.HandleNext` | mood-meals/app/onboarding/name.tsx:21-25 | `onNext` is called iff the name is non-empty, with no trimming; this is exactly when the button (line 53) is enabled; nothing changes |
| `AgeStep.AgeScreen.constructor` | mood-meals/app/onboarding/age.tsx:19 | the age text starts empty |
| `AgeStep.AgeScreen.OnChangeText` | mood-meals/app/onboarding/age.tsx:43 | the typed text replaces the age |
| `AgeStep.AgeScreen.ForwardDisabled` | mood-meals/app/onboarding/age.tsx:52 | the forward button is disabled exactly when the age text is the empty string |
| `AgeStep.AgeScreen.HandleNext` | mood-meals/app/onboarding/age.tsx:21-24 | `onNext` is called iff the text is non-empty, with no numeric check; this is exactly when the button (line 52) is enabled |
| `GenderStep.GenderScreen.constructor` | mood-meals/app/onboarding/gender.tsx:13 | nothing is selected at first |
| `GenderStep.GenderScreen.Select` | mood-meals/app/onboarding/gender.tsx:50 | a press replaces the selection with female, male or other |
| `GenderStep.GenderScreen.ForwardDisabled` | mood-meals/app/onboarding/gender.tsx:67 | the forward button is enabled exactly when a gender is selected |
| `GenderStep.GenderScreen.HandleNext` | mood-meals/app/onboarding/gender.tsx:15-19 | `onNext` is called iff a gender is selected; this is exactly when the button (line 67) is enabled |
| `DietStep.DietScreen.constructor` | mood-meals/app/onboarding/diet.tsx:19 | nothing is selected at first |
| `DietStep.DietScreen.Select` | mood-meals/app/onboarding/diet.tsx:72 | a press replaces the selection with clean, mediterranean, keto or lowcarb |
| `DietStep.DietScreen.ForwardDisabled` | mood-meals/app/onboarding/diet.tsx:96 | the forward button is enabled exactly when a diet is selected |
| `DietStep.DietScreen.HandleNext` | mood-meals/app/onboarding/diet.tsx:21-25 | `onNext` is called iff a diet is selected; this is exactly when the button (line 96) is enabled |
| `GoalStep.GoalScreen.constructor` | mood-meals/app/onboarding/goal.tsx:14-15 | no selection, not loading |
| `GoalStep.GoalScreen.Select` | mood-meals/app/onboarding/goal.tsx:61 | a press replaces the selection with lose, healthy or gain |
| `GoalStep.GoalScreen.ForwardDisabled` | mood-meals/app/onboarding/goal.tsx:78 | the forward button is enabled exactly when a goal is selected and no save is in flight |
| `GoalStep.GoalScreen.HandleNext` | mood-meals/app/onboarding/goal.tsx:17-46 | with no selection nothing happens; otherwise `food_goal` := selection is sent iff a user is found; `onNext` is called iff auth and write both succeed; `loading` ends false |
| `ActiveStep.ActiveScreen.constructor` | mood-meals/app/onboarding/active.tsx:21-22 | no selection, not loading |
| `ActiveStep.ActiveScreen.Select` | mood-meals/app/onboarding/active.tsx:89 | a press replaces the selection with low, moderate or high |
| `ActiveStep.ActiveScreen.ForwardDisabled` | mood-meals/app/onboarding/active.tsx:111 | the forward button is enabled exactly when a level is selected and no save is in flight |
| `ActiveStep.ActiveScreen.HandleNext` | mood-meals/app/onboarding/active.tsx:24-52 | with no selection nothing happens; otherwise `activity_level` := selection is sent iff a user is found; `onNext` is called iff auth and write both succeed; `loading` ends false |
| `HeightStep.HeightScreen.constructor` | mood-meals/app/onboarding/height.tsx:17-19 | the state starts as ft, 160 cm and 63 inches |
| `HeightStep.HeightScreen.Slide` | mood-meals/app/onboarding/height.tsx:82-90 | the slider sets the current unit's number within 120..210 cm or 48..84 in; the other number is kept |
| `HeightStep.HeightScreen.HandleUnitSwitch` | mood-meals/app/onboarding/height.tsx:21-33 | the same unit changes nothing; cm sets heightCm := round(in·2.54); ft sets heightInches := round(cm/2.54); the other field is untouched; the unit becomes newUnit |
| `HeightStep.HeightScreen.FormattedHeight` | mood-meals/app/onboarding/height.tsx:35-43 | in ft the display gives feet·12 + inches = h with 0 ≤ inches < 12; in cm it shows the centimetres |
| `HeightStep.HeightScreen.HandleNext` | mood-meals/app/onboarding/height.tsx:45-47 | `onNext` is always called, and nothing is stored |
| `HeightStep.ToggleTwiceDrift` | mood-meals/app/onboarding/height.tsx:21-33 | toggling to ft and back moves cm by at most 1; toggling to cm and back restores inches exactly |
| `HeightStep.SwitchCanLeaveSliderRange` | mood-meals/app/onboarding/height.tsx:84-85 | 120 cm, the cm minimum, converts to 47 in, below the ft minimum of 48 |
| `WeightStep.WeightKg` | mood-meals/app/onboarding/weight.tsx:39 | the saved value is in kg: the weight itself in kg, else round(lbs/2.205) |
| `WeightStep.SavedKgIgnoresToggle` | mood-meals/app/onboarding/weight.tsx:26-39 | the kilograms saved are the same whether or not the unit was toggled first |
| `WeightStep.SwitchCanLeaveSliderRange` | mood-meals/app/onboarding/weight.tsx:22-34 | the conversion is not clamped: 30 kg becomes 66 lbs, below the lbs minimum of 70 |
| `WeightStep.WeightScreen.constructor` | mood-meals/app/onboarding/weight.tsx:18-20 | the state starts as lbs, 150, not loading |
| `WeightStep.WeightScreen.Slide` | mood-meals/app/onboarding/weight.tsx:86-95 | the slider sets the weight within 70..300 lbs or 30..140 kg |
| `WeightStep.WeightScreen.HandleUnitSwitch` | mood-meals/app/onboarding/weight.tsx:26-35 | pressing the current unit is a no-op; otherwise the weight is converted out of the old unit and the unit becomes newUnit |
| `WeightStep.WeightScreen.HandleNext` | mood-meals/app/onboarding/weight.tsx:37-65 | `weight` := weight in kg is sent iff a user is found; `onNext` is called iff auth and write both succeed; `loading` ends false |
| `IdealWeightStep.IdealWeightScreen.constructor` | mood-meals/app/onboarding/idealWeight.tsx:18-19 | the state starts as lbs, 150 |
| `IdealWeightStep.IdealWeightScreen.Slide` | mood-meals/app/onboarding/idealWeight.tsx:58-67 | the slider sets the weight within 70..300 lbs or 30..140 kg |
| `IdealWeightStep.IdealWeightScreen.HandleUnitSwitch` | mood-meals/app/onboarding/idealWeight.tsx:26-33 | with no guard, any press converts out of the current unit and then sets unit := newUnit |
| `IdealWeightStep.IdealWeightScreen.HandleNext` | mood-meals/app/onboarding/idealWeight.tsx:35-37 | `onNext` is always called, and nothing is stored |
| `IdealWeightStep.RepressingLbsRescales` | mood-meals/app/onboarding/idealWeight.tsx:26-32 | pressing lbs while on lbs turns 150 into 68, and a second press into 31 |
| `IdealWeightStep.RepressingLbsShrinks` | mood-meals/app/onboarding/idealWeight.tsx:26-32 | each re-press of lbs shrinks any positive weight |
| `IdealWeightStep.RepressingKgGrows` | mood-meals/app/onboarding/idealWeight.tsx:26-32 | each re-press of kg grows any positive weight |
| `WaterStep.WaterScreen.constructor` | mood-meals/app/onboarding/water.tsx:14-15 | the counter starts at 10, with the calculating view down |
| `WaterStep.WaterScreen.Increment` | mood-meals/app/onboarding/water.tsx:18-20 | adds 1 below 20 and does nothing at 20; 1 ≤ glasses ≤ 20 is kept |
| `WaterStep.WaterScreen.Decrement` | mood-meals/app/onboarding/water.tsx:22-24 | subtracts 1 above 1 and does nothing at 1; 1 ≤ glasses ≤ 20 is kept |
| `WaterStep.WaterScreen.HandleSubmit` | mood-meals/app/onboarding/water.tsx:26-56 | `water_goal` := counter is sent iff a user is found; navigation is scheduled iff both calls succeed; on failure the calculating view is lowered; what is sent is a goal the tracker accepts (1..20) |
| `WaterTrack.GoalOrDefault` | mood-meals/app/home/watertrack.tsx:49 | a missing or zero fetched goal falls back to 10; any other goal is kept |
| `WaterTrack.WaterTrackScreen.constructor` | mood-meals/app/home/watertrack.tsx:20-24 | goal 10, 0 glasses, dialog closed |
| `WaterTrack.WaterTrackScreen.FetchWaterData` | mood-meals/app/home/watertrack.tsx:26-51 | a failed fetch changes nothing; otherwise the goal becomes the fetched goal or 10 |
| `WaterTrack.WaterTrackScreen.HandleAddGlass` | mood-meals/app/home/watertrack.tsx:56-60 | adds 1 below the goal and does nothing at the goal; 0 ≤ drunk ≤ goal is kept |
| `WaterTrack.WaterTrackScreen.HandleRemoveGlass` | mood-meals/app/home/watertrack.tsx:62-66 | subtracts 1 above 0 and does nothing at 0; the invariant is kept |
| `WaterTrack.WaterTrackScreen.TapGlass` | mood-meals/app/home/watertrack.tsx:110-111 | tapping glass i < drunk removes one and any other glass adds one, so the count always moves by exactly 1 |
| `WaterTrack.WaterTrackScreen.OpenGoalModal` | mood-meals/app/home/watertrack.tsx:132 | opens the dialog and changes nothing else |
| `WaterTrack.WaterTrackScreen.CloseGoalModal` | mood-meals/app/home/watertrack.tsx:140 | closes the dialog and changes nothing else |
| `WaterTrack.WaterTrackScreen.HandleGoalUpdate` | mood-meals/app/home/watertrack.tsx:68-92 | rejected, with no state change, unless a user exists and the parsed goal is in 1..20; a failed write changes nothing; success sets goal := parsed, drunk := 0 and closes the dialog |
| `WaterTrack.WaterTrackScreen.Remaining` | mood-meals/app/home/watertrack.tsx:106 | the "left to go" figure is never negative and never above the goal |
| `HomeStreak.SortByDate` | mood-meals/app/home/main.tsx:35-36 | the records are sorted ascending by date, and the result is a permutation of the input |
| `HomeStreak.LastIsMostRecent` | mood-meals/app/home/main.tsx:35-37 | after the sort the last record has the latest date |
| `HomeStreak.ActivityLog` | mood-meals/app/home/main.tsx:35-37 | the activity log has one entry per record |
| `HomeStreak.LogEndsWithLatestRecord` | mood-meals/app/home/main.tsx:35-46 | the log's last entry is the flag of a record with the latest date; so a positive streak means a latest-dated record was active |
| `HomeStreak.TrailingRun` | mood-meals/app/home/main.tsx:39-46 | the streak never exceeds the number of records |
| `HomeStreak.TrailingRunIsMaximal` | mood-meals/app/home/main.tsx:39-46 | the last n entries are all true, and the entry before them, if any, is false |
| `HomeStreak.TrailingRunUnique` | mood-meals/app/home/main.tsx:39-46 | any n with that maximal-run property equals the streak |
| `HomeStreak.TrailingRunExtremes` | mood-meals/app/home/main.tsx:39-46 | an all-true log of length n gives n; an empty log or a most-recent false gives 0 |
| `HomeStreak.TrailingRunExamples` | mood-meals/app/home/main.tsx:39-46 | [T,F,T,T,T] gives 3; an all-false log gives 0 |
| `HomeStreak.CountStreak` | mood-meals/app/home/main.tsx:39-46 | the backward loop with `break` computes exactly the trailing run of true |
| `HomeStreak.MainScreen.constructor` | mood-meals/app/home/main.tsx:11 | the streak starts at 0 |
| `HomeStreak.MainScreen.FetchActivity` | mood-meals/app/home/main.tsx:19-49 | with no user or a query error the streak is unchanged; otherwise it is the trailing run of the sorted log, between 0 and the number of records |
| `Pantry.TrimStart` | mood-meals/app/home/pantry.tsx:19 | removes exactly the leading JavaScript white space and keeps a suffix |
| `Pantry.TrimEnd` | mood-meals/app/home/pantry.tsx:19 | removes exactly the trailing JavaScript white space and keeps a prefix |
| `Pantry.Trim` | mood-meals/app/home/pantry.tsx:19-21 | `trim()` yields an empty text or one that neither starts nor ends with white space |
| `Pantry.TrimIsSlice` | mood-meals/app/home/pantry.tsx:21 | the trimmed text is the contiguous slice of the input that starts where the leading white space ends, so no inner character is lost or changed |
| `Pantry.TrimResult` | mood-meals/app/home/pantry.tsx:19-21 | `trim()` is empty iff the text is all white space; otherwise it neither starts nor ends with white space |
| `Pantry.TrimIdempotent` | mood-meals/app/home/pantry.tsx:21 | trimming twice equals trimming once |
| `Pantry.PantryScreen.constructor` | mood-meals/app/home/pantry.tsx:15-16 | empty input, empty log |
| `Pantry.PantryScreen.OnChangeText` | mood-meals/app/home/pantry.tsx:39 | the typed text replaces the input and the log is kept |
| `Pantry.PantryScreen.HandleLogFood` | mood-meals/app/home/pantry.tsx:18-23 | blank input changes nothing; otherwise trim(input) is appended after the untouched earlier entries, the length grows by 1 and the input is cleared; every entry stays non-empty and trimmed |

## Left out

- Backend calls. `auth.getUser`, the profile updates and the selects are
  abstract outcomes (`AuthOutcome`, `WriteOutcome`, `GoalFetch`,
  `ActivityFetch`). An auth error and a missing user are one outcome. The
  model has no network semantics, no user ids beyond an opaque string, and
  no console logging.
- `completeOnboarding` (hooks/useOnboarding.ts:50-52) is not a member. It only
  logs and changes no state. `Layout.OnboardingLayout.HandleNext` reports that
  it is called. Because it never throws, the layout's `catch` branch leaves
  the index unchanged just like the normal path.
- Rendering and navigation are out. This covers JSX, styles, icons, the
  `Modal`, the `Slider` and `Switch` widgets, `router.push`, the tab bar, and
  components/ (BottomNavbar, ProgressDots, CongratsScreen, Calculating,
  EmailLoginScreen, styles/CongratsScreenStyles.ts). The slider's ranges
  appear only as the precondition of each `Slide` method. Navigation appears
  as a boolean result.
- app/prediction.tsx shows only fixed numbers and text. There is no
  estimator to model.
- Floating point. 2.54 and 2.205 are treated as exact rationals, and
  `Math.round` as floor(x + 1/2). The model does not reproduce IEEE rounding
  at exact .5 ties.
- React state timing. Each handler is one atomic step. So the model leaves
  out functional updaters racing their closure guards, a fetch resolving
  after taps, and the 5-second `setTimeout` before navigation.
- `GoalStep.GoalScreen.HandleNext`: the interval in which `loading` is true
  and the button is disabled is not observable in one atomic step. The
  contract states only that `loading` ends false on every exit. The same
  holds for `ActiveStep.ActiveScreen.HandleNext`,
  `WeightStep.WeightScreen.HandleNext` and the `isCalculating` flag of
  `WaterStep.WaterScreen.HandleSubmit`.
- `parseInt` is given as an `Option<int>`, with None for NaN. The dialog's
  text field (`newGoal`) and the reminder `Switch` of watertrack.tsx are not
  modelled.
- Dates are integers. `new Date` parsing and the query's descending order are
  not modelled.
- `HomeStreak.MainScreen.FetchActivity`: the bound streak ≤ 7 comes from the
  query's `limit(7)`. The model does not encode that limit, so it states the
  bound as streak ≤ number of rows received.
- `WaterTrack.WaterTrackScreen.FetchWaterData`: the invariant
  0 ≤ drunk ≤ goal is guaranteed only when the fetched goal is not below the
  glasses already drunk. A stored negative goal would break it, and the
  source does not guard against one.
- The stability of the JavaScript sort (equal dates keep their order) is
  built into `HomeStreak.SortByDate` but not stated as a proved property.
- The `activeTab` state of main.tsx is presentation only.
