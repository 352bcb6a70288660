# Gym-Tracker core, modelled in Dafny

Gym-Tracker is an Angular single-page app for planning weekly workouts and
logging each session. This project models the parts of it that hold state
and logic:

- **The home page session tracker** (`HomeComponent`). On page load it takes
  today's weekday and the active plan id from local storage, and looks up
  whether today's session is already done for that plan. It then takes
  today's routine. Starting a workout gives a blank draft of `sets` entries
  to every usable string id that has no draft yet, built from the first of
  today's exercises with that id. The user fills in one form per
  exercise. Each submitted form replaces that exercise's draft. Moving past
  the last exercise builds one progress row for each draft that belongs to
  today's routine. Finishing also records today's weekday for the plan in the
  completion ledger under the `completedWorkout` storage key, and adds one to
  the workout count.
- **The per-exercise progress chart** (`ExerciseProgressComponent.prepareChartData`).
  For each logged session it computes the total volume, the sum of
  `weight × reps` pairing each weight with the reps at the same index, where
  missing reps count as 0. It also computes the heaviest weight, floored at 0,
  and the time-axis range, running from one day before the earliest valid
  timestamp to two days after the latest.
- **The plan editor** (`WorkoutPlanEditComponent`).
  - Ticking a weekday appends it to the selection; unticking removes every
    copy of it.
  - The form's days always mirror the selection.
  - Submitting a valid form sends an add request, or an update request in edit
    mode. Its days are put in Monday-to-Sunday order by a stable sort.
- **The plan list's active-plan switch.** `activateWorkout` and
  `deactivateWorkout` keep the component's id and the `activeWorkoutId`
  storage key in step.
- **The navigation history service.** It records every completed navigation
  and answers with the URL before the current one.
- **The skip-workout dialog.** Its `sensibleReason` check rejects an
  all-digit reason and a reason whose trimmed length is 1 or 2. Submitting
  returns the reason when the form's validators (required, at most 200
  characters) accept it.

Modules follow the program's files:

- `Models`: the records.
- `Storage`: the two local-storage keys.
- `Ledger`: the completion ledger.
- `Drafts`: the per-exercise drafts.
- `Home`, `ProgressChart`, `PlanEdit`, `PlanList`, `Navigation` and
  `SkipDialog`: one component each.

Components whose fields the source updates in place are classes with those
fields. Their methods state the whole new state. Pure computations are
functions, and the properties that relate several calls are lemmas.

How the source's data is represented:

- Weights are `real`, reps are `int`, and set counts are `nat`.
- Timestamps are whole day numbers; an absent or invalid timestamp is `None`.
- An exercise id is `Option<string>`, with `None` standing for an id that is
  not a string.
- A stored progress row whose `weights` or `reps` is a single number instead
  of an array is a `Column.Scalar`.

The model follows the code as written, including these points:

- The completion ledger is keyed by plan id and holds weekday names, not
  calendar dates. It has no skip records.
- `maxVolume` is written as 0 on every saved row.
- `startWorkout` skips exercises whose id is not a non-empty string.
- The axis padding is one day before the earliest timestamp and two days
  after the latest.
- The `sensibleReason` validator exists, but the dialog's form does not use
  it.

## Model

| member | source | states |
|---|---|---|
| Ledger.MarkCompleted | gym-tracker/src/app/pages/home/home.component.ts:255-268 | the plan's entry exists afterwards and contains today; a day already recorded leaves the list unchanged, otherwise it is appended at the end; no other plan is added |
| Ledger.CompletedToday | gym-tracker/src/app/pages/home/home.component.ts:89-100 | definition of the page-load check: a ledger is stored, the plan id is non-empty, and the plan's list (empty when absent) holds today |
| Ledger.MarkCompletedIdempotent | gym-tracker/src/app/pages/home/home.component.ts:263-266 | finishing twice on the same weekday records it once: marking again changes nothing |
| Ledger.MarkCompletedKeepsNoDuplicates | gym-tracker/src/app/pages/home/home.component.ts:263-266 | a ledger whose day lists have no repeats keeps that property after recording a day |
| Ledger.MarkCompletedKeepsOtherPlans | gym-tracker/src/app/pages/home/home.component.ts:259-266 | recording a day for one plan leaves every other plan's day list unchanged |
| Ledger.MarkCompletedIsLocal | gym-tracker/src/app/pages/home/home.component.ts:95-97 | after recording (plan, day), the completed check for any other plan or weekday answers as it did before |
| Ledger.FinishedShowsCompleted | gym-tracker/src/app/pages/home/home.component.ts:255-268 | once a session is finished for a non-empty plan id, the page-load check reports that plan completed on that weekday |
| Drafts.FreshDraft | gym-tracker/src/app/pages/home/home.component.ts:156-161 | a new draft has the exercise's set count and that many reps 0, weights 0 and empty notes |
| Drafts.FindExercise | gym-tracker/src/app/pages/home/home.component.ts:211-213 | the first of today's exercises whose id equals the key, or none when no exercise has that id |
| Drafts.InitDrafts | gym-tracker/src/app/pages/home/home.component.ts:153-166 | the drafts after the start loop keep every existing id with its draft unchanged |
| Drafts.InitDraftsSpec | gym-tracker/src/app/pages/home/home.component.ts:153-166 | starting adds drafts for exactly the valid ids not yet drafted, each a fresh draft of the first exercise with that id; existing drafts are untouched |
| Drafts.InitDraftsIdempotent | gym-tracker/src/app/pages/home/home.component.ts:155-162 | initialising the drafts a second time with the same routine changes nothing |
| Drafts.NoDraftForInvalidId | gym-tracker/src/app/pages/home/home.component.ts:154-165 | the empty id never receives a draft; ids that are missing or not strings have no key to be drafted under |
| Drafts.InitDraftsAligned | gym-tracker/src/app/pages/home/home.component.ts:156-161 | if every existing draft has as many reps, weights and notes as sets, so does every draft after initialisation |
| Home.BlankForm | gym-tracker/src/app/pages/home/home.component.ts:175-189 | the form has one row per set of the exercise, each with reps 0, weight 0 and empty notes |
| Home.DraftFromForm | gym-tracker/src/app/pages/home/home.component.ts:286-291 | the draft takes the set count from the exercise and the reps, weights and notes from the form rows, row by row |
| Home.HomeComponent.constructor | gym-tracker/src/app/pages/home/home.component.ts:31-55 | the initial page state: no plan, no routine, no form, not in a workout, count 0, no drafts, routine header |
| Home.HomeComponent.OnInit | gym-tracker/src/app/pages/home/home.component.ts:75-100 | the current day is the weekday's name, the active id is the stored one or empty, and the workout counts as completed iff a ledger is stored, the id is non-empty and today is in its list |
| Home.HomeComponent.OnWorkoutCountLoaded | gym-tracker/src/app/pages/home/home.component.ts:66-70 | the loaded count of completed workouts becomes the page's count |
| Home.HomeComponent.OnActiveWorkoutLoaded | gym-tracker/src/app/pages/home/home.component.ts:102-107 | the fetched plan becomes the active plan; nothing else changes |
| Home.HomeComponent.OnExercisesLoaded | gym-tracker/src/app/pages/home/home.component.ts:113-131 | today's exercises are the fetched ones or empty, and the header switches to the no-exercises text exactly when the list is empty |
| Home.HomeComponent.StartWorkout | gym-tracker/src/app/pages/home/home.component.ts:148-173 | with no exercises nothing changes; otherwise the session starts at exercise 0 with its blank form, and the drafts become the initialised drafts of the routine |
| Home.HomeComponent.EditSet | gym-tracker/src/app/pages/home/home.component.ts:278-280 | the user's edit replaces one row of the current form and nothing else |
| Home.HomeComponent.OnSubmit | gym-tracker/src/app/pages/home/home.component.ts:282-295 | the current exercise's draft becomes the form's contents when its id is a string; otherwise the drafts are unchanged |
| Home.HomeComponent.FinishWorkout | gym-tracker/src/app/pages/home/home.component.ts:206-243 | one row per drafted id that matches one of today's exercises, none for other ids; each row copies the draft and the first matching exercise's day and name, carries the user, the active plan's id or empty, and maxVolume 0; reps, weights and notes are index-aligned |
| Home.HomeComponent.NextExercise | gym-tracker/src/app/pages/home/home.component.ts:191-204 | before the last exercise it advances by one and builds that exercise's blank form; at the last one it ends the session and returns the rows to save, one per matched id and no id twice |
| Home.HomeComponent.OnNextExercise | gym-tracker/src/app/pages/home/home.component.ts:245-248 | the current form is stored in the draft, then the session advances or ends as above, the rows again holding no id twice |
| Home.HomeComponent.MarkTodayCompleted | gym-tracker/src/app/pages/home/home.component.ts:255-268 | the stored ledger becomes the old one, or an empty one, with today recorded for the active plan |
| Home.HomeComponent.OnFinishWorkout | gym-tracker/src/app/pages/home/home.component.ts:250-276 | the current form is stored in its exercise's draft, the returned rows are those of the resulting drafts with no id twice, the session ends as completed, the count goes up by exactly one, and today is recorded in the stored ledger |
| Home.HomeComponent.CloseSession | gym-tracker/src/app/pages/home/home.component.ts:253-271 | the session is left, today is recorded for the active plan in the stored ledger (old one or empty), the workout is marked completed and the count goes up by exactly one |
| ProgressChart.AsList | gym-tracker/src/app/pages/progress/progress-exercise/progress-exercise.component.ts:80-85 | a list column is taken as is and a single value becomes a one-element list |
| ProgressChart.Volume | gym-tracker/src/app/pages/progress/progress-exercise/progress-exercise.component.ts:86-89 | the left-fold reduce equals the sum over sets of weight times the reps at the same index, 0 where reps are missing |
| ProgressChart.VolumeUsesPairedRepsOnly | gym-tracker/src/app/pages/progress/progress-exercise/progress-exercise.component.ts:86-89 | the volume depends only on the reps at indices that have a weight |
| ProgressChart.ExtraRepsIgnored | gym-tracker/src/app/pages/progress/progress-exercise/progress-exercise.component.ts:86-89 | reps beyond the last weight do not change the volume |
| ProgressChart.NoWeightsNoVolume | gym-tracker/src/app/pages/progress/progress-exercise/progress-exercise.component.ts:86-89 | a session with no weights has volume 0 |
| ProgressChart.VolumeNonNegative | gym-tracker/src/app/pages/progress/progress-exercise/progress-exercise.component.ts:86-89 | with non-negative weights and reps the volume is non-negative |
| ProgressChart.ScalarSessionVolume | gym-tracker/src/app/pages/progress/progress-exercise/progress-exercise.component.ts:79-90 | a row with a single weight and single reps value has volume weight times reps |
| ProgressChart.SessionVolume | gym-tracker/src/app/pages/progress/progress-exercise/progress-exercise.component.ts:79-90 | a session's volume is the sum over sets of weight times reps, with single-number columns read as one-element lists |
| ProgressChart.ThreeSetExample | gym-tracker/src/app/pages/progress/progress-exercise/progress-exercise.component.ts:79-90 | weights 100, 110, 120 with reps 5, 5, 5 give volume 1650 and heaviest weight 120 |
| ProgressChart.MaxWeight | gym-tracker/src/app/pages/progress/progress-exercise/progress-exercise.component.ts:294-300 | the heaviest weight is at least 0 and at least every weight, and is 0 or one of the weights |
| ProgressChart.SessionMaxWeight | gym-tracker/src/app/pages/progress/progress-exercise/progress-exercise.component.ts:294-300 | a session's heaviest weight, with a single weight read as a one-element list: at least 0 and every weight, and 0 or one of them |
| ProgressChart.ValidDates | gym-tracker/src/app/pages/progress/progress-exercise/progress-exercise.component.ts:117-119 | keeps exactly the present, valid timestamps |
| ProgressChart.Earliest | gym-tracker/src/app/pages/progress/progress-exercise/progress-exercise.component.ts:120 | the result is one of the days and no later than any of them |
| ProgressChart.Latest | gym-tracker/src/app/pages/progress/progress-exercise/progress-exercise.component.ts:121 | the result is one of the days and no earlier than any of them |
| ProgressChart.PaddedRange | gym-tracker/src/app/pages/progress/progress-exercise/progress-exercise.component.ts:117-125 | none iff no timestamp is valid; otherwise the minimum is one day before a session, the maximum two days after one, and every session lies strictly inside |
| ProgressChart.Timestamps | gym-tracker/src/app/pages/progress/progress-exercise/progress-exercise.component.ts:92-95 | one timestamp per row, in row order |
| ProgressChart.ExerciseProgressView.constructor | gym-tracker/src/app/pages/progress/progress-exercise/progress-exercise.component.ts:25-31 | no rows, no progress, no chart points, no axis |
| ProgressChart.ExerciseProgressView.PrepareChartData | gym-tracker/src/app/pages/progress/progress-exercise/progress-exercise.component.ts:77-321 | the page has progress iff there are rows; one volume point and one heaviest-weight point per row, in order, at the row's timestamp; the padded axis of the rows' timestamps |
| ProgressChart.ExerciseProgressView.OnProgressChanged | gym-tracker/src/app/pages/progress/progress-exercise/progress-exercise.component.ts:59-64 | the published rows replace the page's rows and the chart data is derived from them |
| PlanEdit.IndexOf | gym-tracker/src/app/pages/workout/workout-plan-edit/workout-plan-edit.component.ts:107 | -1 for a value not in the list, otherwise the first index holding it |
| PlanEdit.InsertBy | gym-tracker/src/app/pages/workout/workout-plan-edit/workout-plan-edit.component.ts:106-108 | inserting a day into a list adds exactly that day |
| PlanEdit.InsertBySorted | gym-tracker/src/app/pages/workout/workout-plan-edit/workout-plan-edit.component.ts:106-108 | inserting into a list in key order keeps it in key order |
| PlanEdit.SortBy | gym-tracker/src/app/pages/workout/workout-plan-edit/workout-plan-edit.component.ts:106-108 | the sorted list is a permutation of the input in key order |
| PlanEdit.InsertByStable | gym-tracker/src/app/pages/workout/workout-plan-edit/workout-plan-edit.component.ts:106-108 | among the days with the new day's key, the inserted day comes first and the others keep their order |
| PlanEdit.SortByStable | gym-tracker/src/app/pages/workout/workout-plan-edit/workout-plan-edit.component.ts:106-108 | days with equal keys keep their relative order through the sort |
| PlanEdit.SortDays | gym-tracker/src/app/pages/workout/workout-plan-edit/workout-plan-edit.component.ts:105-108 | the submitted days are a permutation of the selection in Monday-to-Sunday order, with unknown names first and equal-rank days in their original order |
| PlanEdit.RemoveDay | gym-tracker/src/app/pages/workout/workout-plan-edit/workout-plan-edit.component.ts:95-97 | every copy of the day is removed and every other day is kept, with as many copies as before |
| PlanEdit.RemoveAbsentDay | gym-tracker/src/app/pages/workout/workout-plan-edit/workout-plan-edit.component.ts:95-97 | unticking a day that is not selected leaves the selection unchanged |
| PlanEdit.RemoveDayAppend | gym-tracker/src/app/pages/workout/workout-plan-edit/workout-plan-edit.component.ts:95-97 | removing a day from two lists joined end to end is removing it from each and joining the results, so the kept days stay in order |
| PlanEdit.TickThenUntick | gym-tracker/src/app/pages/workout/workout-plan-edit/workout-plan-edit.component.ts:88-101 | ticking a day that was not selected and then unticking it restores the selection |
| PlanEdit.WorkoutEditComponent.constructor | gym-tracker/src/app/pages/workout/workout-plan-edit/workout-plan-edit.component.ts:42-54 | an empty form bound to an empty selection, not in edit mode |
| PlanEdit.WorkoutEditComponent.OnRouteParams | gym-tracker/src/app/pages/workout/workout-plan-edit/workout-plan-edit.component.ts:62-85 | no id leaves add mode; a found plan switches to edit mode and fills the form and the selection; an id without a plan changes nothing else |
| PlanEdit.WorkoutEditComponent.OnDayChange | gym-tracker/src/app/pages/workout/workout-plan-edit/workout-plan-edit.component.ts:88-101 | ticking appends the day, unticking removes it, and the form's days equal the selection |
| PlanEdit.WorkoutEditComponent.FormValid | gym-tracker/src/app/pages/workout/workout-plan-edit/workout-plan-edit.component.ts:49-53 | definition of the form's `required` validators: the name and the description are non-empty (white space counts) and at least one day is selected |
| PlanEdit.WorkoutEditComponent.OnSubmit | gym-tracker/src/app/pages/workout/workout-plan-edit/workout-plan-edit.component.ts:103-139 | no request iff the form is invalid; otherwise an add, or an update of the edited plan in edit mode, with the form's name, description and days stably sorted into week order |
| PlanList.WorkoutListComponent.constructor | gym-tracker/src/app/pages/workout/workout-plan-list/workout-plan-list.component.ts:20 | no active plan |
| PlanList.WorkoutListComponent.OnInit | gym-tracker/src/app/pages/workout/workout-plan-list/workout-plan-list.component.ts:41 | the active id is the stored one, or empty when none is stored |
| PlanList.WorkoutListComponent.ActivateWorkout | gym-tracker/src/app/pages/workout/workout-plan-list/workout-plan-list.component.ts:45-48 | the component and storage both hold the new id |
| PlanList.WorkoutListComponent.DeactivateWorkout | gym-tracker/src/app/pages/workout/workout-plan-list/workout-plan-list.component.ts:51-56 | deactivating the active plan clears the component's id and removes the key; any other id changes nothing; agreement with storage is kept |
| PlanList.ActivateThenDeactivate | gym-tracker/src/app/pages/workout/workout-plan-list/workout-plan-list.component.ts:45-56 | activating a plan and then deactivating it leaves no active plan in the component or in storage |
| Navigation.NavigationService.constructor | gym-tracker/src/app/services/navigation-service.service.ts:9-11 | the history starts empty |
| Navigation.NavigationService.OnNavigationEnd | gym-tracker/src/app/services/navigation-service.service.ts:15-17 | the URL is appended, earlier entries are kept, and the previous URL becomes the one that was current |
| Navigation.NavigationService.GetPreviousUrl | gym-tracker/src/app/services/navigation-service.service.ts:24-29 | none iff fewer than two URLs were recorded, otherwise the second-to-last one |
| SkipDialog.TrimStart | gym-tracker/src/app/shared/skip-workout-dialog/skip-workout-dialog.component.ts:57 | the result is a suffix of the input and does not start with white space, and only white space was dropped |
| SkipDialog.TrimEnd | gym-tracker/src/app/shared/skip-workout-dialog/skip-workout-dialog.component.ts:57 | the result is a prefix of the input and does not end with white space, and only white space was dropped |
| SkipDialog.Trim | gym-tracker/src/app/shared/skip-workout-dialog/skip-workout-dialog.component.ts:57 | the trimmed text is a slice of the input from which only white space was cut at either end, and it neither starts nor ends with white space |
| SkipDialog.TrimWhitespaceOnly | gym-tracker/src/app/shared/skip-workout-dialog/skip-workout-dialog.component.ts:57 | a reason made only of white space trims to nothing |
| SkipDialog.TrimKeepsText | gym-tracker/src/app/shared/skip-workout-dialog/skip-workout-dialog.component.ts:57 | every character of the reason that is not white space survives trimming |
| SkipDialog.SensibleReason | gym-tracker/src/app/shared/skip-workout-dialog/skip-workout-dialog.component.ts:52-60 | the only-numbers error iff the value is a non-empty run of digits; the too-short error iff it is not and its trimmed length is 1 or 2; no error otherwise |
| SkipDialog.DigitsCheckedFirst | gym-tracker/src/app/shared/skip-workout-dialog/skip-workout-dialog.component.ts:55-58 | a short all-digit reason such as "12" gets the only-numbers error, not the too-short one |
| SkipDialog.BlankIsSensible | gym-tracker/src/app/shared/skip-workout-dialog/skip-workout-dialog.component.ts:53-59 | a missing, empty or all-white-space value passes the check |
| SkipDialog.ThreeLettersAreSensible | gym-tracker/src/app/shared/skip-workout-dialog/skip-workout-dialog.component.ts:57-59 | a reason with two non-white-space characters two positions apart, the first not a digit, passes the check |
| SkipDialog.Submit | gym-tracker/src/app/shared/skip-workout-dialog/skip-workout-dialog.component.ts:40-65 | the dialog closes with the reason iff it is non-empty and at most 200 characters; otherwise it stays open |
| SkipDialog.SubmitSkipsSensibleReason | gym-tracker/src/app/shared/skip-workout-dialog/skip-workout-dialog.component.ts:43-47 | an all-digit reason that the check rejects is still submitted, because the form does not use the check |

## Left out

- Home.HomeComponent.FinishWorkout: the order of the rows is not stated, only that there is exactly one row per matched id. The source walks the draft object's keys with `for...in`, so the order is the object's key order.
- Home.HomeComponent.FinishWorkout: the rows are returned instead of being sent to `saveWorkoutProgress`. The remote call, its success and error logging, and its promise are not modelled.
- Home.HomeComponent.OnFinishWorkout: `updateTotalWorkoutCount` is not modelled; the new count is in the component's state. The `await`s on non-promises are not modelled either; they do not change the order of effects.
- Home.HomeComponent.OnSubmit: requires a built form. The source dereferences the form and throws when there is none.
- Home.HomeComponent.OnExercisesLoaded: requires that no form is built yet. The routine is fetched once, from page initialisation, before a session can start.
- Remote data and users: `getUserWorkoutCount`, `getWorkoutPlanById`, `getDayId`, `getRoutineById` and `getExerciseProgress` are calls into the back end. Their results are parameters of the callback methods (`OnWorkoutCountLoaded`, `OnActiveWorkoutLoaded`, `OnExercisesLoaded`, `OnProgressChanged`). A `getDayId` that finds no day means the callback never runs. The signed-in user is a `userId` parameter.
- Asynchrony: subscriptions, promises and the interleaving of callbacks are not modelled. Each callback is a method that runs on its own.
- JSON and local storage: the ledger is stored already parsed. `JSON.parse` of malformed text, and the stored raw string being empty, are not modelled.
- Numbers: JavaScript numbers are floating point. Weights are `real` and reps `int`. NaN, non-numeric form input, `null` entries in reps, and a negative or fractional set count (for which `Array(n)` throws) are not modelled.
- Dates: timestamps are whole day numbers. Time of day, time zones, `Date` parsing and `setDate` calendar rollover are not modelled. The invalid date that `Math.min` of nothing produces is `None`.
- Chart presentation is not modelled: labels, colours, tooltip text and chart options.
- String lengths count Unicode scalar values. JavaScript counts UTF-16 code units, which differ for characters outside the Basic Multilingual Plane; this matters for the 200-character limit and the trimmed length of 1 or 2.
- Dialogs and navigation are not modelled: `confirmCancelWorkout`, the can-exit guard, and router navigation after submitting a plan or deleting one.
- Back-end operations are not modelled: `deleteWorkout`, the `successMessage` and `errorMessage` of the plan editor after the remote add or update, and the remote calls themselves. Those calls are represented by the returned `PlanRequest`.
- The plan editor's selection is modelled as a value that the form mirrors. The source shares one array between the selection and the form's days control: the constructor binds it, and `patchValue` in `onDayChange` re-binds it after every tick or untick. Aliasing of that array is not modelled; the values always agree, which the `Valid` invariant states.
