# My plan: day-plan view model in Dafny

This project models the view-model logic of the "my plan" screen of a
fitness-plan app. The screen shows one week of a workout plan. The user picks
a day, and the screen shows that day's state: a workout to start, a
completed-workout summary, a short celebration after a workout, or a day off.

Modelled parts:

- **MyPlanEntity** (`MyPlanEntity.dfy`, from `MyPlan/MyPlanModels.swift`):
  - the wire enums `DayProgressStatus`, `RateAction` and `TypeWorkout`, with their raw values and parsers;
  - the plan and progress responses;
  - `DayWorkout.progressStatus` and `SaveProgress.passed`;
  - the two searches over the progress history, `workout(with:)` and `completedWorkout(for:)`;
  - the view entities: section kinds, rows, the top entity and the displayed list.
- **MyPlanSections** (`MyPlanSections.dfy`, from `MyPlan/MyPlanPresenter.swift`): the
  section list as a pure function `Render` of the presenter's fields. It covers what
  `setupViewEntity`, `setupEmptyViewEntity` and every `getConfigured*Data` builder produce.
  The lemmas beside it state the properties of the screen.
- **Presenter** (`Presenter.dfy`, from `MyPlan/MyPlanPresenter.swift`): the class
  `MyPlanPresenter` with the source's mutable fields and these state transitions:
  - day selection (`updateDayData`);
  - the success arm of the plan load (`getMyPlan`) and of the progress load;
  - the join of the two workout fetches;
  - `changeDate`;
  - the well-done timer;
  - `setupVideoURL`.
  `SetupViewEntity` and the loop builders (`GetConfiguredDaysData`, the equipment loop)
  are methods. Each is proved equal to the matching pure function.
- **BaseModels** (`BaseModels.dfy`): the fields of the fetched workout detail that the
  presenter reads. The workout type's own source file is not part of this model. Its
  shape comes from how the presenter uses it.
- **Text** (`Text.dfy`): Swift's decimal rendering of an `Int` in string interpolation,
  with a round trip, and ASCII lower-casing.
- **Optional** (`Optional.dfy`): Swift's `Optional`.

External inputs are passed in as the `Environment` parameter:

- the user name from the shared configuration;
- the localized strings;
- the duration formatter `secondsToHoursMinutesSeconds`;
- date formatting;
- today's date.

Network results arrive as method arguments. Requests the presenter would send
come back as return values: the workout ids to fetch, the date-change body, and
whether the plan type must be fetched.

Where the design description and the code differ, the model follows the code:

- Selecting a day does not check it against the week. Only a plan load resets an
  unknown selection (`MyPlanLoaded`).
- The item row picks the alternative workout when its id equals the completed
  workout's id, and two missing ids count as equal. So with no passed record and no
  alternative workout, the row is empty rather than showing the primary
  (`ItemPicksMissingAlternative`).
- `changeDate` sets `currentDay` before the backend answers.
- Selecting a day does not cancel the timer. The timer body only checks that a
  celebration id is still set when it fires.

## Model

| member | source | states |
|---|---|---|
| `MyPlanEntity.ParseDayProgressStatus` | MyPlan/MyPlanModels.swift:260-265 | a parsed status prints back to the input; an input no case prints to parses to nothing |
| `MyPlanEntity.DayProgressStatusRoundTrip` | MyPlan/MyPlanModels.swift:260-265 | parsing the raw value of every status gives that status |
| `MyPlanEntity.ParseRateAction` | MyPlan/MyPlanModels.swift:267-273 | a parsed action prints back to the input; other strings parse to nothing |
| `MyPlanEntity.RateActionRoundTrip` | MyPlan/MyPlanModels.swift:267-273 | the five raw values are pairwise distinct and each parses back to its case |
| `MyPlanEntity.ParseTypeWorkout` | MyPlan/MyPlanModels.swift:255-258 | exactly 0 and 1 are variants, and each has the given raw value |
| `MyPlanEntity.DayWorkout.ProgressStatus` | MyPlan/MyPlanModels.swift:84-86 | a missing status gives nothing; the result is the status whose raw value is the status string |
| `MyPlanEntity.SaveProgressPassedIff` | MyPlan/MyPlanModels.swift:97-99 | `passed` holds exactly for a 6-letter status spelling "passed" in any case mix; a missing status is not passed |
| `MyPlanEntity.FirstDay` | MyPlan/MyPlanModels.swift:313 | nothing exactly when no entry has the day number; otherwise the first entry with it |
| `MyPlanEntity.WorkoutInDays` | MyPlan/MyPlanModels.swift:299-306 | a found workout has the id; nothing exactly when no day holds a workout with that id |
| `MyPlanEntity.WorkoutInProgresses` | MyPlan/MyPlanModels.swift:298-308 | a found workout has the id; nothing exactly when no day of any progress entry holds it |
| `MyPlanEntity.WorkoutWith` | MyPlan/MyPlanModels.swift:296-309 | a missing id finds nothing; a result carries the id; nothing is found only when no workout has the id |
| `MyPlanEntity.WorkoutWithScansInOrder` | MyPlan/MyPlanModels.swift:298-308 | the result is the first slot with the id in the order progress, day, primary before alternative |
| `MyPlanEntity.CompletedWorkout` | MyPlan/MyPlanModels.swift:311-323 | any result is passed; it comes from the first progress entry that yields one; nothing exactly when no entry yields one |
| `MyPlanEntity.CompletedWorkoutPriority` | MyPlan/MyPlanModels.swift:313-319 | in the first yielding entry's first day entry, a passed primary wins over a passed alternative; with neither, the search goes on |
| `MyPlanEntity.CompletedAtIgnoresLaterRecords` | MyPlan/MyPlanModels.swift:313-319 | only a progress entry's first day record for the day matters: replacing every record after it leaves the entry's answer unchanged |
| `MyPlanEntity.CompletedWorkoutIgnoresLaterEntries` | MyPlan/MyPlanModels.swift:313 | an example: a passed second record for a day whose first record is not passed yields nothing |
| `Text.NatToStringRoundTrip` | MyPlan/MyPlanPresenter.swift:312 | reading the rendered digits back gives the number |
| `Text.IntToStringInjective` | MyPlan/MyPlanPresenter.swift:312 | distinct integers render to distinct strings |
| `Text.Lowercased` | MyPlan/MyPlanModels.swift:98 | same length, each character lower-cased |
| `MyPlanSections.SelectedDay` | MyPlan/MyPlanPresenter.swift:305 | the found entry has the selected number and belongs to the week; nothing exactly when the week is missing or lacks it |
| `MyPlanSections.CompletedOf` | MyPlan/MyPlanPresenter.swift:429 | a completed workout exists only with a progress record and is passed |
| `MyPlanSections.DayStripItems` | MyPlan/MyPlanPresenter.swift:373-387 | one item per week entry, in order: number is day or position+1, selected iff the selected day, today iff flagged, unknown status shows as not passed; empty without a week |
| `MyPlanSections.DayStripHighlightsSelectedDay` | MyPlan/MyPlanPresenter.swift:378-382 | a present selected day is highlighted under its number, and with unique day numbers only once |
| `MyPlanSections.EquipmentTextEmptyIff` | MyPlan/MyPlanPresenter.swift:392-394 | the equipment text is empty exactly when every item is empty |
| `MyPlanSections.EquipmentTextIsJoin` | MyPlan/MyPlanPresenter.swift:391-399 | the equipment text is the ", "-join of the items after the leading empty ones |
| `MyPlanSections.EquipmentTextWithoutEmptyItems` | MyPlan/MyPlanPresenter.swift:391-399 | with no empty item the equipment text is the plain ", "-join |
| `MyPlanSections.VideoSectionRows` | MyPlan/MyPlanPresenter.swift:389-405 | always two rows, primary then alternative; a missing workout gives all-empty fields |
| `MyPlanSections.StartTitleNamesTheDay` | MyPlan/MyPlanPresenter.swift:312 | distinct days get distinct start-button titles |
| `MyPlanSections.NoRecordRowsDefault` | MyPlan/MyPlanPresenter.swift:414-449 | with no passed workout recorded for the selected day, the item progress is 0, the difficulty is absent and the duration is empty |
| `MyPlanSections.PassedRecordRows` | MyPlan/MyPlanPresenter.swift:414-449 | in the first progress entry that records a passed workout for the selected day, the difficulty, item progress and duration are its passed primary's, or its passed alternative's when the primary did not pass |
| `MyPlanSections.InfoRowCountsAndCalories` | MyPlan/MyPlanPresenter.swift:414-426 | the info row counts one workout; its calories are the primary workout's (0 when unknown) whatever the alternative and the progress are |
| `MyPlanSections.ItemShowsCompletedWorkout` | MyPlan/MyPlanPresenter.swift:429-432 | a recorded pass of the alternative shows the alternative; otherwise the primary |
| `MyPlanSections.ItemPicksMissingAlternative` | MyPlan/MyPlanPresenter.swift:430 | with no passed record and no alternative the item row is empty |
| `MyPlanSections.RenderNothingIff` | MyPlan/MyPlanPresenter.swift:305 | nothing is displayed exactly when the week lacks the selected day or its status is unknown |
| `MyPlanSections.RenderSectionKinds` | MyPlan/MyPlanPresenter.swift:307-357 | workout day: hello, strip, video, button; day off: hello, strip, image; passed: day number, strip, well done when celebrating, else completed, strip, info, difficulty, item |
| `MyPlanSections.RenderLayout` | MyPlan/MyPlanPresenter.swift:302-360 | the strip is at index 1; "today" iff not passed; every other section except video has one row |
| `MyPlanSections.CelebrationIff` | MyPlan/MyPlanPresenter.swift:318-324 | the sections of a passed day celebrate exactly when the just-completed id is set and equals the primary's or alternative's id |
| `MyPlanSections.StartButtonNamesSelectedDay` | MyPlan/MyPlanPresenter.swift:312-317 | the fourth section of a not-passed or skipped day is the start button titled with the selected day |
| `MyPlanSections.WorkoutDayScenario` | MyPlan/MyPlanPresenter.swift:308-317 | day 3 not passed with w1/w2: hello, strip, both videos in order, button "… 3" |
| `MyPlanSections.PassedDayScenario` | MyPlan/MyPlanPresenter.swift:325-335 | day 3 passed via alternative w2 rated 4: completed, strip, info, difficulty 4, item w2 at 100 |
| `MyPlanSections.EmptyScreen` | MyPlan/MyPlanPresenter.swift:287-297 | no top entity; an empty-title section then a greeting button |
| `Presenter.RequestedWorkouts` | MyPlan/MyPlanPresenter.swift:158-160 | with a selected day, each id sent is that day's primary or alternative workout id, and "" when that workout or its id is missing; with no selected day both ids are "" |
| `Presenter.JoinEquipment` | MyPlan/MyPlanPresenter.swift:391-399 | the loop computes the equipment text |
| `Presenter.MyPlanPresenter.constructor` | MyPlan/MyPlanPresenter.swift:28-40 | initial field values, with the rate-popup flag set |
| `Presenter.MyPlanPresenter.UpdateDayData` | MyPlan/MyPlanPresenter.swift:75-80 | selects the day, clears the celebration id and rate-popup flag, no celebration can show, fetches that day's ids |
| `Presenter.MyPlanPresenter.GetWorkouts` | MyPlan/MyPlanPresenter.swift:158-160 | sends exactly the ids `RequestedWorkouts` describes for the current week and selection: the selected day's workout ids, "" when missing |
| `Presenter.MyPlanPresenter.WorkoutsLoaded` | MyPlan/MyPlanPresenter.swift:162-183 | stores both fetch results, then displays `Render` of the new state |
| `Presenter.MyPlanPresenter.ProgressLoaded` | MyPlan/MyPlanPresenter.swift:148-155 | stores the progress record |
| `Presenter.MyPlanPresenter.MyPlanLoaded` | MyPlan/MyPlanPresenter.swift:125-134 | week, current day (default 0) and plan id stored; selection reset iff unset, plan changed or day missing; selection is then current or in the week |
| `Presenter.MyPlanPresenter.ChangeDate` | MyPlan/MyPlanPresenter.swift:217-221 | the current day becomes the selected day, which the request carries |
| `Presenter.MyPlanPresenter.StartHideWellDoneTimer` | MyPlan/MyPlanPresenter.swift:274-276 | a timer is scheduled exactly when a celebration id is set |
| `Presenter.MyPlanPresenter.HideWellDoneTimerFired` | MyPlan/MyPlanPresenter.swift:276-282 | without an id nothing changes; otherwise the id is cleared, the flag set, and the screen rebuilt |
| `Presenter.MyPlanPresenter.SetupViewEntity` | MyPlan/MyPlanPresenter.swift:299-365 | displays exactly `Render` of the fields and clears the data-synchronisation flag when it displays |
| `Presenter.MyPlanPresenter.GetConfiguredDaysData` | MyPlan/MyPlanPresenter.swift:373-387 | the loop builds the day-strip section |
| `Presenter.MyPlanPresenter.GetConfiguredVideoData` | MyPlan/MyPlanPresenter.swift:389-406 | builds the video section of the two workouts |
| `Presenter.MyPlanPresenter.SetupVideoURL` | MyPlan/MyPlanPresenter.swift:86-95 | a forced workout wins, else the chosen variant, and no choice plays the alternative; url is its link; current day of plan iff a day is given and not after the current day |

## Left out

- Network calls through the plan API: get plan, get progress, get workout, save progress, change date, rate workout, change difficulty, get full plan. Only the success-branch state updates are modelled; requests are return values.
- `getData`'s subscription check, the reachability guard, and the notification observers for reachability and idle-state exit are left out; these are singletons and notifications.
- `showHints` and `shouldShowHintsOnInternetConnected` are left out (view glue gated on reachability).
- `checkCurrentPlanType` and `currentPlanType`: the model only returns whether the plan-type request fires. The fetched plan type comes from the network.
- The failure arm of `getMyPlan` is left out. It picks an error alert or the empty screen from a configuration flag. The empty screen itself is `EmptyScreen`.
- `view.showBottomView`, `view.showError` and the view controller, data source, composition layouts and constants are left out (UIKit presentation).
- Concurrency: the dispatch-group join is modelled as one step that stores both results and then renders. In the source each callback calls `leave()` before it stores its workout, so the join can run before the last store. That race is not modelled.
- The 5-second `asyncAfter` delay is left out. Only the scheduling decision and the callback body are modelled.
- The commented-out rate-popup block and the commented `ChangeDate` line are left out.
- The presenter's `type` property is left out: it is declared but never read or written in the presenter.
- The presenter's `days` property is left out: it is initialised with an empty strip section but never read in the presenter.
- `PlanType`, `TypeCollection`, the `SaveProgressV2`/`DeletePart`/`RateWorkout`/`ChangeDifficulty` request and response structs, `FullPlanResponse`, `TopEntity` and `EquipmentEntity` are left out. The core does not use them.
- `NextPart.node` is left out: its type is not part of this model.
- Codable encoding and decoding are left out (`Progress.id` is read from the key `_id`).
- The unused local `selectDayIndex` in `getConfiguredInfoData` has no effect and is left out.
- Text.Lowercased: models `lowercased()` on ASCII letters only; full Unicode case mapping is not modelled.
- Text.IntToString: Swift's `Int` is 64-bit; the model renders unbounded integers, which agrees on every 64-bit value.
- Localized strings, the user name, `secondsToHoursMinutesSeconds`, date formatting and the current date are parameters of `Environment`. Their content is not modelled.
