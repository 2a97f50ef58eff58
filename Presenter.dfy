/** The presenter of the "my plan" screen: its mutable selection state, the
    transitions that change it, and the builders that turn it into sections. */
module Presenter {
  import opened Optional
  import opened Text
  import opened MyPlanEntity
  import opened MyPlanSections
  import BaseModels

  /** The two workout ids `getWorkouts` fetches; a missing id is sent as "". */
  datatype WorkoutRequest = WorkoutRequest(workoutId: string, altWorkoutId: string)

  function RequestedWorkouts(week: Option<seq<Day>>, selectDay: int): (r: WorkoutRequest)
    ensures SelectedDay(week, selectDay).None? ==> r == WorkoutRequest("", "")
    ensures r.workoutId != "" ==>
      var day := SelectedDay(week, selectDay);
      day.Some? && HasId(day.value.workout, r.workoutId)
    ensures r.altWorkoutId != "" ==>
      var day := SelectedDay(week, selectDay);
      day.Some? && HasId(day.value.altWorkout, r.altWorkoutId)
    ensures forall day, x :: SelectedDay(week, selectDay) == Some(day) && HasId(day.workout, x) ==> r.workoutId == x
    ensures forall day, x :: SelectedDay(week, selectDay) == Some(day) && HasId(day.altWorkout, x) ==> r.altWorkoutId == x
    ensures forall day :: SelectedDay(week, selectDay) == Some(day) && (day.workout.None? || day.workout.value.id.None?) ==>
      r.workoutId == ""
    ensures forall day :: SelectedDay(week, selectDay) == Some(day) && (day.altWorkout.None? || day.altWorkout.value.id.None?) ==>
      r.altWorkoutId == ""
  {
    var day := SelectedDay(week, selectDay);
    if day.None? then WorkoutRequest("", "")
    else
      var primary := day.value.workout;
      var alternative := day.value.altWorkout;
      WorkoutRequest(if primary.Some? then primary.value.id.GetOr("") else "",
                     if alternative.Some? then alternative.value.id.GetOr("") else "")
  }

  /** What `setupVideoURL` asks the view to play. */
  datatype PlayerRequest = PlayerRequest(
    url: string,
    currentDay: int,
    isCurrentDayOfPlan: bool,
    workout: Option<BaseModels.Workout>)

  /** The equipment loop of `getConfiguredVideoData`. */
  method JoinEquipment(items: seq<string>) returns (text: string)
    ensures text == EquipmentText(items)
  {
    text := "";
    for i := 0 to |items|
      invariant text == EquipmentText(items[..i])
    {
      assert items[..i + 1][..i] == items[..i];
      text := text + (if text == "" then items[i] else ", " + items[i]);
    }
    assert items[..|items|] == items;
  }

  class MyPlanPresenter {
    var selectDay: int
    var currentDay: int
    var workoutSelected: Option<TypeWorkout>
    var week: Option<seq<Day>>
    var workout: Option<BaseModels.Workout>
    var altWorkout: Option<BaseModels.Workout>
    var wellDoneWorkoutId: Option<string>
    var progress: Option<ProgressArray>
    var ratePopupForSelectedDayShown: bool
    var dataSynchronization: bool
    var currentPlanId: Option<string>

    constructor ()
      ensures selectDay == 0 && currentDay == 0
      ensures workoutSelected.None? && week.None? && workout.None? && altWorkout.None?
      ensures wellDoneWorkoutId.None? && progress.None? && currentPlanId.None?
      ensures ratePopupForSelectedDayShown && !dataSynchronization
    {
      selectDay, currentDay := 0, 0;
      workoutSelected, week, workout, altWorkout := None, None, None, None;
      wellDoneWorkoutId, progress, currentPlanId := None, None, None;
      ratePopupForSelectedDayShown, dataSynchronization := true, false;
    }

    /** The fields the sections are built from. */
    function State(): PlanState
      reads this
    {
      PlanState(week, selectDay, wellDoneWorkoutId, workout, altWorkout, progress)
    }

    /** The selected day is the current day or a day of the loaded week. */
    predicate SelectionInWeek()
      reads this
    {
      selectDay == currentDay || SelectedDay(week, selectDay).Some?
    }

    /** `updateDayData(selectDay:)`: select a day, forget the celebration and
        the rate-popup suppression, and fetch the day's workouts. */
    method UpdateDayData(day: int) returns (request: WorkoutRequest)
      modifies this`selectDay, this`ratePopupForSelectedDayShown, this`wellDoneWorkoutId
      ensures selectDay == day
      ensures !ratePopupForSelectedDayShown && wellDoneWorkoutId.None?
      ensures request == RequestedWorkouts(week, day)
      ensures !WellDoneShown(State())
    {
      selectDay := day;
      ratePopupForSelectedDayShown := false;
      wellDoneWorkoutId := None;
      request := GetWorkouts();
    }

    /** The ids `getWorkouts` sends for the selected day. */
    method GetWorkouts() returns (request: WorkoutRequest)
      ensures request == RequestedWorkouts(week, selectDay)
    {
      var day := SelectedDay(week, selectDay);
      var workoutId, altWorkoutId := "", "";
      if day.Some? && day.value.workout.Some? {
        workoutId := day.value.workout.value.id.GetOr("");
      }
      if day.Some? && day.value.altWorkout.Some? {
        altWorkoutId := day.value.altWorkout.value.id.GetOr("");
      }
      request := WorkoutRequest(workoutId, altWorkoutId);
    }

    /** The join of the two workout fetches: both results are stored, then the
        screen is rebuilt. A failed fetch arrives as `None`. */
    method WorkoutsLoaded(w: Option<BaseModels.Workout>, alt: Option<BaseModels.Workout>, env: Environment)
      returns (shown: Option<Display>)
      modifies this`workout, this`altWorkout, this`dataSynchronization
      ensures workout == w && altWorkout == alt
      ensures shown == Render(State(), env)
      ensures dataSynchronization == (if shown.Some? then false else old(dataSynchronization))
    {
      workout := w;
      altWorkout := alt;
      shown := SetupViewEntity(env);
    }

    /** The success arm of `getProgress`. */
    method ProgressLoaded(p: ProgressArray)
      modifies this`progress
      ensures progress == Some(p)
    {
      progress := Some(p);
    }

    /** The success arm of `getMyPlan`: store the week and the current day, keep
        the selection only when it is set, the plan is the same and the new
        week still has that day; then fetch the selected day's workouts. A
        changed, present plan id triggers the plan-type request. */
    method MyPlanLoaded(data: MyPlanResponse) returns (request: WorkoutRequest, checkPlanType: bool)
      modifies this`week, this`currentDay, this`selectDay, this`currentPlanId
      ensures week == data.weekPlan
      ensures currentDay == data.currentDay.GetOr(0)
      ensures currentPlanId == data.planId
      ensures selectDay ==
        if old(selectDay) == 0 || data.planId != old(currentPlanId) || SelectedDay(data.weekPlan, old(selectDay)).None?
        then currentDay else old(selectDay)
      ensures SelectionInWeek()
      ensures checkPlanType <==> data.planId != old(currentPlanId) && data.planId.Some?
      ensures request == RequestedWorkouts(week, selectDay)
    {
      week := data.weekPlan;
      currentDay := data.currentDay.GetOr(0);
      if selectDay == 0 || data.planId != currentPlanId || SelectedDay(week, selectDay).None? {
        selectDay := currentDay;
      }
      var oldPlanId := currentPlanId;
      currentPlanId := data.planId;
      checkPlanType := oldPlanId != currentPlanId && currentPlanId.Some?;
      request := GetWorkouts();
    }

    /** `changeDate`: the selected day becomes the current day before the
        backend answers; the request carries the selected day. */
    method ChangeDate() returns (request: ChangeDateRequest)
      modifies this`currentDay
      ensures currentDay == selectDay
      ensures request == ChangeDateRequest(Some(selectDay))
      ensures SelectionInWeek()
    {
      request := ChangeDateRequest(Some(selectDay));
      currentDay := selectDay;
    }

    /** `startHideWellDoneTimer`: a timer is scheduled only while a celebration is pending. */
    method StartHideWellDoneTimer() returns (scheduled: bool)
      ensures scheduled <==> wellDoneWorkoutId.Some?
    {
      scheduled := wellDoneWorkoutId.Some?;
    }

    /** The body of the five-second timer: if a celebration is still pending,
        drop it, mark the rate popup as shown and rebuild the screen. */
    method HideWellDoneTimerFired(env: Environment) returns (shown: Option<Display>)
      modifies this`wellDoneWorkoutId, this`ratePopupForSelectedDayShown, this`dataSynchronization
      ensures old(wellDoneWorkoutId).None? ==> shown.None? && unchanged(this)
      ensures old(wellDoneWorkoutId).Some? ==>
        && wellDoneWorkoutId.None? && ratePopupForSelectedDayShown
        && shown == Render(State(), env)
        && dataSynchronization == (if shown.Some? then false else old(dataSynchronization))
      ensures !WellDoneShown(State())
    {
      shown := None;
      if wellDoneWorkoutId.Some? {
        wellDoneWorkoutId := None;
        ratePopupForSelectedDayShown := true;
        shown := SetupViewEntity(env);
      }
    }

    /** `setupViewEntity`: nothing when the selected day is missing or its
        status unknown; otherwise the sections for its status. */
    method SetupViewEntity(env: Environment) returns (shown: Option<Display>)
      modifies this`dataSynchronization
      ensures shown == Render(State(), env)
      ensures dataSynchronization == (if shown.Some? then false else old(dataSynchronization))
    {
      var daysEntity := GetConfiguredDaysData();
      var day := SelectedDay(week, selectDay);
      if day.None? {
        return None;
      }
      var status := StatusOf(day.value);
      if status.None? {
        return None;
      }
      var items: seq<Section> := [];
      match status.value {
        case NotPassed | Skipped =>
          var videoEntity := GetConfiguredVideoData(env);
          items := items + [HelloSection(Greeting(env), WorkoutGreetingText1, WorkoutGreetingText2)];
          items := items + [daysEntity];
          items := items + [videoEntity];
          items := items + [ButtonSection(StartTitle(env, selectDay))];
        case Passed =>
          if wellDoneWorkoutId.Some? &&
             (BaseModels.IdOf(workout) == wellDoneWorkoutId || BaseModels.IdOf(altWorkout) == wellDoneWorkoutId) {
            items := items + [DayNumberSection(env, selectDay)];
            items := items + [daysEntity];
            items := items + [Section([WellDoneRow], WellDone)];
          } else {
            items := items + [Section([CompletedRow], Completed)];
            items := items + [daysEntity];
            items := items + [InfoSection(State(), env)];
            items := items + [DifficultySection(State())];
            items := items + [ItemSection(State())];
          }
        case DayOff =>
          items := items + [HelloSection(Greeting(env), env.dayOffSubTitle, env.dayOffDescription)];
          items := items + [daysEntity];
          items := items + [Section([ImageRow], Image)];
      }
      assert items == StatusSections(State(), status.value, env);
      var top := TopViewEntity(DisplayDate(day.value, env), status.value != Passed);
      dataSynchronization := false;
      shown := Some(Display(Some(top), items));
    }

    /** `getConfiguredDaysData`: one strip item per week entry, in order. */
    method GetConfiguredDaysData() returns (section: Section)
      ensures section == DaysSection(week, selectDay)
    {
      section := Section([], DayWeek);
      if week.None? {
        return;
      }
      var days := week.value;
      for index := 0 to |days|
        invariant section.kind == DayWeek
        invariant |section.items| == index
        invariant forall k :: 0 <= k < index ==> section.items[k] == DayItem(days[k], k, selectDay)
      {
        var day := days[index];
        var isSelect := day.day == Some(selectDay);
        var isToday := day.currentDay.GetOr(false);
        var status := StatusOf(day).GetOr(NotPassed);
        section := section.(items := section.items + [DayRow(day.day.GetOr(index + 1), isSelect, isToday, "", status)]);
      }
    }

    /** `getConfiguredVideoData`: the primary and the alternative workout rows. */
    method GetConfiguredVideoData(env: Environment) returns (section: Section)
      ensures section == VideoSection(State(), env)
    {
      var equipmentString := JoinEquipment(BaseModels.EquipmentsOf(workout));
      var altEquipmentString := JoinEquipment(BaseModels.EquipmentsOf(altWorkout));
      var duration := BaseModels.DurationOf(workout);
      var altDuration := BaseModels.DurationOf(altWorkout);
      var workoutRow := VideoRow(BaseModels.TitleOf(workout),
                                 if duration.Some? then env.formatDuration(duration.value) else "",
                                 BaseModels.ThumbnailOf(workout), BaseModels.LinkOf(workout), equipmentString);
      var altWorkoutRow := VideoRow(BaseModels.TitleOf(altWorkout),
                                    if altDuration.Some? then env.formatDuration(altDuration.value) else "",
                                    BaseModels.ThumbnailOf(altWorkout), BaseModels.LinkOf(altWorkout), altEquipmentString);
      section := Section([workoutRow, altWorkoutRow], Video);
    }

    /** `setupVideoURL(day:forceWorkout:)`: a forced workout wins; otherwise the
        chosen variant, where no choice at all plays the alternative. The day is
        a current day of the plan when it is given and not after `currentDay`. */
    method SetupVideoURL(day: Option<int>, forceWorkout: Option<BaseModels.Workout>) returns (request: PlayerRequest)
      ensures forceWorkout.Some? ==> request.workout == forceWorkout
      ensures forceWorkout.None? && workoutSelected == Some(TypeWorkout.Workout) ==> request.workout == workout
      ensures forceWorkout.None? && workoutSelected != Some(TypeWorkout.Workout) ==> request.workout == altWorkout
      ensures request.url == BaseModels.LinkOf(request.workout)
      ensures request.isCurrentDayOfPlan <==> day.Some? && day.value <= currentDay
      ensures request.currentDay == day.GetOr(currentDay)
    {
      var selectedWorkout := if forceWorkout.Some? then forceWorkout
                             else if workoutSelected == Some(TypeWorkout.Workout) then workout else altWorkout;
      var url := BaseModels.LinkOf(selectedWorkout);
      var isCurrentDayOfPlan := false;
      if day.Some? && day.value <= currentDay {
        isCurrentDayOfPlan := true;
      }
      request := PlayerRequest(url, day.GetOr(currentDay), isCurrentDayOfPlan, selectedWorkout);
    }
  }
}
