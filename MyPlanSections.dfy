/** The section list of the "my plan" screen as a function of the presenter's
    state: what `setupViewEntity`, `setupEmptyViewEntity` and the
    `getConfigured*Data` builders put on screen. */
module MyPlanSections {
  import opened Optional
  import opened Text
  import opened MyPlanEntity
  import BaseModels

  /** What the presenter takes from outside the core: the user name from the
      shared configuration, localized strings, the duration and date
      formatters, and today's date already formatted. */
  datatype Environment = Environment(
    userName: Option<string>,
    startDayText: string,
    dayText: string,
    dayOffSubTitle: string,
    dayOffDescription: string,
    emptyTitle: string,
    formatDuration: int -> string,
    formatDate: string -> Option<string>,
    today: string)

  /** The presenter fields the sections are built from. */
  datatype PlanState = PlanState(
    week: Option<seq<Day>>,
    selectDay: int,
    wellDoneWorkoutId: Option<string>,
    workout: Option<BaseModels.Workout>,
    altWorkout: Option<BaseModels.Workout>,
    progress: Option<ProgressArray>)

  const WorkoutGreetingText1 := "Here is your workout for today."
  const WorkoutGreetingText2 := "Find your best results with balanced workouts designed to motivate and help you achieve your goals."

  /** The greeting line, addressing "User" when the name is unknown. */
  function Greeting(env: Environment): string {
    "Hello, " + env.userName.GetOr("User") + "!"
  }

  /** The first week entry numbered `d`, if the week is loaded and has one. */
  function SelectedDay(week: Option<seq<Day>>, d: int): (r: Option<Day>)
    ensures r.Some? ==> r.value.day == Some(d) && week.Some? && r.value in week.value
    ensures r.None? <==> week.None? || forall i :: 0 <= i < |week.value| ==> week.value[i].day != Some(d)
  {
    if week.Some? then FirstDay(week.value, d) else None
  }

  /** The parsed status of a week entry; a missing status text parses as no status. */
  function StatusOf(day: Day): Option<DayProgressStatus> {
    ParseDayProgressStatus(day.status.GetOr(""))
  }

  /** The passed workout the progress records for the selected day. */
  function CompletedOf(s: PlanState): (r: Option<DayWorkout>)
    ensures r.Some? ==> s.progress.Some? && r.value.ProgressStatus() == Some(Passed)
  {
    if s.progress.Some? then CompletedWorkout(s.progress.value, s.selectDay) else None
  }

  /** The id of that passed workout, if any. */
  function CompletedId(s: PlanState): Option<string> {
    var c := CompletedOf(s);
    if c.Some? then c.value.id else None
  }

  // ---------------------------------------------------------------------
  // Day strip (getConfiguredDaysData)
  // ---------------------------------------------------------------------

  /** The strip item for the week entry at position `index`. */
  function DayItem(day: Day, index: int, selectDay: int): Row {
    DayRow(day.day.GetOr(index + 1), day.day == Some(selectDay), day.currentDay.GetOr(false), "",
           StatusOf(day).GetOr(NotPassed))
  }

  function DayStrip(week: Option<seq<Day>>, selectDay: int): seq<Row> {
    if week.None? then []
    else seq(|week.value|, i requires 0 <= i < |week.value| => DayItem(week.value[i], i, selectDay))
  }

  function DaysSection(week: Option<seq<Day>>, selectDay: int): Section {
    Section(DayStrip(week, selectDay), DayWeek)
  }

  /** One strip item per week entry, in order; its number is the day number or
      the 1-based position, it is selected exactly when it is the selected day,
      and an unknown status shows as not passed. */
  lemma DayStripItems(week: Option<seq<Day>>, selectDay: int)
    ensures week.None? ==> DayStrip(week, selectDay) == []
    ensures week.Some? ==> |DayStrip(week, selectDay)| == |week.value|
    ensures week.Some? ==> forall i :: 0 <= i < |week.value| ==>
      var item, day := DayStrip(week, selectDay)[i], week.value[i];
      && item.DayRow?
      && (day.day.Some? ==> item.number == day.day.value)
      && (day.day.None? ==> item.number == i + 1)
      && (item.isSelect <==> day.day == Some(selectDay))
      && (item.isToday <==> day.currentDay == Some(true))
      && item.date == ""
      && (StatusOf(day).Some? ==> item.status == StatusOf(day).value)
      && (StatusOf(day).None? ==> item.status == NotPassed)
  {
  }

  /** Day numbers are unique within the week. */
  predicate DistinctDayNumbers(week: seq<Day>) {
    forall i, j :: 0 <= i < j < |week| && week[i].day.Some? ==> week[i].day != week[j].day
  }

  /** When the selected day is in the week the strip highlights an item with
      its number; when day numbers are unique it highlights exactly that one. */
  lemma DayStripHighlightsSelectedDay(week: seq<Day>, selectDay: int)
    requires SelectedDay(Some(week), selectDay).Some?
    ensures exists k :: 0 <= k < |week| && DayStrip(Some(week), selectDay)[k].isSelect &&
                        DayStrip(Some(week), selectDay)[k].number == selectDay
    ensures DistinctDayNumbers(week) ==>
      forall i, j ::
        (0 <= i < |week| && 0 <= j < |week| &&
         DayStrip(Some(week), selectDay)[i].isSelect && DayStrip(Some(week), selectDay)[j].isSelect) ==> i == j
  {
    var strip := DayStrip(Some(week), selectDay);
    var k :| 0 <= k < |week| && week[k].day == Some(selectDay);
    assert strip[k] == DayItem(week[k], k, selectDay);
  }

  // ---------------------------------------------------------------------
  // Video pair (getConfiguredVideoData)
  // ---------------------------------------------------------------------

  /** One step of the equipment loop: no separator while the text is still empty. */
  function EquipmentStep(acc: string, item: string): string {
    acc + (if acc == "" then item else ", " + item)
  }

  /** The equipment text after the loop has consumed `items`. */
  function EquipmentText(items: seq<string>): string {
    if items == [] then "" else EquipmentStep(EquipmentText(items[..|items| - 1]), items[|items| - 1])
  }

  /** Reference: the items separated by `sep`. */
  function JoinWith(items: seq<string>, sep: string): string {
    if items == [] then ""
    else if |items| == 1 then items[0]
    else items[0] + sep + JoinWith(items[1..], sep)
  }

  /** The items after the leading empty ones. */
  function DropLeadingEmpty(items: seq<string>): (r: seq<string>)
    ensures r == [] || r[0] != ""
  {
    if items == [] then [] else if items[0] == "" then DropLeadingEmpty(items[1..]) else items
  }

  lemma {:induction false} JoinWithSnoc(items: seq<string>, x: string, sep: string)
    requires items != []
    ensures JoinWith(items + [x], sep) == JoinWith(items, sep) + sep + x
  {
    if |items| > 1 {
      assert (items + [x])[1..] == items[1..] + [x];
      JoinWithSnoc(items[1..], x, sep);
    }
  }

  lemma {:induction false} DropLeadingEmptySnoc(items: seq<string>, x: string)
    ensures (forall i :: 0 <= i < |items| ==> items[i] == "") ==> DropLeadingEmpty(items + [x]) == DropLeadingEmpty([x])
    ensures (exists i :: 0 <= i < |items| && items[i] != "") ==>
      DropLeadingEmpty(items + [x]) == DropLeadingEmpty(items) + [x] && DropLeadingEmpty(items) != []
  {
    if items == [] {
      assert items + [x] == [x];
    } else {
      assert (items + [x])[0] == items[0];
      assert (items + [x])[1..] == items[1..] + [x];
      DropLeadingEmptySnoc(items[1..], x);
      if items[0] == "" {
        assert forall i :: 1 <= i < |items| ==> items[i] == items[1..][i - 1];
      }
    }
  }

  lemma {:induction false} EquipmentTextEmptyIff(items: seq<string>)
    ensures EquipmentText(items) == "" <==> forall i :: 0 <= i < |items| ==> items[i] == ""
  {
    if items != [] {
      var init := items[..|items| - 1];
      EquipmentTextEmptyIff(init);
      assert forall i :: 0 <= i < |init| ==> init[i] == items[i];
    }
  }

  /** The equipment loop joins the items with ", ", except that empty items at
      the front vanish without leaving a separator. */
  lemma {:induction false} EquipmentTextIsJoin(items: seq<string>)
    ensures EquipmentText(items) == JoinWith(DropLeadingEmpty(items), ", ")
  {
    if items != [] {
      var init, x := items[..|items| - 1], items[|items| - 1];
      assert items == init + [x];
      EquipmentTextIsJoin(init);
      EquipmentTextEmptyIff(init);
      DropLeadingEmptySnoc(init, x);
      if EquipmentText(init) != "" {
        JoinWithSnoc(DropLeadingEmpty(init), x, ", ");
      }
    }
  }

  /** With no empty item the equipment text is the plain ", "-join. */
  lemma EquipmentTextWithoutEmptyItems(items: seq<string>)
    requires forall i :: 0 <= i < |items| ==> items[i] != ""
    ensures EquipmentText(items) == JoinWith(items, ", ")
  {
    EquipmentTextIsJoin(items);
  }

  /** One video row: every missing field of a missing workout becomes "". */
  function VideoItem(w: Option<BaseModels.Workout>, env: Environment): Row {
    var duration := BaseModels.DurationOf(w);
    VideoRow(BaseModels.TitleOf(w),
             if duration.Some? then env.formatDuration(duration.value) else "",
             BaseModels.ThumbnailOf(w),
             BaseModels.LinkOf(w),
             EquipmentText(BaseModels.EquipmentsOf(w)))
  }

  function VideoSection(s: PlanState, env: Environment): Section {
    Section([VideoItem(s.workout, env), VideoItem(s.altWorkout, env)], Video)
  }

  /** The video section always holds two rows, primary then alternative, and a
      missing workout gives a row of empty fields. */
  lemma VideoSectionRows(s: PlanState, env: Environment)
    ensures |VideoSection(s, env).items| == 2
    ensures VideoSection(s, env).items[0] == VideoItem(s.workout, env)
    ensures VideoSection(s, env).items[1] == VideoItem(s.altWorkout, env)
    ensures s.workout.None? ==> VideoSection(s, env).items[0] == VideoRow("", "", "", "", "")
    ensures s.altWorkout.None? ==> VideoSection(s, env).items[1] == VideoRow("", "", "", "", "")
  {
  }

  // ---------------------------------------------------------------------
  // Single-row sections
  // ---------------------------------------------------------------------

  function HelloSection(title: string, text1: string, text2: string): Section {
    Section([HelloRow(title, text1, text2)], Hello)
  }

  /** The start button title: the localised prefix, a space and the day number. */
  function StartTitle(env: Environment, selectDay: int): string {
    env.startDayText + " " + IntToString(selectDay)
  }

  /** Distinct days get distinct start-button titles. */
  lemma StartTitleNamesTheDay(env: Environment, a: int, b: int)
    requires StartTitle(env, a) == StartTitle(env, b)
    ensures a == b
  {
    var n := |env.startDayText| + 1;
    assert IntToString(a) == StartTitle(env, a)[n..];
    assert IntToString(b) == StartTitle(env, b)[n..];
    IntToStringInjective(a, b);
  }

  function ButtonSection(title: string): Section {
    Section([ButtonRow(title)], BottomButton)
  }

  function DayNumberSection(env: Environment, selectDay: int): Section {
    Section([DayNumberRow(env.dayText + " " + IntToString(selectDay))], DayNumber)
  }

  function InfoSection(s: PlanState, env: Environment): Section {
    var c := CompletedOf(s);
    var duration :=
      if SelectedDay(s.week, s.selectDay).Some? && c.Some? && c.value.viewedTime.Some?
      then env.formatDuration(c.value.viewedTime.value) else "";
    var calories := if s.workout.Some? then s.workout.value.calories.GetOr(0) else 0;
    Section([InfoRow(duration, IntToString(1), IntToString(calories))], Info)
  }

  function DifficultySection(s: PlanState): Section {
    var c := CompletedOf(s);
    Section([DifficultyRow(if c.Some? then c.value.rate else None)], Difficulty)
  }

  /** The workout the item row shows: the alternative when its id matches the completed one's (both missing counts as a match), otherwise the primary. */
  function ItemWorkout(s: PlanState): Option<BaseModels.Workout> {
    if BaseModels.IdOf(s.altWorkout) == CompletedId(s) then s.altWorkout else s.workout
  }

  function ItemSection(s: PlanState): Section {
    var c := CompletedOf(s);
    var w := ItemWorkout(s);
    Section([ItemRow(BaseModels.TitleOf(w), if c.Some? then c.value.percent.GetOr(0) else 0,
                     BaseModels.ThumbnailOf(w))], Item)
  }

  /** With no passed workout recorded for the selected day in any progress
      entry, the item row shows 0 progress, the difficulty row no rating and
      the info row no duration. */
  lemma NoRecordRowsDefault(s: PlanState, env: Environment)
    requires s.progress.None? ||
             forall i :: 0 <= i < |s.progress.value| ==> CompletedAt(s.progress.value[i], s.selectDay).None?
    ensures ItemSection(s).items[0].progress == 0
    ensures DifficultySection(s).items[0].difficulty.None?
    ensures InfoSection(s, env).items[0].duration == ""
  {
  }

  /** Let entry `i` be the first progress entry that records a passed workout
      for the selected day, and `day` its first day record for that day. The
      difficulty, progress and duration shown are that record's passed
      primary's, or, when the primary did not pass, its passed alternative's. */
  lemma PassedRecordRows(s: PlanState, env: Environment, i: nat, day: Day)
    requires s.progress.Some? && i < |s.progress.value|
    requires forall j :: 0 <= j < i ==> CompletedAt(s.progress.value[j], s.selectDay).None?
    requires FirstDay(DaysOf(s.progress.value[i]), s.selectDay) == Some(day)
    ensures IsPassed(day.workout) ==>
      var p := day.workout.value;
      && DifficultySection(s).items[0].difficulty == p.rate
      && ItemSection(s).items[0].progress == p.percent.GetOr(0)
      && (SelectedDay(s.week, s.selectDay).Some? && p.viewedTime.Some? ==>
            InfoSection(s, env).items[0].duration == env.formatDuration(p.viewedTime.value))
      && (p.viewedTime.None? ==> InfoSection(s, env).items[0].duration == "")
    ensures !IsPassed(day.workout) && IsPassed(day.altWorkout) ==>
      var p := day.altWorkout.value;
      && DifficultySection(s).items[0].difficulty == p.rate
      && ItemSection(s).items[0].progress == p.percent.GetOr(0)
      && (SelectedDay(s.week, s.selectDay).Some? && p.viewedTime.Some? ==>
            InfoSection(s, env).items[0].duration == env.formatDuration(p.viewedTime.value))
      && (p.viewedTime.None? ==> InfoSection(s, env).items[0].duration == "")
  {
    CompletedWorkoutPriority(s.progress.value, s.selectDay, i, day);
  }

  /** The info row always counts one workout, and its calories are the
      primary workout's (0 when unknown) whatever the alternative workout and
      the progress record are, even when the alternative was the one done. */
  lemma InfoRowCountsAndCalories(s: PlanState, env: Environment, alt: Option<BaseModels.Workout>,
                                 progress: Option<ProgressArray>)
    ensures InfoSection(s, env).items[0].countWorkouts == "1"
    ensures s.workout.Some? ==> InfoSection(s, env).items[0].calories == IntToString(s.workout.value.calories.GetOr(0))
    ensures s.workout.None? ==> InfoSection(s, env).items[0].calories == "0"
    ensures InfoSection(s.(altWorkout := alt, progress := progress), env).items[0].calories ==
            InfoSection(s, env).items[0].calories
  {
    assert IntToString(1) == "1";
    assert IntToString(0) == "0";
  }

  /** If the passed workout recorded in progress is the fetched alternative, the
      item row shows the alternative; if it is the primary (and the alternative
      has another id), it shows the primary. */
  lemma ItemShowsCompletedWorkout(s: PlanState, x: string)
    requires CompletedId(s) == Some(x)
    ensures BaseModels.IdOf(s.altWorkout) == Some(x) ==> ItemWorkout(s) == s.altWorkout
    ensures BaseModels.IdOf(s.altWorkout) != Some(x) ==> ItemWorkout(s) == s.workout
  {
  }

  /** When nothing passed is recorded and the alternative workout is missing,
      the item row shows the missing alternative (empty title), not the primary. */
  lemma ItemPicksMissingAlternative(s: PlanState)
    requires CompletedOf(s).None? && s.altWorkout.None?
    ensures ItemWorkout(s).None?
    ensures ItemSection(s).items[0].title == ""
  {
  }

  // ---------------------------------------------------------------------
  // The screen (setupViewEntity / setupEmptyViewEntity)
  // ---------------------------------------------------------------------

  /** A celebration is shown when the just-completed id is one of the fetched workouts. */
  predicate WellDoneShown(s: PlanState) {
    s.wellDoneWorkoutId.Some? &&
    (BaseModels.IdOf(s.workout) == s.wellDoneWorkoutId || BaseModels.IdOf(s.altWorkout) == s.wellDoneWorkoutId)
  }

  function StatusSections(s: PlanState, status: DayProgressStatus, env: Environment): seq<Section> {
    var days := DaysSection(s.week, s.selectDay);
    match status
    case NotPassed | Skipped =>
      [HelloSection(Greeting(env), WorkoutGreetingText1, WorkoutGreetingText2), days, VideoSection(s, env),
       ButtonSection(StartTitle(env, s.selectDay))]
    case Passed =>
      if WellDoneShown(s) then
        [DayNumberSection(env, s.selectDay), days, Section([WellDoneRow], WellDone)]
      else
        [Section([CompletedRow], Completed), days, InfoSection(s, env), DifficultySection(s), ItemSection(s)]
    case DayOff =>
      [HelloSection(Greeting(env), env.dayOffSubTitle, env.dayOffDescription), days, Section([ImageRow], Image)]
  }

  /** The header date: the formatted completion date, or today's date when it is missing or cannot be formatted. */
  function DisplayDate(day: Day, env: Environment): string {
    if day.completedDate.Some? then env.formatDate(day.completedDate.value).GetOr(env.today) else env.today
  }

  /** What `setupViewEntity` displays; `None` when it returns without displaying. */
  function Render(s: PlanState, env: Environment): Option<Display> {
    match SelectedDay(s.week, s.selectDay)
    case None => None
    case Some(day) =>
      match StatusOf(day)
      case None => None
      case Some(status) =>
        Some(Display(Some(TopViewEntity(DisplayDate(day, env), status != Passed)), StatusSections(s, status, env)))
  }

  function Kinds(sections: seq<Section>): (r: seq<SectionsType>)
    ensures |r| == |sections|
    ensures forall i :: 0 <= i < |sections| ==> r[i] == sections[i].kind
  {
    seq(|sections|, i requires 0 <= i < |sections| => sections[i].kind)
  }

  /** Nothing is displayed exactly when the week has no entry for the selected
      day or that entry's status is not a known raw value. */
  lemma RenderNothingIff(s: PlanState, env: Environment)
    ensures Render(s, env).None? <==>
      || s.week.None?
      || (forall i :: 0 <= i < |s.week.value| ==> s.week.value[i].day != Some(s.selectDay))
      || StatusOf(SelectedDay(s.week, s.selectDay).value).None?
  {
  }

  /** The section kinds for each status, given the selected day's status. */
  lemma StatusSectionKinds(s: PlanState, status: DayProgressStatus, env: Environment)
    ensures var kinds := Kinds(StatusSections(s, status, env));
      && (status == NotPassed || status == Skipped ==> kinds == [Hello, DayWeek, Video, BottomButton])
      && (status == DayOff ==> kinds == [Hello, DayWeek, Image])
      && (status == Passed && WellDoneShown(s) ==> kinds == [DayNumber, DayWeek, WellDone])
      && (status == Passed && !WellDoneShown(s) ==> kinds == [Completed, DayWeek, Info, Difficulty, Item])
  {
  }

  /** Where the selected day's status is known, what is displayed is its top
      entity and that status's sections. */
  lemma RenderDisplays(s: PlanState, env: Environment)
    requires Render(s, env).Some?
    ensures var day := SelectedDay(s.week, s.selectDay).value;
            var status := StatusOf(day).value;
      Render(s, env).value == Display(Some(TopViewEntity(DisplayDate(day, env), status != Passed)), StatusSections(s, status, env))
  {
  }

  /** The section kinds for each status of the selected day. */
  lemma RenderSectionKinds(s: PlanState, env: Environment)
    requires Render(s, env).Some?
    ensures var status := StatusOf(SelectedDay(s.week, s.selectDay).value).value;
            var kinds := Kinds(Render(s, env).value.sections);
      && (status == NotPassed || status == Skipped ==> kinds == [Hello, DayWeek, Video, BottomButton])
      && (status == DayOff ==> kinds == [Hello, DayWeek, Image])
      && (status == Passed && WellDoneShown(s) ==> kinds == [DayNumber, DayWeek, WellDone])
      && (status == Passed && !WellDoneShown(s) ==> kinds == [Completed, DayWeek, Info, Difficulty, Item])
  {
    RenderDisplays(s, env);
    StatusSectionKinds(s, StatusOf(SelectedDay(s.week, s.selectDay).value).value, env);
  }

  /** Each status's sections: the day strip at index 1, and one row in every
      section other than the strip and the video pair. */
  lemma StatusSectionsLayout(s: PlanState, status: DayProgressStatus, env: Environment)
    ensures var sections := StatusSections(s, status, env);
      && |sections| >= 3
      && sections[1] == DaysSection(s.week, s.selectDay)
      && (forall i :: 0 <= i < |sections| && sections[i].kind != DayWeek && sections[i].kind != Video ==>
            |sections[i].items| == 1)
  {
  }

  /** Whatever is displayed: the day strip sits at index 1, the top entity says
      "today" exactly when the day is not passed, and every section other than
      the strip and the video pair holds one row. */
  lemma RenderLayout(s: PlanState, env: Environment)
    requires Render(s, env).Some?
    ensures var d := Render(s, env).value;
            var status := StatusOf(SelectedDay(s.week, s.selectDay).value).value;
      && |d.sections| >= 3
      && d.sections[1] == DaysSection(s.week, s.selectDay)
      && d.top.Some? && (d.top.value.isToday <==> status != Passed)
      && (forall i :: 0 <= i < |d.sections| && d.sections[i].kind != DayWeek && d.sections[i].kind != Video ==>
            |d.sections[i].items| == 1)
  {
    RenderDisplays(s, env);
    StatusSectionsLayout(s, StatusOf(SelectedDay(s.week, s.selectDay).value).value, env);
  }

  /** A passed day shows the celebration exactly when the just-completed id is
      set and equals the primary's or the alternative's id. */
  lemma CelebrationIff(s: PlanState, env: Environment)
    ensures WellDone in Kinds(StatusSections(s, Passed, env)) <==>
      s.wellDoneWorkoutId.Some? &&
      (BaseModels.IdOf(s.workout) == s.wellDoneWorkoutId || BaseModels.IdOf(s.altWorkout) == s.wellDoneWorkoutId)
  {
    var sections := StatusSections(s, Passed, env);
    if WellDoneShown(s) {
      assert Kinds(sections)[2] == WellDone;
    } else {
      assert Kinds(sections) == [Completed, DayWeek, Info, Difficulty, Item];
    }
  }

  /** The start button of a workout day is labelled with the selected day. */
  lemma StartButtonNamesSelectedDay(s: PlanState, env: Environment)
    ensures StatusSections(s, NotPassed, env)[3] == ButtonSection(env.startDayText + " " + IntToString(s.selectDay))
    ensures StatusSections(s, Skipped, env)[3] == ButtonSection(env.startDayText + " " + IntToString(s.selectDay))
  {
  }

  /** Day 3 not passed, with primary "w1" and alternative "w2" fetched: greeting,
      strip, both videos in order, and a start button for day 3. */
  lemma WorkoutDayScenario(env: Environment, w1: BaseModels.Workout, w2: BaseModels.Workout)
    requires w1.id == Some("w1") && w2.id == Some("w2")
    ensures
      var week := [Day(Some(3), Some("NO_PASSED"), Some(true),
                       Some(DayWorkout(Some("w1"), None, None, None, None)),
                       Some(DayWorkout(Some("w2"), None, None, None, None)), None)];
      var d := Render(PlanState(Some(week), 3, None, Some(w1), Some(w2), None), env);
      && d.Some?
      && Kinds(d.value.sections) == [Hello, DayWeek, Video, BottomButton]
      && d.value.sections[2].items == [VideoItem(Some(w1), env), VideoItem(Some(w2), env)]
      && d.value.sections[3].items == [ButtonRow(env.startDayText + " 3")]
      && d.value.top.value.isToday
  {
    var day := Day(Some(3), Some("NO_PASSED"), Some(true),
                   Some(DayWorkout(Some("w1"), None, None, None, None)),
                   Some(DayWorkout(Some("w2"), None, None, None, None)), None);
    assert FirstDay([day], 3) == Some(day);
    assert StatusOf(day) == Some(NotPassed);
    assert IntToString(3) == "3";
    assert StartTitle(env, 3) == env.startDayText + " 3";
  }

  /** Day 3 passed, the progress record showing the alternative "w2" passed
      with rating 4: summary, strip, info, difficulty 4, and the alternative
      as the item. */
  lemma PassedDayScenario(env: Environment, w1: BaseModels.Workout, w2: BaseModels.Workout)
    requires w1.id == Some("w1") && w2.id == Some("w2")
    ensures
      var week := [Day(Some(3), Some("PASSED"), Some(true),
                       Some(DayWorkout(Some("w1"), None, None, None, None)),
                       Some(DayWorkout(Some("w2"), None, None, None, None)), None)];
      var record := Day(Some(3), None, None,
                        Some(DayWorkout(Some("w1"), Some("NO_PASSED"), None, None, None)),
                        Some(DayWorkout(Some("w2"), Some("PASSED"), Some(100), Some(4), None)), None);
      var d := Render(PlanState(Some(week), 3, None, Some(w1), Some(w2), Some([Progress("p", Some([record]))])), env);
      && d.Some?
      && Kinds(d.value.sections) == [Completed, DayWeek, Info, Difficulty, Item]
      && d.value.sections[3].items == [DifficultyRow(Some(4))]
      && d.value.sections[4].items == [ItemRow(BaseModels.TitleOf(Some(w2)), 100, BaseModels.ThumbnailOf(Some(w2)))]
      && !d.value.top.value.isToday
  {
    var record := Day(Some(3), None, None,
                      Some(DayWorkout(Some("w1"), Some("NO_PASSED"), None, None, None)),
                      Some(DayWorkout(Some("w2"), Some("PASSED"), Some(100), Some(4), None)), None);
    assert FirstDay([record], 3) == Some(record);
    assert record.workout.value.ProgressStatus() == Some(NotPassed);
    assert record.altWorkout.value.ProgressStatus() == Some(Passed);
  }

  /** The screen shown when the plan cannot be loaded. */
  function EmptyScreen(env: Environment): (d: Display)
    ensures d.top.None?
    ensures Kinds(d.sections) == [EmptyTop, AnswerQuestions]
    ensures d.sections[0].items == [EmptyTopRow(env.emptyTitle, "")]
    ensures d.sections[1].items == [ButtonRow(Greeting(env))]
  {
    Display(None, [Section([EmptyTopRow(env.emptyTitle, "")], EmptyTop),
                   Section([ButtonRow(Greeting(env))], AnswerQuestions)])
  }
}
