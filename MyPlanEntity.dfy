/** The data of the "my plan" screen: wire enums, the plan and progress
    responses with their search helpers, and the view entities the presenter
    hands to the view. */
module MyPlanEntity {
  import opened Optional
  import opened Text

  // ---------------------------------------------------------------------
  // Wire enums
  // ---------------------------------------------------------------------

  /** Status of one plan day as the backend spells it. */
  datatype DayProgressStatus = Passed | NotPassed | Skipped | DayOff {
    function RawValue(): string {
      match this
      case Passed => "PASSED"
      case NotPassed => "NO_PASSED"
      case Skipped => "SKIPPED"
      case DayOff => "DAY_OF"
    }
  }

  /** Reads a day status from its wire text; any other text is no status. */
  function ParseDayProgressStatus(s: string): (r: Option<DayProgressStatus>)
    ensures r.Some? ==> r.value.RawValue() == s
    ensures r.None? ==> forall st: DayProgressStatus :: st.RawValue() != s
  {
    if s == "PASSED" then Some(Passed)
    else if s == "NO_PASSED" then Some(NotPassed)
    else if s == "SKIPPED" then Some(Skipped)
    else if s == "DAY_OF" then Some(DayOff)
    else None
  }

  /** Printing a status and parsing it back gives the status. */
  lemma DayProgressStatusRoundTrip(st: DayProgressStatus)
    ensures ParseDayProgressStatus(st.RawValue()) == Some(st)
  {
  }

  /** Difficulty change the backend proposes after a rating. */
  datatype RateAction = NoAction | Increase | Decrease | AutoIncrease | AutoDecrease {
    function RawValue(): string {
      match this
      case NoAction => "NONE"
      case Increase => "SHOW_INCREASE"
      case Decrease => "SHOW_DECREASE"
      case AutoIncrease => "INCREASE"
      case AutoDecrease => "DECREASE"
    }
  }

  /** Reads a rating action from its wire number; any other number is no action. */
  function ParseRateAction(s: string): (r: Option<RateAction>)
    ensures r.Some? ==> r.value.RawValue() == s
    ensures r.None? ==> forall a: RateAction :: a.RawValue() != s
  {
    if s == "NONE" then Some(NoAction)
    else if s == "SHOW_INCREASE" then Some(Increase)
    else if s == "SHOW_DECREASE" then Some(Decrease)
    else if s == "INCREASE" then Some(AutoIncrease)
    else if s == "DECREASE" then Some(AutoDecrease)
    else None
  }

  /** The five raw values are pairwise distinct, and each parses back to its case. */
  lemma RateActionRoundTrip(a: RateAction, b: RateAction)
    ensures ParseRateAction(a.RawValue()) == Some(a)
    ensures a.RawValue() == b.RawValue() ==> a == b
  {
  }

  /** Which of the day's two workouts the user picked (`Int` raw values 0 and 1). */
  datatype TypeWorkout = Workout | Alternative {
    function RawValue(): int {
      match this
      case Workout => 0
      case Alternative => 1
    }
  }

  /** Reads a workout kind from its wire number; any other number is no kind. */
  function ParseTypeWorkout(i: int): (r: Option<TypeWorkout>)
    ensures r.Some? <==> 0 <= i <= 1
    ensures r.Some? ==> r.value.RawValue() == i
  {
    if i == 0 then Some(TypeWorkout.Workout) else if i == 1 then Some(Alternative) else None
  }

  // ---------------------------------------------------------------------
  // Responses
  // ---------------------------------------------------------------------

  /** A workout slot of a plan or progress day. */
  datatype DayWorkout = DayWorkout(
    id: Option<string>,
    status: Option<string>,
    percent: Option<int>,
    rate: Option<int>,
    viewedTime: Option<int>)
  {
    /** The parsed status of this record; a missing status text parses as no status. */
    function ProgressStatus(): (r: Option<DayProgressStatus>)
      ensures status.None? ==> r.None?
      ensures r.Some? ==> status == Some(r.value.RawValue())
      ensures forall st: DayProgressStatus :: status == Some(st.RawValue()) ==> r == Some(st)
    {
      ParseDayProgressStatus(status.GetOr(""))
    }
  }

  datatype Day = Day(
    day: Option<int>,
    status: Option<string>,
    currentDay: Option<bool>,
    workout: Option<DayWorkout>,
    altWorkout: Option<DayWorkout>,
    completedDate: Option<string>)

  datatype MyPlanResponse = MyPlanResponse(
    currentDay: Option<int>,
    currentWeek: Option<int>,
    weekPlan: Option<seq<Day>>,
    planId: Option<string>,
    message: Option<string>,
    error: Option<string>)

  datatype NextPart = NextPart(available: bool, index: Option<int>)

  datatype SaveProgress = SaveProgress(
    message: Option<string>,
    error: Option<string>,
    status: Option<string>,
    passedWorkout: Option<int>,
    nextPart: NextPart,
    isPopupShow: bool)
  {
    /** Whether the server reported the day as passed, ignoring letter case. */
    predicate Passed() {
      status.Some? && Lowercased(status.value) == "passed"
    }
  }

  /** The status is "passed" in any mix of upper and lower case, and nothing else. */
  lemma SaveProgressPassedIff(r: SaveProgress)
    ensures r.Passed() <==>
      r.status.Some? && |r.status.value| == 6 &&
      forall i :: 0 <= i < 6 ==> r.status.value[i] == "passed"[i] || r.status.value[i] == "PASSED"[i]
  {
    if r.status.Some? && |r.status.value| == 6 {
      var s := r.status.value;
      if forall i :: 0 <= i < 6 ==> s[i] == "passed"[i] || s[i] == "PASSED"[i] {
        assert Lowercased(s) == "passed";
      }
      if Lowercased(s) == "passed" {
        forall i | 0 <= i < 6
          ensures s[i] == "passed"[i] || s[i] == "PASSED"[i]
        {
          assert LowerChar(s[i]) == "passed"[i];
        }
      }
    }
  }

  datatype Progress = Progress(id: string, days: Option<seq<Day>>)

  type ProgressArray = seq<Progress>

  /** The day records of a progress entry, empty when it has none. */
  function DaysOf(p: Progress): seq<Day> {
    p.days.GetOr([])
  }

  /** The request body of a date change. */
  datatype ChangeDateRequest = ChangeDateRequest(day: Option<int>)

  // ---------------------------------------------------------------------
  // Searches
  // ---------------------------------------------------------------------

  /** The first record numbered `d`, if any. */
  function FirstDay(days: seq<Day>, d: int): (r: Option<Day>)
    ensures r.None? <==> forall i :: 0 <= i < |days| ==> days[i].day != Some(d)
    ensures r.Some? ==> exists k :: 0 <= k < |days| && days[k] == r.value && days[k].day == Some(d) &&
                                    forall j :: 0 <= j < k ==> days[j].day != Some(d)
  {
    if days == [] then None
    else if days[0].day == Some(d) then Some(days[0])
    else
      var r := FirstDay(days[1..], d);
      assert forall i :: 1 <= i < |days| ==> days[i] == days[1..][i - 1];
      r
  }

  /** Whether a workout is present and carries the id `x`. */
  predicate HasId(w: Option<DayWorkout>, x: string) {
    w.Some? && w.value.id == Some(x)
  }

  predicate DayHasWorkout(day: Day, x: string) {
    HasId(day.workout, x) || HasId(day.altWorkout, x)
  }

  /** The inner loop of `workout(with:)`: days in order, primary before alternative. */
  function WorkoutInDays(days: seq<Day>, x: string): (r: Option<DayWorkout>)
    ensures r.Some? ==> r.value.id == Some(x)
    ensures r.None? <==> forall j :: 0 <= j < |days| ==> !DayHasWorkout(days[j], x)
  {
    if days == [] then None
    else if HasId(days[0].workout, x) then days[0].workout
    else if HasId(days[0].altWorkout, x) then days[0].altWorkout
    else
      var r := WorkoutInDays(days[1..], x);
      assert forall j :: 1 <= j < |days| ==> days[j] == days[1..][j - 1];
      r
  }

  /** The outer loop of `workout(with:)`: progress entries in order. */
  function WorkoutInProgresses(ps: ProgressArray, x: string): (r: Option<DayWorkout>)
    ensures r.Some? ==> r.value.id == Some(x)
    ensures r.None? <==> forall i, j :: 0 <= i < |ps| && 0 <= j < |DaysOf(ps[i])| ==> !DayHasWorkout(DaysOf(ps[i])[j], x)
  {
    if ps == [] then None
    else match WorkoutInDays(DaysOf(ps[0]), x)
      case Some(w) => Some(w)
      case None =>
        var r := WorkoutInProgresses(ps[1..], x);
        assert forall i :: 1 <= i < |ps| ==> ps[i] == ps[1..][i - 1];
        r
  }

  /** `ProgressArray.workout(with:)`: no id finds nothing; otherwise the first
      workout carrying that id. */
  function WorkoutWith(ps: ProgressArray, id: Option<string>): (r: Option<DayWorkout>)
    ensures id.None? ==> r.None?
    ensures r.Some? ==> r.value.id == id
    ensures id.Some? ==> (r.None? <==> forall i, j :: 0 <= i < |ps| && 0 <= j < |DaysOf(ps[i])| ==> !DayHasWorkout(DaysOf(ps[i])[j], id.value))
  {
    if id.None? then None else WorkoutInProgresses(ps, id.value)
  }

  /** Reference order of the search: every slot of every day of every progress
      entry, primary before alternative. */
  function DaySlots(days: seq<Day>): seq<Option<DayWorkout>> {
    if days == [] then [] else [days[0].workout, days[0].altWorkout] + DaySlots(days[1..])
  }

  function Slots(ps: ProgressArray): seq<Option<DayWorkout>> {
    if ps == [] then [] else DaySlots(DaysOf(ps[0])) + Slots(ps[1..])
  }

  /** The first slot holding a workout with id `x`. */
  function FirstWithId(cs: seq<Option<DayWorkout>>, x: string): (r: Option<DayWorkout>)
    ensures r.None? <==> forall k :: 0 <= k < |cs| ==> !HasId(cs[k], x)
    ensures r.Some? ==> exists k :: 0 <= k < |cs| && cs[k] == r && HasId(cs[k], x) &&
                                    forall j :: 0 <= j < k ==> !HasId(cs[j], x)
  {
    if cs == [] then None
    else if HasId(cs[0], x) then cs[0]
    else
      var r := FirstWithId(cs[1..], x);
      assert forall k :: 1 <= k < |cs| ==> cs[k] == cs[1..][k - 1];
      r
  }

  lemma {:induction false} FirstWithIdAppend(a: seq<Option<DayWorkout>>, b: seq<Option<DayWorkout>>, x: string)
    ensures FirstWithId(a + b, x) == if FirstWithId(a, x).Some? then FirstWithId(a, x) else FirstWithId(b, x)
  {
    if a != [] {
      assert (a + b)[0] == a[0];
      assert (a + b)[1..] == a[1..] + b;
      FirstWithIdAppend(a[1..], b, x);
    } else {
      assert a + b == b;
    }
  }

  lemma {:induction false} WorkoutInDaysScansSlots(days: seq<Day>, x: string)
    ensures WorkoutInDays(days, x) == FirstWithId(DaySlots(days), x)
  {
    if days != [] {
      var w, a := days[0].workout, days[0].altWorkout;
      WorkoutInDaysScansSlots(days[1..], x);
      FirstWithIdAppend([w, a], DaySlots(days[1..]), x);
      assert [w, a][1..] == [a];
    }
  }

  /** `workout(with: x)` scans progresses, then days, in order, primary before
      alternative: it returns the first slot in that order carrying `x`. */
  lemma {:induction false} WorkoutWithScansInOrder(ps: ProgressArray, x: string)
    ensures WorkoutWith(ps, Some(x)) == FirstWithId(Slots(ps), x)
  {
    if ps != [] {
      WorkoutInDaysScansSlots(DaysOf(ps[0]), x);
      WorkoutWithScansInOrder(ps[1..], x);
      FirstWithIdAppend(DaySlots(DaysOf(ps[0])), Slots(ps[1..]), x);
    }
  }

  /** Whether a workout record is present and marked passed. */
  predicate IsPassed(w: Option<DayWorkout>) {
    w.Some? && w.value.ProgressStatus() == Some(Passed)
  }

  /** What `completedWorkout(for:)` takes from one day entry: primary if passed,
      else alternative if passed, else nothing. */
  function CompletedInDay(day: Day): Option<DayWorkout> {
    if IsPassed(day.workout) then day.workout
    else if IsPassed(day.altWorkout) then day.altWorkout
    else None
  }

  /** One progress entry: only its first day entry numbered `d` is looked at. */
  function CompletedAt(p: Progress, d: int): Option<DayWorkout> {
    match FirstDay(DaysOf(p), d)
    case None => None
    case Some(day) => CompletedInDay(day)
  }

  /** The passed workout recorded for day `d` by the first entry that has one. */
  function CompletedWorkout(ps: ProgressArray, d: int): (r: Option<DayWorkout>)
    ensures r.Some? ==> r.value.ProgressStatus() == Some(Passed)
    ensures r.None? <==> forall i :: 0 <= i < |ps| ==> CompletedAt(ps[i], d).None?
    ensures r.Some? ==> exists i :: 0 <= i < |ps| && r == CompletedAt(ps[i], d) &&
                                    forall j :: 0 <= j < i ==> CompletedAt(ps[j], d).None?
  {
    if ps == [] then None
    else match CompletedAt(ps[0], d)
      case Some(w) => Some(w)
      case None =>
        var r := CompletedWorkout(ps[1..], d);
        assert forall i :: 1 <= i < |ps| ==> ps[i] == ps[1..][i - 1];
        r
  }

  /** If the first progress entry with a passed workout for `d` has a passed
      primary on its first day entry `d`, that primary is the answer; otherwise
      its passed alternative is. */
  lemma {:induction false} CompletedWorkoutPriority(ps: ProgressArray, d: int, i: nat, day: Day)
    requires i < |ps|
    requires forall j :: 0 <= j < i ==> CompletedAt(ps[j], d).None?
    requires FirstDay(DaysOf(ps[i]), d) == Some(day)
    ensures IsPassed(day.workout) ==> CompletedWorkout(ps, d) == day.workout
    ensures !IsPassed(day.workout) && IsPassed(day.altWorkout) ==> CompletedWorkout(ps, d) == day.altWorkout
    ensures !IsPassed(day.workout) && !IsPassed(day.altWorkout) ==> CompletedWorkout(ps, d) == CompletedWorkout(ps[i + 1..], d)
  {
    if i > 0 {
      assert CompletedAt(ps[0], d).None?;
      assert forall j :: 0 <= j < i - 1 ==> ps[1..][j] == ps[j + 1];
      assert ps[1..][i - 1] == ps[i];
      CompletedWorkoutPriority(ps[1..], d, i - 1, day);
      assert ps[1..][i..] == ps[i + 1..];
    }
  }

  /** The record at position `k` is the one found when it is the first numbered `d`. */
  lemma FirstDayAt(days: seq<Day>, d: int, k: nat)
    requires k < |days| && days[k].day == Some(d)
    requires forall j :: 0 <= j < k ==> days[j].day != Some(d)
    ensures FirstDay(days, d) == Some(days[k])
  {
  }

  /** Only the first day record numbered `d` of a progress entry matters:
      replacing every record after it by anything at all leaves what the
      entry yields for `d` unchanged. */
  lemma CompletedAtIgnoresLaterRecords(id: string, days: seq<Day>, d: int, k: nat, rest: seq<Day>)
    requires k < |days| && days[k].day == Some(d)
    requires forall j :: 0 <= j < k ==> days[j].day != Some(d)
    ensures CompletedAt(Progress(id, Some(days[..k + 1] + rest)), d) == CompletedAt(Progress(id, Some(days)), d)
    ensures CompletedAt(Progress(id, Some(days)), d) == CompletedInDay(days[k])
  {
    var changed := days[..k + 1] + rest;
    assert forall j :: 0 <= j <= k ==> changed[j] == days[j];
    FirstDayAt(days, d, k);
    FirstDayAt(changed, d, k);
  }

  /** An example: a second record for the same day in the same progress entry
      is not looked at, even when it is passed. */
  lemma CompletedWorkoutIgnoresLaterEntries()
    ensures
      var open := DayWorkout(Some("w1"), Some("NO_PASSED"), None, None, None);
      var done := DayWorkout(Some("w2"), Some("PASSED"), Some(100), Some(4), None);
      var ps := [Progress("p", Some([Day(Some(3), None, None, Some(open), None, None),
                                     Day(Some(3), None, None, Some(done), None, None)]))];
      CompletedWorkout(ps, 3).None?
  {
    var open := DayWorkout(Some("w1"), Some("NO_PASSED"), None, None, None);
    var done := DayWorkout(Some("w2"), Some("PASSED"), Some(100), Some(4), None);
    var days := [Day(Some(3), None, None, Some(open), None, None), Day(Some(3), None, None, Some(done), None, None)];
    assert FirstDay(days, 3) == Some(days[0]);
    assert open.ProgressStatus() == Some(NotPassed);
  }

  // ---------------------------------------------------------------------
  // View entities
  // ---------------------------------------------------------------------

  datatype SectionsType =
    | Hello | DayWeek | Video | BottomButton | Image | Difficulty | Item
    | Completed | Info | EmptyTop | AnswerQuestions | WellDone | DayNumber

  /** One row of a section; the variants are the entity structs of the view model. */
  datatype Row =
    | HelloRow(title: string, text1: string, text2: string)
    | DayRow(number: int, isSelect: bool, isToday: bool, date: string, status: DayProgressStatus)
    | VideoRow(name: string, duration: string, previewImageURL: string, videoURL: string, equipment: string)
    | ButtonRow(title: string)
    | CompletedRow
    | InfoRow(duration: string, countWorkouts: string, calories: string)
    | DifficultyRow(difficulty: Option<int>)
    | ItemRow(title: string, progress: int, image: string)
    | ImageRow
    | EmptyTopRow(title: string, image: string)
    | WellDoneRow
    | DayNumberRow(title: string)

  datatype Section = Section(items: seq<Row>, kind: SectionsType)

  datatype TopViewEntity = TopViewEntity(date: string, isToday: bool)

  /** What `view.display(topViewEntity:sections:)` receives. */
  datatype Display = Display(top: Option<TopViewEntity>, sections: seq<Section>)
}
