/** The weekly node of coach/nodes/weekly.py: draft one week with the backend,
    schedule one individual-workout generation per day of 1..7 that is not a
    rest day, gather the results in scheduling order, put them into the draft's
    `workouts` and hand the week back as a one-element `planned_workouts`. */
module WeeklyNode {
  import opened Util
  import opened Enums
  import opened Schema
  import opened States
  import opened Backend

  /** The weekly instructions: the week's index and three fields of the plan;
      neither the plan's weeks nor the state's `planned_workouts` reach them. */
  function WeekPromptOf(state: WeeklyWorkoutState): (p: WeekPrompt)
    ensures p.weekIndex == state.weekIndex
    ensures p.planDurationWeeks == state.currentTrainingPlan.planDurationWeeks
    ensures p.planDescription == state.currentTrainingPlan.planDescription
    ensures p.progressionStrategy == state.currentTrainingPlan.progressionStrategy
  {
    var plan := state.currentTrainingPlan;
    WeekPrompt(state.weekIndex, plan.planDurationWeeks, plan.planDescription, plan.progressionStrategy)
  }

  /** The week as the backend drafts it, before its workouts are replaced. */
  function DraftWeek(llm: Llm, state: WeeklyWorkoutState): (w: WeeklyWorkout)
    ensures ValidLlm(llm) ==> ValidWeeklyWorkout(w)
  {
    llm.week(WeekPromptOf(state))
  }

  /** The individual-workout instructions: the week's index, three fields of the
      drafted week and two fields of the plan. */
  function WorkoutPromptOf(state: WeeklyWorkoutState, week: WeeklyWorkout): (p: WorkoutPrompt)
    ensures p.weekIndex == state.weekIndex
    ensures p.weeklyWorkoutDescription == week.weeklyWorkoutDescription
    ensures p.weeklyFocus == week.weeklyFocus && p.totalWeeklyVolume == week.totalWeeklyVolume
    ensures p.planDescription == state.currentTrainingPlan.planDescription
    ensures p.progressionStrategy == state.currentTrainingPlan.progressionStrategy
  {
    var plan := state.currentTrainingPlan;
    WorkoutPrompt(
      state.weekIndex, week.weeklyWorkoutDescription, week.weeklyFocus,
      plan.planDescription, plan.progressionStrategy, week.totalWeeklyVolume)
  }

  /** The weekly prompt is the same whatever weeks the plan already holds and
      whatever the branch state has accumulated. */
  lemma WeekPromptIgnoresWeeks(state: WeeklyWorkoutState, weeks: seq<WeeklyWorkout>, planned: seq<WeeklyWorkout>)
    ensures WeekPromptOf(state) ==
      WeekPromptOf(WeeklyWorkoutState(state.weekIndex, state.currentTrainingPlan.(weeklyWorkouts := weeks), planned))
  {
  }

  /** The workout prompt is the same whatever workouts, rest days and name the
      drafted week holds: no call is told which day it is for or what the others
      produced. */
  lemma WorkoutPromptIgnoresSchedule(state: WeeklyWorkoutState, week: WeeklyWorkout, workouts: seq<Workout>, restDays: seq<int>, name: string)
    ensures WorkoutPromptOf(state, week) ==
      WorkoutPromptOf(state, week.(workouts := workouts, restDays := restDays, workoutWeekName := name))
  {
  }

  /** `generate_individual_workout(state, weekly_workout)`: one parsed backend call. */
  function GenerateIndividualWorkout(llm: Llm, state: WeeklyWorkoutState, week: WeeklyWorkout): (w: Workout)
    ensures ValidLlm(llm) ==> ValidWorkout(w)
  {
    llm.workout(WorkoutPromptOf(state, week))
  }

  /** The elements of `xs` that do not occur in `rest`, in their order in `xs`
      (`[i for i in xs if i not in rest]`). */
  function NotIn(xs: seq<int>, rest: seq<int>): (r: seq<int>)
    ensures forall x :: x in r <==> x in xs && x !in rest
    ensures Increasing(xs) ==> Increasing(r)
  {
    if xs == [] then []
    else if xs[0] in rest then NotIn(xs[1..], rest)
    else
      var t := NotIn(xs[1..], rest);
      assert Increasing(xs) ==> Increasing([xs[0]] + t) by {
        if Increasing(xs) {
          assert Increasing(xs[1..]);
          forall j | 0 <= j < |t| ensures xs[0] < t[j] {
            assert t[j] in xs[1..];
            var k :| 0 <= k < |xs[1..]| && xs[1..][k] == t[j];
            assert xs[k + 1] == t[j];
          }
        }
      }
      [xs[0]] + t
  }

  /** The days of `range(1, 8)` that are not listed in `rest_days`: exactly the
      days 1..7 that are not rest days, in increasing order. */
  function ActiveDays(restDays: seq<int>): (days: seq<int>)
    ensures forall d :: d in days <==> 1 <= d <= 7 && d !in restDays
    ensures Increasing(days)
  {
    NotIn(Range(1, 8), restDays)
  }

  /** The rest-day entries that name a day of the week, as a set. */
  function RestDaysInWeek(restDays: seq<int>): set<int>
  {
    set d | d in restDays && 1 <= d <= 7
  }

  /** The number of scheduled days is 7 minus the number of distinct rest-day
      entries that lie in 1..7. */
  lemma ActiveDayCount(restDays: seq<int>)
    ensures |ActiveDays(restDays)| == 7 - |RestDaysInWeek(restDays)|
  {
    var week := Range(1, 8);
    var days := ActiveDays(restDays);
    DistinctCard(week);
    DistinctCard(days);
    assert Elements(days) == Elements(week) - RestDaysInWeek(restDays);
    assert RestDaysInWeek(restDays) <= Elements(week);
  }

  /** Only the set of in-range rest days matters: duplicates and entries outside
      1..7 change nothing in the schedule. */
  lemma ActiveDaysDependOnlyOnRestSet(r1: seq<int>, r2: seq<int>)
    requires RestDaysInWeek(r1) == RestDaysInWeek(r2)
    ensures ActiveDays(r1) == ActiveDays(r2)
  {
    var week := Range(1, 8);
    forall k | 0 <= k < |week| ensures week[k] in r1 <==> week[k] in r2 {
      assert week[k] in r1 <==> week[k] in RestDaysInWeek(r1);
      assert week[k] in r2 <==> week[k] in RestDaysInWeek(r2);
    }
    NotInAgrees(week, r1, r2);
  }

  lemma {:induction false} NotInAgrees(xs: seq<int>, r1: seq<int>, r2: seq<int>)
    requires forall k :: 0 <= k < |xs| ==> (xs[k] in r1 <==> xs[k] in r2)
    ensures NotIn(xs, r1) == NotIn(xs, r2)
  {
    if xs != [] {
      assert forall k :: 0 <= k < |xs[1..]| ==> xs[1..][k] == xs[k + 1];
      NotInAgrees(xs[1..], r1, r2);
    }
  }

  /** When the rest days list every day of the week, nothing is scheduled. */
  lemma AllRestDaysScheduleNothing(restDays: seq<int>)
    requires forall d :: 1 <= d <= 7 ==> d in restDays
    ensures ActiveDays(restDays) == []
  {
    ActiveDayCount(restDays);
    DistinctCard(Range(1, 8));
    assert RestDaysInWeek(restDays) == Elements(Range(1, 8));
  }

  /** With distinct rest days inside 1..7, the count is 7 minus the length of the list. */
  lemma DistinctRestDaysCount(restDays: seq<int>)
    requires Distinct(restDays)
    requires forall k :: 0 <= k < |restDays| ==> 1 <= restDays[k] <= 7
    ensures |ActiveDays(restDays)| == 7 - |restDays|
  {
    ActiveDayCount(restDays);
    DistinctCard(restDays);
    assert RestDaysInWeek(restDays) == Elements(restDays);
  }

  /** Conversely, the count is 7 minus the length of the list only when the rest
      days are distinct and all lie in 1..7. */
  lemma LengthCountOnlyForDistinctRestDays(restDays: seq<int>)
    requires |ActiveDays(restDays)| == 7 - |restDays|
    ensures Distinct(restDays)
    ensures forall k :: 0 <= k < |restDays| ==> 1 <= restDays[k] <= 7
  {
    var inWeek := RestDaysInWeek(restDays);
    var all := Elements(restDays);
    ActiveDayCount(restDays);
    ElementsCard(restDays);
    assert inWeek <= all;
    assert |all - inWeek| == |all| - |inWeek|;
    assert all - inWeek == {};
    forall k | 0 <= k < |restDays| ensures 1 <= restDays[k] <= 7 {
      assert restDays[k] in all;
      assert restDays[k] in inWeek;
    }
  }

  /** A repeated rest day is counted once: `[7, 7]` leaves six days, not five. */
  lemma RepeatedRestDayCountedOnce()
    ensures |ActiveDays([7, 7])| == 6 != 7 - |[7, 7]|
  {
    ActiveDaysDependOnlyOnRestSet([7, 7], [7]);
    DistinctRestDaysCount([7]);
  }

  /** One coroutine `generate_individual_workout(state, weekly_workout)`: its
      arguments are the whole weekly state and the drafted week, nothing else. */
  datatype WorkoutCall = WorkoutCall(state: WeeklyWorkoutState, week: WeeklyWorkout)

  /** One call per element of `days`; the day itself is not passed on. */
  function CallsFor(days: seq<int>, state: WeeklyWorkoutState, week: WeeklyWorkout): (calls: seq<WorkoutCall>)
    ensures |calls| == |days|
    ensures forall j :: 0 <= j < |calls| ==> calls[j] == WorkoutCall(state, week)
  {
    if days == [] then [] else [WorkoutCall(state, week)] + CallsFor(days[1..], state, week)
  }

  /** The coroutine list of the node: one call for each non-rest day, all alike. */
  function ScheduleWorkouts(state: WeeklyWorkoutState, week: WeeklyWorkout): (calls: seq<WorkoutCall>)
    ensures |calls| == 7 - |RestDaysInWeek(week.restDays)|
    ensures forall j :: 0 <= j < |calls| ==> calls[j] == WorkoutCall(state, week)
  {
    ActiveDayCount(week.restDays);
    CallsFor(ActiveDays(week.restDays), state, week)
  }

  /** `asyncio.gather`, taken as a sequential map: result j is the result of call j. */
  function Gather(llm: Llm, calls: seq<WorkoutCall>): (results: seq<Workout>)
    ensures |results| == |calls|
    ensures forall j :: 0 <= j < |calls| ==>
      results[j] == GenerateIndividualWorkout(llm, calls[j].state, calls[j].week)
  {
    if calls == [] then []
    else [GenerateIndividualWorkout(llm, calls[0].state, calls[0].week)] + Gather(llm, calls[1..])
  }

  /** `generate_high_level_weekly_plan`: the only key written is `planned_workouts`,
      holding exactly one week; that week is the draft with its `workouts` replaced
      by one generated workout per non-rest day, and with every other field as
      drafted. */
  function GenerateHighLevelWeeklyPlan(llm: Llm, state: WeeklyWorkoutState): (u: WeeklyUpdate)
    ensures |u.plannedWorkouts| == 1
    ensures var draft := DraftWeek(llm, state);
      var week := u.plannedWorkouts[0];
      && week.(workouts := draft.workouts) == draft
      && |week.workouts| == 7 - |RestDaysInWeek(draft.restDays)|
      && forall j :: 0 <= j < |week.workouts| ==>
           week.workouts[j] == GenerateIndividualWorkout(llm, state, draft)
    ensures ValidLlm(llm) ==> ValidWeeklyWorkout(u.plannedWorkouts[0])
  {
    var draft := DraftWeek(llm, state);
    var workouts := Gather(llm, ScheduleWorkouts(state, draft));
    WeeklyUpdate([draft.(workouts := workouts)])
  }
}
