/** The top-level nodes of coach/nodes/training_plan.py: draft the plan, fan
    out one weekly branch per week of the programme, and finally write the
    merged weeks into the plan. */
module TrainingPlanNode {
  import opened Util
  import opened Enums
  import opened Schema
  import opened States
  import opened Backend

  /** The plan instructions: every key of the request and nothing else; the goal
      is passed by its value, from which it is found again. */
  function PlanPromptOf(s: TrainingPlanState): (p: PlanPrompt)
    ensures GoalOf(p.goal) == Some(s.request.trainingGoal)
    ensures TrainingPlanInput(
      p.workoutsPerWeek, GoalOf(p.goal).value, p.sports, p.experience, p.availableTimePerSession,
      p.currentWeeklyVolume, p.programmeLength, p.injuriesOrLimitations) == s.request
  {
    var r := s.request;
    PlanPrompt(
      r.trainingGoal.Value(), r.sports, r.experience, r.workoutsPerWeek,
      r.availableTimePerSession, r.currentWeeklyVolume, r.injuriesOrLimitations,
      r.programmeLength)
  }

  /** The plan as the backend drafts it. */
  function DraftPlan(llm: Llm, s: TrainingPlanState): (p: TrainingPlan)
    ensures ValidLlm(llm) ==> ValidTrainingPlan(p)
  {
    llm.plan(PlanPromptOf(s))
  }

  /** `generate_high_level_training_plan`: writes the drafted plan under
      `training_plan` and no other key. */
  function GenerateHighLevelTrainingPlan(llm: Llm, s: TrainingPlanState): (u: PlanUpdate)
    ensures u.plannedWorkouts.None?
    ensures u.trainingPlan == Some(DraftPlan(llm, s))
  {
    PlanUpdate(Some(DraftPlan(llm, s)), None)
  }

  /** The node every weekly branch is sent to. */
  const WeeklyNodeName: string := "plan_weekly_workouts"

  /** `Send(node, arg)`: run `node` on its own payload. */
  datatype Send = Send(node: string, arg: WeeklyWorkoutInput)

  /** `initiate_weekly_workout_planning`: one send per week of `range(1,
      programme_length + 1)`, the k-th carrying week index k + 1 and the state's
      plan itself. Reading `training_plan` needs the key to be written, which the
      preceding node does. */
  function InitiateWeeklyWorkoutPlanning(s: TrainingPlanState): (sends: seq<Send>)
    requires s.trainingPlan.Some?
    ensures |sends| == if s.request.programmeLength < 1 then 0 else s.request.programmeLength
    ensures forall k :: 0 <= k < |sends| ==>
      sends[k] == Send(WeeklyNodeName, WeeklyWorkoutInput(k + 1, s.trainingPlan.value))
  {
    var weeks := Range(1, s.request.programmeLength + 1);
    seq(|weeks|, k requires 0 <= k < |weeks| =>
      Send(WeeklyNodeName, WeeklyWorkoutInput(weeks[k], s.trainingPlan.value)))
  }

  /** The week indices sent, in dispatch order. */
  function WeekIndices(sends: seq<Send>): seq<int>
  {
    seq(|sends|, k requires 0 <= k < |sends| => sends[k].arg.weekIndex)
  }

  /** The week indices are strictly increasing and are exactly 1..programme_length:
      no gap, no duplicate; every send goes to the weekly sub-graph. */
  lemma WeekFanOutIndices(s: TrainingPlanState)
    requires s.trainingPlan.Some?
    ensures var sends := InitiateWeeklyWorkoutPlanning(s);
      && Increasing(WeekIndices(sends))
      && (forall i :: i in WeekIndices(sends) <==> 1 <= i <= s.request.programmeLength)
      && (forall k :: 0 <= k < |sends| ==> sends[k].node == WeeklyNodeName)
  {
    var sends := InitiateWeeklyWorkoutPlanning(s);
    var idx := WeekIndices(sends);
    forall i | 1 <= i <= s.request.programmeLength ensures i in idx {
      assert idx[i - 1] == i;
    }
  }

  /** `save_to_json` without the file write: the plan's `weekly_workouts` becomes
      the accumulated `planned_workouts`, every other plan field is kept, and the
      plan is written back under `training_plan` only. */
  function SaveToJson(s: TrainingPlanState): (u: PlanUpdate)
    requires s.trainingPlan.Some?
    ensures u.plannedWorkouts.None? && u.trainingPlan.Some?
    ensures u.trainingPlan.value.weeklyWorkouts == s.plannedWorkouts
    ensures u.trainingPlan.value.(weeklyWorkouts := s.trainingPlan.value.weeklyWorkouts) == s.trainingPlan.value
  {
    var plan := s.trainingPlan.value;
    PlanUpdate(Some(plan.(weeklyWorkouts := s.plannedWorkouts)), None)
  }

  /** Saving keeps a valid plan valid when the accumulated weeks are valid. */
  lemma SaveToJsonValid(s: TrainingPlanState)
    requires s.trainingPlan.Some? && ValidTrainingPlan(s.trainingPlan.value)
    requires forall k :: 0 <= k < |s.plannedWorkouts| ==> ValidWeeklyWorkout(s.plannedWorkouts[k])
    ensures ValidTrainingPlan(SaveToJson(s).trainingPlan.value)
  {
    WithWeeksValid(s.trainingPlan.value, s.plannedWorkouts);
  }
}
