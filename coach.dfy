/** One run of the graph that coach/main.py wires: START -> generate_high_level_plan,
    a fan-out of sends to the compiled weekly sub-graph, a barrier, save_to_json,
    END. The graph engine is library code; this module states the sequence of
    steps it performs for these nodes, with concurrent branches taken as a
    sequential map and the merge order of branch results as a parameter. */
module Coach {
  import opened Util
  import opened Enums
  import opened Schema
  import opened States
  import opened Backend
  import opened WeeklyNode
  import opened TrainingPlanNode

  /** The compiled weekly sub-graph on one payload: project the input, run its
      single node, apply the node's update and project the output. */
  function RunWeeklyGraph(llm: Llm, i: WeeklyWorkoutInput): (o: WeeklyWorkoutOutput)
    ensures o.plannedWorkouts == GenerateHighLevelWeeklyPlan(llm, WeeklyWorkoutState(i.weekIndex, i.currentTrainingPlan, [])).plannedWorkouts
  {
    var s := ProjectWeeklyInput(i);
    ProjectWeeklyOutput(ApplyWeeklyUpdate(s, GenerateHighLevelWeeklyPlan(llm, s)))
  }

  /** The week that the branch for `weekIndex` produces from `plan`. */
  function CompletedWeek(llm: Llm, weekIndex: int, plan: TrainingPlan): WeeklyWorkout
  {
    GenerateHighLevelWeeklyPlan(llm, WeeklyWorkoutState(weekIndex, plan, [])).plannedWorkouts[0]
  }

  /** The week of a branch keeps the drafted rest days and has one workout per
      day of 1..7 not among them. */
  lemma CompletedWeekRestDays(llm: Llm, weekIndex: int, plan: TrainingPlan)
    ensures var draft := llm.week(WeekPrompt(weekIndex, plan.planDurationWeeks, plan.planDescription, plan.progressionStrategy));
      var week := CompletedWeek(llm, weekIndex, plan);
      && week.restDays == draft.restDays
      && |week.workouts| == 7 - |RestDaysInWeek(draft.restDays)|
  {
    var state := WeeklyWorkoutState(weekIndex, plan, []);
    assert WeekPromptOf(state) == WeekPrompt(weekIndex, plan.planDurationWeeks, plan.planDescription, plan.progressionStrategy);
  }

  /** Every branch runs its target on its own payload and nothing else. */
  function RunBranches(llm: Llm, sends: seq<Send>): (outs: seq<WeeklyWorkoutOutput>)
    ensures |outs| == |sends|
    ensures forall k :: 0 <= k < |sends| ==> outs[k] == RunWeeklyGraph(llm, sends[k].arg)
  {
    if sends == [] then [] else [RunWeeklyGraph(llm, sends[0].arg)] + RunBranches(llm, sends[1..])
  }

  /** The barrier: the branch results are applied to the parent state through its
      reducers, one after another, in `order` (a list of branch positions). */
  function FanIn(s: TrainingPlanState, outs: seq<WeeklyWorkoutOutput>, order: seq<int>): (t: TrainingPlanState)
    requires forall k :: 0 <= k < |order| ==> 0 <= order[k] < |outs|
    ensures t.request == s.request && t.trainingPlan == s.trainingPlan
  {
    var writes := seq(|order|, k requires 0 <= k < |order| => outs[order[k]].plannedWorkouts);
    ApplyWeekWritesAppends(s, writes);
    ApplyWeekWrites(s, writes)
  }

  /** Merging one-week results in any order keeps what was accumulated before and
      appends one week per applied result: position k holds branch order[k]'s week. */
  lemma FanInAppendsInOrder(s: TrainingPlanState, outs: seq<WeeklyWorkoutOutput>, order: seq<int>)
    requires forall k :: 0 <= k < |order| ==> 0 <= order[k] < |outs|
    requires forall i :: 0 <= i < |outs| ==> |outs[i].plannedWorkouts| == 1
    ensures var t := FanIn(s, outs, order);
      && |t.plannedWorkouts| == |s.plannedWorkouts| + |order|
      && t.plannedWorkouts[..|s.plannedWorkouts|] == s.plannedWorkouts
      && forall k :: 0 <= k < |order| ==>
           t.plannedWorkouts[|s.plannedWorkouts| + k] == outs[order[k]].plannedWorkouts[0]
  {
    var writes := seq(|order|, k requires 0 <= k < |order| => outs[order[k]].plannedWorkouts);
    ApplyWeekWritesAppends(s, writes);
    ConcatSingletons(writes);
  }

  /** The merge order this model assumes of the engine: dispatch order. */
  function DispatchOrder(n: int): (order: seq<int>)
    ensures |order| == (if n < 0 then 0 else n)
    ensures forall k :: 0 <= k < |order| ==> order[k] == k
  {
    Range(0, n)
  }

  /** The whole run for one request, up to the plan handed to the file write.
      `save_to_json` runs only as the successor of the weekly branches: when the
      fan-out sends nothing (a programme length below 1) no branch runs, the run
      ends after the draft, and nothing is saved. */
  function RunCoach(llm: Llm, req: TrainingPlanInput): (final: TrainingPlanState)
    ensures final.request == req && final.trainingPlan.Some?
  {
    var s0 := InitialState(req);
    var s1 := ApplyPlanUpdate(s0, GenerateHighLevelTrainingPlan(llm, s0));
    var sends := InitiateWeeklyWorkoutPlanning(s1);
    if sends == [] then s1
    else
      var outs := RunBranches(llm, sends);
      var s2 := FanIn(s1, outs, DispatchOrder(|outs|));
      ApplyPlanUpdate(s2, SaveToJson(s2))
  }

  /** With a programme length below 1 the final state is the one the draft left:
      the plan as drafted, with the backend's own weeks, and no accumulated week. */
  lemma RunCoachNoWeeks(llm: Llm, req: TrainingPlanInput)
    requires req.programmeLength < 1
    ensures RunCoach(llm, req).trainingPlan == Some(DraftPlan(llm, InitialState(req)))
    ensures RunCoach(llm, req).plannedWorkouts == []
  {
    var s0 := InitialState(req);
    var s1 := ApplyPlanUpdate(s0, GenerateHighLevelTrainingPlan(llm, s0));
    assert InitiateWeeklyWorkoutPlanning(s1) == [];
  }

  /** The final plan: one week per index 1..programme_length, the k-th being the
      week the branch for week k + 1 produced from the drafted plan; every other
      plan field as drafted; `planned_workouts` equal to the plan's weeks. */
  lemma RunCoachWeeks(llm: Llm, req: TrainingPlanInput)
    requires req.programmeLength >= 1
    ensures var final := RunCoach(llm, req);
      var plan := final.trainingPlan.value;
      var draft := DraftPlan(llm, InitialState(req));
      && |plan.weeklyWorkouts| == req.programmeLength
      && (forall k :: 0 <= k < |plan.weeklyWorkouts| ==>
            plan.weeklyWorkouts[k] == CompletedWeek(llm, k + 1, draft))
      && plan.(weeklyWorkouts := draft.weeklyWorkouts) == draft
      && final.plannedWorkouts == plan.weeklyWorkouts
  {
    var s0 := InitialState(req);
    var s1 := ApplyPlanUpdate(s0, GenerateHighLevelTrainingPlan(llm, s0));
    var sends := InitiateWeeklyWorkoutPlanning(s1);
    assert sends != [];
    var outs := RunBranches(llm, sends);
    var order := DispatchOrder(|outs|);
    forall i | 0 <= i < |outs| ensures |outs[i].plannedWorkouts| == 1 {
    }
    FanInAppendsInOrder(s1, outs, order);
    var s2 := FanIn(s1, outs, order);
    assert PlanPromptOf(s1) == PlanPromptOf(s0);
    forall k | 0 <= k < |s2.plannedWorkouts|
      ensures s2.plannedWorkouts[k] == CompletedWeek(llm, k + 1, DraftPlan(llm, s0))
    {
      assert s2.plannedWorkouts[0 + k] == outs[order[k]].plannedWorkouts[0];
    }
  }

  /** With a backend that only answers schema-valid values, the final plan is
      valid, whether it was saved or left as drafted. */
  lemma RunCoachValid(llm: Llm, req: TrainingPlanInput)
    requires ValidLlm(llm)
    ensures ValidTrainingPlan(RunCoach(llm, req).trainingPlan.value)
  {
    if req.programmeLength < 1 {
      RunCoachNoWeeks(llm, req);
      return;
    }
    RunCoachWeeks(llm, req);
    var plan := RunCoach(llm, req).trainingPlan.value;
    var draft := DraftPlan(llm, InitialState(req));
    forall k | 0 <= k < |plan.weeklyWorkouts| ensures ValidWeeklyWorkout(plan.weeklyWorkouts[k]) {
      assert plan.weeklyWorkouts[k] == CompletedWeek(llm, k + 1, draft);
    }
    WithWeeksValid(draft, plan.weeklyWorkouts);
  }

  /** When weeks are sent, every week of the final plan has one workout per day
      of 1..7 not listed among its rest days. */
  lemma RunCoachWorkoutCounts(llm: Llm, req: TrainingPlanInput, k: int)
    requires 0 <= k < req.programmeLength
    ensures |RunCoach(llm, req).trainingPlan.value.weeklyWorkouts| == req.programmeLength
    ensures var week := RunCoach(llm, req).trainingPlan.value.weeklyWorkouts[k];
      |week.workouts| == 7 - |RestDaysInWeek(week.restDays)|
  {
    RunCoachWeeks(llm, req);
  }

  /** For a request within its bounds the plan has between 1 and 12 weeks. */
  lemma RunCoachValidRequestWeeks(llm: Llm, req: TrainingPlanInput)
    requires ValidRequest(req)
    ensures 1 <= |RunCoach(llm, req).trainingPlan.value.weeklyWorkouts| <= 12
  {
    RunCoachWeeks(llm, req);
  }

  /** The request that coach/main.py runs with: ten weeks of four swimming and
      running sessions of 45 minutes for an intermediate endurance athlete, with
      no limitations. Only its current weekly volume of 0 breaks a declared bound. */
  function ExampleRequest(): (r: TrainingPlanInput)
    ensures r.programmeLength == 10 && r.workoutsPerWeek == 4 && r.availableTimePerSession == 45
    ensures r.trainingGoal == Endurance && r.sports == [Swimming, Running] && r.experience == Intermediate
    ensures r.currentWeeklyVolume == 0 && r.injuriesOrLimitations == None
    ensures !ValidRequest(r) && ValidRequest(r.(currentWeeklyVolume := 1))
  {
    TrainingPlanInput(4, Endurance, [Swimming, Running], Intermediate, 45, 0, 10, None)
  }

  /** That request declares a current weekly volume of 0, outside its `PositiveInt`
      bound; nothing in the nodes checks it, and the run still plans ten weeks. */
  lemma ExampleRequestOutOfBounds(llm: Llm)
    ensures !ValidRequest(ExampleRequest())
    ensures |RunCoach(llm, ExampleRequest()).trainingPlan.value.weeklyWorkouts| == 10
  {
    RunCoachWeeks(llm, ExampleRequest());
  }

  /** Two weeks, a backend whose first week rests on day 7 and whose second rests
      on days 1 and 4, and whose plan lasts two weeks: the plan has two weeks of
      six and five workouts. */
  lemma TwoWeekScenario(llm: Llm, req: TrainingPlanInput)
    requires req.programmeLength == 2
    requires forall p :: llm.plan(p).planDurationWeeks == 2
    requires forall p: WeekPrompt :: p.weekIndex == 1 ==> llm.week(p).restDays == [7]
    requires forall p: WeekPrompt :: p.weekIndex == 2 ==> llm.week(p).restDays == [1, 4]
    ensures var plan := RunCoach(llm, req).trainingPlan.value;
      && |plan.weeklyWorkouts| == 2
      && |plan.weeklyWorkouts[0].workouts| == 6
      && |plan.weeklyWorkouts[1].workouts| == 5
      && plan.planDurationWeeks == 2
  {
    var draft := DraftPlan(llm, InitialState(req));
    var plan := RunCoach(llm, req).trainingPlan.value;
    RunCoachWeeks(llm, req);
    assert plan.planDurationWeeks == draft.planDurationWeeks;
    var p1 := WeekPrompt(1, draft.planDurationWeeks, draft.planDescription, draft.progressionStrategy);
    var p2 := WeekPrompt(2, draft.planDurationWeeks, draft.planDescription, draft.progressionStrategy);
    ScenarioRestDays();
    ScenarioWeeks(llm, draft, plan.weeklyWorkouts, llm.week(p1).restDays, llm.week(p2).restDays);
  }

  /** The scenario's two weeks, from the drafted rest days of each. */
  lemma ScenarioWeeks(llm: Llm, draft: TrainingPlan, weeks: seq<WeeklyWorkout>, rest1: seq<int>, rest2: seq<int>)
    requires |weeks| == 2
    requires weeks[0] == CompletedWeek(llm, 1, draft) && weeks[1] == CompletedWeek(llm, 2, draft)
    requires llm.week(WeekPrompt(1, draft.planDurationWeeks, draft.planDescription, draft.progressionStrategy)).restDays == rest1
    requires llm.week(WeekPrompt(2, draft.planDurationWeeks, draft.planDescription, draft.progressionStrategy)).restDays == rest2
    requires |RestDaysInWeek(rest1)| == 1 && |RestDaysInWeek(rest2)| == 2
    ensures |weeks[0].workouts| == 6 && |weeks[1].workouts| == 5
  {
    CompletedWeekRestDays(llm, 1, draft);
    CompletedWeekRestDays(llm, 2, draft);
  }

  /** The scenario's rest-day lists name one and two days of the week. */
  lemma ScenarioRestDays()
    ensures |RestDaysInWeek([7])| == 1 && |RestDaysInWeek([1, 4])| == 2
  {
    assert RestDaysInWeek([7]) == {7};
    assert RestDaysInWeek([1, 4]) == {1, 4};
  }
}
