/** The graph states of coach/models/states.py: the request, the top-level
    state with its per-key merge policies, and the weekly sub-graph's state with
    its input and output projections. A node returns a partial update; only the
    keys a node writes are present in it (`Some`). */
module States {
  import opened Util
  import opened Enums
  import opened Schema

  /** The request the top-level graph is started with (`TrainingPlanInput`). */
  datatype TrainingPlanInput = TrainingPlanInput(
    workoutsPerWeek: int,
    trainingGoal: Goal,
    sports: seq<Sport>,
    experience: Experience,
    availableTimePerSession: int,
    currentWeeklyVolume: int,
    programmeLength: int,
    injuriesOrLimitations: Option<seq<string>>)

  /** The bounds the request's annotations declare: `ge=1, le=7` on the weekly
      frequency, `PositiveInt` on the current volume, `ge=1, le=12` on the
      programme length. The session time budget is an unconstrained `int`. */
  predicate ValidRequest(r: TrainingPlanInput): (b: bool)
    ensures b ==> 1 <= r.workoutsPerWeek <= |Range(1, 8)|
    ensures b ==> |Range(1, r.programmeLength + 1)| == r.programmeLength <= 12
    ensures b ==> r.currentWeeklyVolume >= 1
  {
    && 1 <= r.workoutsPerWeek <= 7
    && r.currentWeeklyVolume > 0
    && 1 <= r.programmeLength <= 12
  }

  /** The top-level state (`TrainingPlanState`): the request's keys, the plan
      (absent until the first node writes it) and the accumulated weeks. */
  datatype TrainingPlanState = TrainingPlanState(
    request: TrainingPlanInput,
    trainingPlan: Option<TrainingPlan>,
    plannedWorkouts: seq<WeeklyWorkout>)

  /** `TrainingPlanState` repeats the request's bounds on its own keys. */
  predicate ValidState(s: TrainingPlanState)
  {
    ValidRequest(s.request)
  }

  /** The state a run starts from: the request's keys, no plan yet, and the empty
      list that an `operator.add` key holds before any write. */
  function InitialState(r: TrainingPlanInput): (s: TrainingPlanState)
    ensures s.request == r && s.trainingPlan.None? && s.plannedWorkouts == []
    ensures ValidState(s) <==> ValidRequest(r)
  {
    TrainingPlanState(r, None, [])
  }

  /** A partial update of the top-level state, one optional entry per writable key. */
  datatype PlanUpdate = PlanUpdate(
    trainingPlan: Option<TrainingPlan>,
    plannedWorkouts: Option<seq<WeeklyWorkout>>)

  /** The reducer of `planned_workouts`: `operator.add` on lists. */
  function Add<T>(left: seq<T>, right: seq<T>): (r: seq<T>)
    ensures |r| == |left| + |right|
    ensures r[..|left|] == left && r[|left|..] == right
  {
    left + right
  }

  /** `operator.add` is associative with the empty list as identity on both sides. */
  lemma AddMonoid<T>(a: seq<T>, b: seq<T>, c: seq<T>)
    ensures Add(Add(a, b), c) == Add(a, Add(b, c))
    ensures Add([], a) == a && Add(a, []) == a
  {
  }

  /** Add neither drops, reorders nor deduplicates: position k of the result is
      position k of the left list, or position k - |left| of the right one. */
  lemma AddKeepsEveryElement<T>(left: seq<T>, right: seq<T>, k: int)
    requires 0 <= k < |left| + |right|
    ensures Add(left, right)[k] == if k < |left| then left[k] else right[k - |left|]
  {
  }

  /** Applying an update: `training_plan` has no reducer, so a write replaces it;
      `planned_workouts` is combined with `operator.add`; the request keys are not
      written by any node. */
  function ApplyPlanUpdate(s: TrainingPlanState, u: PlanUpdate): (t: TrainingPlanState)
    ensures t.request == s.request
    ensures t.trainingPlan == if u.trainingPlan.Some? then u.trainingPlan else s.trainingPlan
    ensures u.plannedWorkouts.None? ==> t.plannedWorkouts == s.plannedWorkouts
    ensures u.plannedWorkouts.Some? ==>
      && |t.plannedWorkouts| == |s.plannedWorkouts| + |u.plannedWorkouts.value|
      && t.plannedWorkouts[..|s.plannedWorkouts|] == s.plannedWorkouts
      && t.plannedWorkouts[|s.plannedWorkouts|..] == u.plannedWorkouts.value
  {
    TrainingPlanState(
      s.request,
      if u.trainingPlan.Some? then u.trainingPlan else s.trainingPlan,
      if u.plannedWorkouts.Some? then Add(s.plannedWorkouts, u.plannedWorkouts.value) else s.plannedWorkouts)
  }

  /** Applying a list of `planned_workouts` writes one after another. */
  function ApplyWeekWrites(s: TrainingPlanState, writes: seq<seq<WeeklyWorkout>>): (t: TrainingPlanState)
    decreases |writes|
    ensures t.request == s.request && t.trainingPlan == s.trainingPlan
    ensures |t.plannedWorkouts| >= |s.plannedWorkouts|
    ensures t.plannedWorkouts[..|s.plannedWorkouts|] == s.plannedWorkouts
  {
    if writes == [] then s
    else ApplyWeekWrites(ApplyPlanUpdate(s, PlanUpdate(None, Some(writes[0]))), writes[1..])
  }

  /** Successive `operator.add` writes leave the plan alone and append the
      concatenation of the writes, in the order they were applied. */
  lemma {:induction false} ApplyWeekWritesAppends(s: TrainingPlanState, writes: seq<seq<WeeklyWorkout>>)
    ensures ApplyWeekWrites(s, writes).request == s.request
    ensures ApplyWeekWrites(s, writes).trainingPlan == s.trainingPlan
    ensures ApplyWeekWrites(s, writes).plannedWorkouts == s.plannedWorkouts + Concat(writes)
    decreases |writes|
  {
    if writes != [] {
      var s' := ApplyPlanUpdate(s, PlanUpdate(None, Some(writes[0])));
      ApplyWeekWritesAppends(s', writes[1..]);
      assert s'.plannedWorkouts == s.plannedWorkouts + writes[0];
    }
  }

  /** The payload a weekly branch is started with (`WeeklyWorkoutInput`). */
  datatype WeeklyWorkoutInput = WeeklyWorkoutInput(
    weekIndex: int,
    currentTrainingPlan: TrainingPlan)

  /** The weekly sub-graph's state (`WeeklyWorkoutState`); its `planned_workouts`
      carries no reducer, so a write replaces it. */
  datatype WeeklyWorkoutState = WeeklyWorkoutState(
    weekIndex: int,
    currentTrainingPlan: TrainingPlan,
    plannedWorkouts: seq<WeeklyWorkout>)

  /** What the weekly sub-graph hands back (`WeeklyWorkoutOutput`). */
  datatype WeeklyWorkoutOutput = WeeklyWorkoutOutput(plannedWorkouts: seq<WeeklyWorkout>)

  /** A partial update of the weekly state; its one writable key is `planned_workouts`. */
  datatype WeeklyUpdate = WeeklyUpdate(plannedWorkouts: seq<WeeklyWorkout>)

  /** The sub-graph's input schema: the two payload keys are copied in, and
      `planned_workouts` starts empty. */
  function ProjectWeeklyInput(i: WeeklyWorkoutInput): (s: WeeklyWorkoutState)
    ensures s.weekIndex == i.weekIndex && s.currentTrainingPlan == i.currentTrainingPlan
    ensures s.plannedWorkouts == []
  {
    WeeklyWorkoutState(i.weekIndex, i.currentTrainingPlan, [])
  }

  function ApplyWeeklyUpdate(s: WeeklyWorkoutState, u: WeeklyUpdate): (t: WeeklyWorkoutState)
    ensures t.weekIndex == s.weekIndex && t.currentTrainingPlan == s.currentTrainingPlan
    ensures t.plannedWorkouts == u.plannedWorkouts
  {
    s.(plannedWorkouts := u.plannedWorkouts)
  }

  /** The sub-graph's output schema keeps `planned_workouts` only. */
  function ProjectWeeklyOutput(s: WeeklyWorkoutState): (o: WeeklyWorkoutOutput)
    ensures o.plannedWorkouts == s.plannedWorkouts
  {
    WeeklyWorkoutOutput(s.plannedWorkouts)
  }
}
