/** The Pydantic records of coach/models/schema.py. Each record is a datatype;
    its field constraints (`PositiveInt`, `PositiveFloat`, optional fields) are
    a validity predicate that Pydantic checks when a value is built or parsed.
    `PositiveFloat` fields are `real`s of which only positivity is modelled. */
module Schema {
  import opened Util
  import opened Enums

  /** `PositiveInt | None`: absent, or present and greater than zero. */
  predicate PositiveIfPresent(x: Option<int>)
  {
    x.None? || x.value > 0
  }

  /** `PositiveFloat | None`. */
  predicate PositiveRealIfPresent(x: Option<real>)
  {
    x.None? || x.value > 0.0
  }

  /** One training segment: how far, in which unit, at which effort. */
  datatype Interval = Interval(
    distance: int,
    distanceUnit: DistanceUnit,
    effort: EffortZone,
    durationEstimate: Option<real>,
    recoveryTime: Option<real>)

  /** `distance: PositiveInt`, and each `PositiveFloat | None` estimate absent or
      positive; unit and effort are constrained by their types alone. */
  predicate ValidInterval(i: Interval): (b: bool)
    ensures b <==>
      && i.distance >= 1
      && (i.durationEstimate.Some? ==> i.durationEstimate.value > 0.0)
      && (i.recoveryTime.Some? ==> i.recoveryTime.value > 0.0)
  {
    && i.distance > 0
    && PositiveRealIfPresent(i.durationEstimate)
    && PositiveRealIfPresent(i.recoveryTime)
  }

  /** `Interval(distance=..., distance_unit=..., effort=...)` with both estimates left at their default None. */
  function NewInterval(distance: int, unit: DistanceUnit, effort: EffortZone): (i: Interval)
    ensures i.durationEstimate == None && i.recoveryTime == None
    ensures ValidInterval(i) <==> distance > 0
  {
    Interval(distance, unit, effort, None, None)
  }

  /** A drill is an interval (the subclass inherits every Interval field) with
      instructions and a list of equipment. */
  datatype DrillInterval = DrillInterval(
    interval: Interval,
    drillDescription: string,
    equipmentNeeded: seq<string>)

  /** The drill fields carry no constraint of their own: only the inherited
      Interval fields are checked. */
  predicate ValidDrillInterval(d: DrillInterval): (b: bool)
    ensures b <==>
      && d.interval.distance >= 1
      && (d.interval.durationEstimate.Some? ==> d.interval.durationEstimate.value > 0.0)
      && (d.interval.recoveryTime.Some? ==> d.interval.recoveryTime.value > 0.0)
  {
    ValidInterval(d.interval)
  }

  /** `DrillInterval(...)` with `equipment_needed` left to its default factory `list`. */
  function NewDrillInterval(interval: Interval, description: string): (d: DrillInterval)
    ensures d.equipmentNeeded == []
    ensures d.interval == interval && d.drillDescription == description
    ensures ValidDrillInterval(d) <==> ValidInterval(interval)
  {
    DrillInterval(interval, description, [])
  }

  /** An element of `list[Union[Interval, DrillInterval]]`. The union carries no tag
      field in the source; the two constructors are the two member classes. */
  datatype MainSetInterval = Plain(plain: Interval) | Drill(drill: DrillInterval)

  /** The Interval fields that both members of the union have. */
  function AsInterval(m: MainSetInterval): Interval
  {
    match m
    case Plain(i) => i
    case Drill(d) => d.interval
  }

  /** Whichever member it is, an element is validated by the Interval rules alone. */
  predicate ValidMainSetInterval(m: MainSetInterval): (b: bool)
    ensures b <==> ValidInterval(AsInterval(m))
  {
    match m
    case Plain(i) => ValidInterval(i)
    case Drill(d) => ValidDrillInterval(d)
  }

  /** A complete session: warm-up and cool-down are plain intervals, the main set
      may mix plain intervals and drills. */
  datatype Workout = Workout(
    name: string,
    sport: Sport,
    warmup: Interval,
    intervals: seq<MainSetInterval>,
    cooldown: Interval,
    workoutGoal: Goal,
    totalDistance: Option<int>,
    estimatedDuration: Option<int>,
    intensityFocus: Option<string>)

  /** Warm-up, cool-down and every main-set element meet the Interval rules (for a
      drill, its Interval part), and both optional counts are absent or positive. */
  predicate ValidWorkout(w: Workout): (b: bool)
    ensures b <==>
      && ValidInterval(w.warmup)
      && ValidInterval(w.cooldown)
      && (forall k :: 0 <= k < |w.intervals| ==> ValidInterval(AsInterval(w.intervals[k])))
      && (w.totalDistance.Some? ==> w.totalDistance.value >= 1)
      && (w.estimatedDuration.Some? ==> w.estimatedDuration.value >= 1)
  {
    && ValidInterval(w.warmup)
    && (forall k :: 0 <= k < |w.intervals| ==> ValidMainSetInterval(w.intervals[k]))
    && ValidInterval(w.cooldown)
    && PositiveIfPresent(w.totalDistance)
    && PositiveIfPresent(w.estimatedDuration)
  }

  /** `Workout(name=..., sport=..., warmup=..., intervals=..., cooldown=...,
      workout_goal=...)` with total distance, estimated duration and intensity
      focus left at their default None. */
  function NewWorkout(name: string, sport: Sport, warmup: Interval, intervals: seq<MainSetInterval>,
                      cooldown: Interval, goal: Goal): (w: Workout)
    ensures w.totalDistance == None && w.estimatedDuration == None && w.intensityFocus == None
    ensures w.name == name && w.sport == sport && w.workoutGoal == goal
    ensures w.warmup == warmup && w.intervals == intervals && w.cooldown == cooldown
    ensures ValidWorkout(w) <==>
      && ValidInterval(warmup)
      && ValidInterval(cooldown)
      && forall k :: 0 <= k < |intervals| ==> ValidInterval(AsInterval(intervals[k]))
  {
    Workout(name, sport, warmup, intervals, cooldown, goal, None, None, None)
  }

  /** One week of a plan. `restDays` are plain integers: nothing checks that they
      lie in 1..7 or are distinct. */
  datatype WeeklyWorkout = WeeklyWorkout(
    workouts: seq<Workout>,
    weeklyWorkoutDescription: string,
    workoutWeekName: string,
    totalWeeklyVolume: Option<int>,
    restDays: seq<int>,
    weeklyFocus: Option<string>)

  /** A valid week holds only valid workouts, each with valid warm-up and
      cool-down; rest days are not checked. */
  predicate ValidWeeklyWorkout(w: WeeklyWorkout): (b: bool)
    ensures b <==>
      (forall k :: 0 <= k < |w.workouts| ==> ValidWorkout(w.workouts[k]))
      && (w.totalWeeklyVolume.Some? ==> w.totalWeeklyVolume.value >= 1)
    ensures b ==> forall k :: 0 <= k < |w.workouts| ==>
      ValidInterval(w.workouts[k].warmup) && ValidInterval(w.workouts[k].cooldown)
  {
    && (forall k :: 0 <= k < |w.workouts| ==> ValidWorkout(w.workouts[k]))
    && PositiveIfPresent(w.totalWeeklyVolume)
  }

  /** `WeeklyWorkout(workouts=..., weekly_workout_description=..., workout_week_name=...)`
      with the other fields at their defaults: no volume, no rest days, no focus. */
  function NewWeeklyWorkout(workouts: seq<Workout>, description: string, name: string): (w: WeeklyWorkout)
    ensures w.restDays == [] && w.totalWeeklyVolume == None && w.weeklyFocus == None
    ensures w.workouts == workouts
    ensures ValidWeeklyWorkout(w) <==> forall k :: 0 <= k < |workouts| ==> ValidWorkout(workouts[k])
  {
    WeeklyWorkout(workouts, description, name, None, [], None)
  }

  /** The whole plan. */
  datatype TrainingPlan = TrainingPlan(
    weeklyWorkouts: seq<WeeklyWorkout>,
    planDurationWeeks: int,
    planDescription: string,
    progressionStrategy: Option<string>)

  /** `plan_duration_weeks: PositiveInt`, and every week valid, down to the
      workouts of every week. */
  predicate ValidTrainingPlan(p: TrainingPlan): (b: bool)
    ensures b ==> p.planDurationWeeks >= 1
    ensures b ==> forall k, j :: 0 <= k < |p.weeklyWorkouts| && 0 <= j < |p.weeklyWorkouts[k].workouts| ==>
      ValidWorkout(p.weeklyWorkouts[k].workouts[j])
  {
    && (forall k :: 0 <= k < |p.weeklyWorkouts| ==> ValidWeeklyWorkout(p.weeklyWorkouts[k]))
    && p.planDurationWeeks > 0
  }

  /** `TrainingPlan(weekly_workouts=..., plan_duration_weeks=..., plan_description=...)`
      with `progression_strategy` left at its default None. */
  function NewTrainingPlan(weeks: seq<WeeklyWorkout>, duration: int, description: string): (p: TrainingPlan)
    ensures p.progressionStrategy == None
    ensures p.weeklyWorkouts == weeks && p.planDurationWeeks == duration && p.planDescription == description
    ensures ValidTrainingPlan(p) <==>
      duration > 0 && forall k :: 0 <= k < |weeks| ==> ValidWeeklyWorkout(weeks[k])
  {
    TrainingPlan(weeks, duration, description, None)
  }

  /** A plan is valid exactly when its duration is positive and every interval of
      every workout of every week, and every optional count on the way, is valid. */
  lemma ValidTrainingPlanNested(p: TrainingPlan)
    ensures ValidTrainingPlan(p) <==>
      && p.planDurationWeeks > 0
      && forall k :: 0 <= k < |p.weeklyWorkouts| ==>
           && PositiveIfPresent(p.weeklyWorkouts[k].totalWeeklyVolume)
           && forall j :: 0 <= j < |p.weeklyWorkouts[k].workouts| ==>
                var w := p.weeklyWorkouts[k].workouts[j];
                && ValidInterval(w.warmup)
                && ValidInterval(w.cooldown)
                && (forall i :: 0 <= i < |w.intervals| ==> ValidInterval(AsInterval(w.intervals[i])))
                && PositiveIfPresent(w.totalDistance)
                && PositiveIfPresent(w.estimatedDuration)
  {
  }

  /** Replacing a plan's weeks keeps it valid exactly when the new weeks are valid. */
  lemma WithWeeksValid(p: TrainingPlan, weeks: seq<WeeklyWorkout>)
    requires p.planDurationWeeks > 0
    ensures ValidTrainingPlan(p.(weeklyWorkouts := weeks)) <==>
      forall k :: 0 <= k < |weeks| ==> ValidWeeklyWorkout(weeks[k])
  {
  }
}
