/** The generation backend, seen from the nodes. Each backend call is an
    uninterpreted total function from the values substituted into its prompt
    to a schema value. A prompt record holds exactly the variables its
    instruction template is formatted with; the fixed template text, the fixed
    human message and the parser's format instructions are the same on every
    call and are left out. */
module Backend {
  import opened Util
  import opened Enums
  import opened Schema

  /** Variables of the high-level plan instructions. */
  datatype PlanPrompt = PlanPrompt(
    goal: string,
    sports: seq<Sport>,
    experience: Experience,
    workoutsPerWeek: int,
    availableTimePerSession: int,
    currentWeeklyVolume: int,
    injuriesOrLimitations: Option<seq<string>>,
    programmeLength: int)

  /** Variables of the high-level weekly plan instructions. */
  datatype WeekPrompt = WeekPrompt(
    weekIndex: int,
    planDurationWeeks: int,
    planDescription: string,
    progressionStrategy: Option<string>)

  /** Variables of the individual-workout instructions. There is no day field:
      the day a workout is for never reaches its prompt. */
  datatype WorkoutPrompt = WorkoutPrompt(
    weekIndex: int,
    weeklyWorkoutDescription: string,
    weeklyFocus: Option<string>,
    planDescription: string,
    progressionStrategy: Option<string>,
    totalWeeklyVolume: Option<int>)

  /** The three kinds of call: structured output as a TrainingPlan, structured
      output as a WeeklyWorkout, and a model call parsed into a Workout. */
  datatype Llm = Llm(
    plan: PlanPrompt -> TrainingPlan,
    week: WeekPrompt -> WeeklyWorkout,
    workout: WorkoutPrompt -> Workout)

  /** Structured output and the output parser both validate the answer against
      its Pydantic schema, so every value a call returns meets the schema's rules. */
  ghost predicate ValidLlm(llm: Llm)
  {
    && (forall p :: ValidTrainingPlan(llm.plan(p)))
    && (forall p :: ValidWeeklyWorkout(llm.week(p)))
    && (forall p :: ValidWorkout(llm.workout(p)))
  }
}
