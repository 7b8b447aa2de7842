# Training-plan coach: a Dafny model of its planning core

The coach turns one request (weekly frequency, goal, sports, experience,
time budget, current volume, programme length, limitations) into a
multi-week training plan. A language model drafts the plan. Then one weekly
branch is sent per week of the programme. Each branch drafts its week and
generates one workout per day that is not a rest day. The weekly results are
concatenated by the `planned_workouts` reducer, and the final step writes
that list into the plan.

This project models the code that decides those steps:

- the enumerations (`Enums`, enums.py);
- the Pydantic records as datatypes with validity predicates and defaults (`Schema`, schema.py);
- the graph states: request bounds, the `operator.add` reducer, the weekly sub-graph's input and output projections (`States`, states.py);
- the weekly node: rest-day filtering, the list of per-day calls, order-preserving gather, and replacing `workouts` (`WeeklyNode`, weekly.py);
- the top-level nodes: plan draft, week fan-out directive, plan assembly (`TrainingPlanNode`, training_plan.py);
- one run as `main.py` wires it (`Coach`).

Every language-model call is a field of the record `Backend.Llm`. Each field
is an uninterpreted total function from a prompt record to a schema value.
A prompt record holds exactly the values that the node substitutes into its
instruction template. `Backend.ValidLlm` states that every answer meets its
schema, which is what structured output and the output parser enforce.

The workout prompt has no day field. In the source, every per-day call gets
the same arguments: the weekly state and the drafted week. Because the
oracle is a function of its prompt, all workouts of one week are equal in
the model. In the real system they differ only through the backend's own
nondeterminism.

Merge order of week branches is library behaviour. `Coach.FanIn` takes the
order as a parameter and `Coach.FanInAppendsInOrder` holds for any order.
`Coach.RunCoach` assumes dispatch order (`Coach.DispatchOrder`).

The model follows the code, which is looser than its annotations and field
descriptions suggest:

- The request bounds are declared as annotations on a `TypedDict`, and no
  node checks them. So `RunCoach` runs on every request, and the bounds are
  the predicate `States.ValidRequest`. A programme length below 1 sends no
  weekly branch, so `save_to_json`, which runs only after the branches, never
  runs: the drafted plan stands with the backend's own weeks
  (`Coach.RunCoachNoWeeks`). The request in main.py has
  `current_weekly_volume=0`, outside its `PositiveInt` bound
  (`Coach.ExampleRequestOutOfBounds`).
- schema.py:91 describes `rest_days` as a list of rest days in 1..7, but
  nothing checks that. A week has `7 - |set(rest_days) ∩ {1..7}|` workouts.
  This is `7 - len(rest_days)` exactly when the rest days are distinct and lie
  in 1..7 (`WeeklyNode.DistinctRestDaysCount` and
  `WeeklyNode.LengthCountOnlyForDistinctRestDays`). `WeeklyNode.RepeatedRestDayCountedOnce`
  shows that `[7, 7]` leaves six days.
- Weeks carry no index field, and nothing checks that `plan_duration_weeks`
  (schema.py:104-106) equals the programme length. The position of a week in the plan is its index.
- The interval union has no tag field. Its two classes become two constructors.

## Model

| member | source | states |
|---|---|---|
| `Enums.EffortZoneOf` | coach/models/enums.py:4-9 | an int names a zone iff it lies in 1..5, and then the zone's value is that int |
| `Enums.EffortZoneRoundTrip` | coach/models/enums.py:4-9 | every zone is found again from its value; distinct zones have distinct values |
| `Enums.DistanceUnitOf` | coach/models/enums.py:12-14 | lookup by value is the inverse of `Value()`: it finds a unit with that value, or none exists |
| `Enums.DistanceUnitRoundTrip` | coach/models/enums.py:12-14 | decode(encode(u)) == u for KM ("KILOMETERS") and M ("METERS") |
| `Enums.GoalOf` | coach/models/enums.py:17-25 | lookup by value is the inverse of `Value()` over the six goals |
| `Enums.GoalRoundTrip` | coach/models/enums.py:17-25 | decode(encode(g)) == g |
| `Enums.ExperienceOf` | coach/models/enums.py:28-32 | lookup by value is the inverse of `Value()` over the four levels |
| `Enums.ExperienceRoundTrip` | coach/models/enums.py:28-32 | decode(encode(e)) == e |
| `Enums.SportOf` | coach/models/enums.py:35-41 | lookup by value is the inverse of `Value()` over the four sports |
| `Enums.SportRoundTrip` | coach/models/enums.py:35-41 | decode(encode(s)) == s |
| `Schema.ValidInterval` | coach/models/schema.py:7-25 | an interval is valid iff its distance is at least 1 and each optional estimate is absent or positive |
| `Schema.ValidDrillInterval` | coach/models/schema.py:28-37 | a drill is valid iff its inherited Interval fields are; its description and equipment are unconstrained |
| `Schema.NewInterval` | coach/models/schema.py:7-25 | both estimates default to absent; the interval is then valid iff its distance is positive |
| `Schema.NewDrillInterval` | coach/models/schema.py:28-37 | a drill holds all Interval fields plus its description; equipment defaults to []; valid iff its interval part is |
| `Schema.ValidMainSetInterval` | coach/models/schema.py:48-50 | either member of the main-set union is valid iff its Interval fields are valid |
| `Schema.ValidWorkout` | coach/models/schema.py:40-67 | a workout is valid iff warm-up, cool-down and the Interval part of every main-set element are valid and both optional counts are absent or at least 1 |
| `Schema.NewWorkout` | coach/models/schema.py:40-67 | total distance, estimated duration and intensity focus default to absent; the given fields are kept; valid iff warm-up, cool-down and every main-set element are |
| `Schema.ValidWeeklyWorkout` | coach/models/schema.py:75-95 | a week is valid iff every workout is valid and its volume is absent or at least 1; rest days are unchecked |
| `Schema.NewWeeklyWorkout` | coach/models/schema.py:75-95 | rest days default to [] and volume and focus to absent; valid iff every workout is valid |
| `Schema.ValidTrainingPlan` | coach/models/schema.py:98-113 | a valid plan has a duration of at least 1 week and only valid workouts in every week |
| `Schema.NewTrainingPlan` | coach/models/schema.py:98-113 | the progression strategy defaults to absent; the plan is valid iff its duration is positive and every week is valid |
| `Schema.ValidTrainingPlanNested` | coach/models/schema.py:40-113 | a plan is valid iff its duration is positive and every week, workout and interval in it is valid |
| `Schema.WithWeeksValid` | coach/models/schema.py:98-113 | replacing a plan's weeks keeps it valid exactly when the new weeks are valid |
| `States.ValidRequest` | coach/models/states.py:14-28 | the declared bounds: 1..7 sessions a week, current volume at least 1, 1..12 weeks, so the fan-out range has 1 to 12 elements |
| `States.InitialState` | coach/models/states.py:44-64 | a run starts with no plan and an empty `planned_workouts`; the state's bounds are the request's |
| `States.Add` | coach/models/states.py:64 | the reducer's result has the summed length, the old list as prefix and the new list as suffix |
| `States.AddMonoid` | coach/models/states.py:64 | the reducer is associative with [] as identity |
| `States.AddKeepsEveryElement` | coach/models/states.py:64 | the reducer neither drops, reorders nor deduplicates elements |
| `States.ApplyPlanUpdate` | coach/models/states.py:63-64 | `training_plan` is overwritten when written; `planned_workouts` is appended to; the request is untouched |
| `States.ApplyWeekWrites` | coach/models/states.py:64 | successive `planned_workouts` writes keep the request and the plan and only extend what was accumulated |
| `States.ApplyWeekWritesAppends` | coach/models/states.py:64 | applying k writes in turn leaves the plan alone and appends their concatenation, in order |
| `States.ProjectWeeklyInput` | coach/models/states.py:67-75 | the weekly sub-graph starts from just `week_index` and `current_training_plan` |
| `States.ApplyWeeklyUpdate` | coach/models/states.py:67-70 | in the weekly state, `planned_workouts` has no reducer, so a write replaces it |
| `States.ProjectWeeklyOutput` | coach/models/states.py:78-79 | the weekly sub-graph hands back only `planned_workouts` |
| `WeeklyNode.WeekPromptOf` | coach/nodes/weekly.py:27-32 | the weekly prompt holds the week index and the plan's duration, description and progression strategy |
| `WeeklyNode.WeekPromptIgnoresWeeks` | coach/nodes/weekly.py:27-32 | the weekly prompt does not depend on the plan's weeks or on what the branch has accumulated |
| `WeeklyNode.WorkoutPromptOf` | coach/nodes/weekly.py:79-87 | the workout prompt holds the week index, the week's description, focus and volume, and the plan's description and progression |
| `WeeklyNode.WorkoutPromptIgnoresSchedule` | coach/nodes/weekly.py:79-87 | the workout prompt does not depend on the week's workouts, rest days or name, so no call learns its day |
| `WeeklyNode.DraftWeek` | coach/nodes/weekly.py:17-43 | the drafted week is schema-valid when the backend is |
| `WeeklyNode.GenerateIndividualWorkout` | coach/nodes/weekly.py:60-120 | a generated workout is schema-valid when the backend is |
| `WeeklyNode.NotIn` | coach/nodes/weekly.py:46-50 | the filter keeps exactly the elements not in the rest list, and keeps an increasing list increasing |
| `WeeklyNode.ActiveDays` | coach/nodes/weekly.py:46-50 | scheduled days are exactly the days 1..7 not in `rest_days`, in increasing order |
| `WeeklyNode.ActiveDayCount` | coach/nodes/weekly.py:46-50 | the number of scheduled days is 7 minus the number of distinct rest days in 1..7 |
| `WeeklyNode.ActiveDaysDependOnlyOnRestSet` | coach/nodes/weekly.py:46-50 | duplicate or out-of-range rest days do not change the schedule |
| `WeeklyNode.AllRestDaysScheduleNothing` | coach/nodes/weekly.py:46-54 | if the rest days cover 1..7, nothing is scheduled |
| `WeeklyNode.DistinctRestDaysCount` | coach/nodes/weekly.py:46-50 | for distinct rest days inside 1..7 the count is 7 - len(rest_days) |
| `WeeklyNode.LengthCountOnlyForDistinctRestDays` | coach/nodes/weekly.py:46-50 | if the count is 7 - len(rest_days), the rest days are distinct and all lie in 1..7 |
| `WeeklyNode.RepeatedRestDayCountedOnce` | coach/nodes/weekly.py:46-50 | `[7, 7]` schedules six days, not 7 - len(rest_days) = 5 |
| `WeeklyNode.CallsFor` | coach/nodes/weekly.py:46-50 | one call per listed day, each with the same state and draft and no day |
| `WeeklyNode.ScheduleWorkouts` | coach/nodes/weekly.py:46-50 | the coroutine list has 7 minus the number of distinct rest days in 1..7 calls, all with the same arguments |
| `WeeklyNode.Gather` | coach/nodes/weekly.py:53 | the gathered list has one result per call, result j being that of call j |
| `WeeklyNode.GenerateHighLevelWeeklyPlan` | coach/nodes/weekly.py:17-58 | writes a one-week `planned_workouts`; the week is the draft with only `workouts` replaced, one workout per non-rest day; valid when the backend is |
| `TrainingPlanNode.PlanPromptOf` | coach/nodes/training_plan.py:21-43 | the plan prompt carries every request key and nothing else: the request is rebuilt from it, the goal from its value |
| `TrainingPlanNode.DraftPlan` | coach/nodes/training_plan.py:15-55 | the drafted plan is schema-valid when the backend is |
| `TrainingPlanNode.GenerateHighLevelTrainingPlan` | coach/nodes/training_plan.py:15-57 | the update writes the drafted plan under `training_plan` and no other key |
| `TrainingPlanNode.InitiateWeeklyWorkoutPlanning` | coach/nodes/training_plan.py:59-71 | exactly `programme_length` sends, the k-th to "plan_weekly_workouts" with week index k+1 and the state's plan unchanged |
| `TrainingPlanNode.WeekFanOutIndices` | coach/nodes/training_plan.py:59-71 | sent week indices are strictly increasing and are exactly 1..programme_length |
| `TrainingPlanNode.SaveToJson` | coach/nodes/training_plan.py:73-85 | the plan's weeks become `planned_workouts`, every other plan field is kept, and only `training_plan` is written |
| `TrainingPlanNode.SaveToJsonValid` | coach/nodes/training_plan.py:73-85 | saving valid weeks into a valid plan gives a valid plan |
| `Coach.RunWeeklyGraph` | coach/main.py:28-43 | the weekly sub-graph's output is the update of its one node run on the projected payload |
| `Coach.CompletedWeekRestDays` | coach/nodes/weekly.py:43-58 | a branch's week keeps the drafted rest days and has one workout per non-rest day |
| `Coach.RunBranches` | coach/main.py:68-72 | one branch result per send, each computed from that send's payload alone |
| `Coach.FanIn` | coach/main.py:73 | the barrier's merge changes neither the request nor the plan |
| `Coach.FanInAppendsInOrder` | coach/models/states.py:64 | merging n one-week results in a given order appends n weeks in that order |
| `Coach.DispatchOrder` | coach/main.py:68-73 | the assumed merge order lists branch k at position k |
| `Coach.RunCoach` | coach/main.py:67-74 | a run keeps the request and ends with a plan written; it saves only when the fan-out sent a branch |
| `Coach.RunCoachNoWeeks` | coach/main.py:67-74 | with a programme length below 1 the plan stays as drafted and `planned_workouts` stays empty |
| `Coach.RunCoachWeeks` | coach/nodes/training_plan.py:59-78 | with a programme length of at least 1 the final plan has `programme_length` weeks, the k-th from the branch for week k+1; other fields as drafted; equals `planned_workouts` |
| `Coach.RunCoachValid` | coach/models/schema.py:98-113 | with a schema-valid backend the final plan is valid, saved or as drafted |
| `Coach.RunCoachWorkoutCounts` | coach/nodes/weekly.py:46-54 | for each week index below a programme length of at least 1, the plan has that many weeks and the week of the final plan has 7 minus the number of distinct rest days in 1..7 workouts |
| `Coach.RunCoachValidRequestWeeks` | coach/models/states.py:57-59 | for a request within bounds the plan has 1 to 12 weeks |
| `Coach.ExampleRequest` | coach/main.py:91-103 | the request main.py runs with; of its fields only the current weekly volume of 0 breaks a bound |
| `Coach.ExampleRequestOutOfBounds` | coach/main.py:91-103 | the example request breaks the volume bound, and the run still plans ten weeks |
| `Coach.TwoWeekScenario` | coach/nodes/weekly.py:46-58 | two weeks resting on [7] and on [1, 4] give six and five workouts |

## Left out

- Language-model calls: `with_structured_output`, `ainvoke`, the output parser and prompt chaining are foreign calls. They are the oracle record `Backend.Llm`. Timeouts and backend errors are not modelled.
- Backend nondeterminism: the oracle is a function of its prompt, so two calls with equal prompts return equal workouts in the model.
- Prompt templates and their `str.format` text: only the substituted values are kept, as prompt records.
- The JSON file write in `save_to_json`: this is I/O. `SaveToJson` is the plan assembly before it.
- The rate limiter in coach/models/dependencies.py: a library object with float rates and time-based checks. Its code is not part of this model.
- Concurrency: `asyncio.gather` and parallel `Send` execution are sequential maps. The failure of one branch, cancellation, and what happens to sibling branches are not modelled.
- Engine merge order: taken as dispatch order in `RunCoach`, and as a parameter in `FanIn`.
- In-place mutation: `structured_results.workouts = ...` and `current_plan.weekly_workouts = ...` become value updates of a datatype. Aliasing is not modelled. Both objects are reached only through the update the node returns, except that `save_to_json` also changes the plan object already held in the state. That object is replaced by the same value when the update applies.
- Float fields (`PositiveFloat`): only their positivity is modelled, as `real > 0`.
- Pydantic parsing: how a JSON answer is decoded, including which member of the interval union is chosen, is library behaviour. The model starts from decoded values.
- `TrainingPlanOutput` (states.py:34-41) and `WorkoutState` (states.py:82-84): neither is used by the nodes modelled here. `TrainingPlanOutput` shares no key with the top-level state, so the model returns the final state itself.
- The declared type of `injuries_or_limitations` is optional in the request and a list in the state. The model keeps it optional in both, since nothing converts it.
- Process bootstrap, event streaming and environment loading in main.py.
