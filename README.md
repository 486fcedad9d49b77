# NextRep training core in Dafny

NextRep is an Android training log. Its user builds workout plans: named lists of
exercises, each with a default series count, target reps and target RIR. They train
from those plans by filling in each set and ticking exercises off. Finishing a
workout scores it and extends the adherence streak.

This project models the logic under the screens and proves properties of it:

- **Training records** (`training_models.dfy`, module `TrainingModels`): sets, exercises and workouts as datatypes, with the defaults a new record gets. Also included are the fields the rest of the code uses but the record file does not show: scheduled days, completion date, exercise type, series/reps/RIR defaults, time input and the day names.
- **Kotlin text helpers** (`kotlin_text.dfy`, module `KotlinText`): nullable results as `Option`, `isBlank` over the JVM whitespace set, and `toIntOrNull` over ASCII digits with the 32-bit `Int` range.
- **Scoring strategies** (`scoring.dfy`, module `Scoring`): Volume (the sum of weight × reps) and Feeling (the sum of weight × reps × 1.2 over sets whose weight and reps are both positive).
  - The source's nested accumulation loops are the method `CalculateScore`, proved equal to a recursive specification `Score`.
  - Properties of `Score` are proved as lemmas.
- **Streak calculator** (`streak.dfy`, module `StreakCalculator`): the backward walk over at most 365 days.
  - It is a `for` loop with an early `return`, proved equal to a declarative definition: the number of completed days from today back to the latest scheduled-but-missed day before today.
  - Both scenarios of the source's unit tests are proved, for any time of day.
- **Workout view model** (`view_model.dfy`, module `Presentation`): a class holding the training list, the plan list, the streak and an identity counter. Its operations are:
  - saving a plan, which regenerates the sets and then replaces or appends the plan;
  - removing a plan;
  - toggling an exercise;
  - finishing a workout, guarded so that it fires once.

  Validation of an exercise's inputs is a function. Each state change is tied to a pure function, with lemmas about that function.

### How the source's terms map to the model

- **Identities.** A random UUID becomes an `Id`. The view model draws the identities of new plans and new sets from a counter. The class invariant `Valid()` keeps plan identities distinct and every workout identity in either list below the counter, so a new plan's identity is provably new. Exercise and set identities are outside the invariant (see "## Left out").
- **Calendar days.** The calendar date key (year and day of year) becomes a day number counted from 1970-01-01. "Truncated to midnight" becomes `millis / 86400000`. The weekday is `(day + 4) % 7 + 1` in `Calendar`'s numbering (1 is Sunday).
- **Decimal parsing.** `toDoubleOrNull` is a parameter of type `DoubleParser`: any function from text to `Option<real>` that does not parse blank text.
- **The workouts/plans aliasing.** After a save or a remove, the source makes the training list the plan list itself. The invariant `plans == [] || workouts == plans` records this, and every later update is applied to both lists.
- **Mutable cells.** A record updated in place through its `MutableState` cells is a new value. It replaces every record with the same identity in both lists.
- **The repository.** `getAllWorkouts()` becomes the constructor's argument. `saveWorkout` appends to the ghost log `saved`.
- **The initial streak.** The hard-coded initial streak of 12 becomes a constructor argument.

### Behaviour of the source worth noting

- The scoring code hands the input text to `toDoubleOrNull` unchanged, with no comma-to-point normalisation. The model passes the text unchanged to its parser parameter too, and leaves what that parser accepts open.
- `finishWorkout` marks the workout completed and scores it, and sets no completion date. A workout finished through the view model therefore never feeds the streak calculator.
- The scoring code calls `toDoubleOrNull` on `set.weightInput`, which the record declares as a `MutableState<String>`. The model reads the text the cell holds.

## Model

| member | source | states |
|---|---|---|
| KotlinText.ToIntOrNull | app/src/main/java/com/example/nextrep/domain/logic/ScoringStrategy.kt:21 | a parsed value lies in the `Int` range and the text starts with a digit or a sign; blank text never parses |
| KotlinText.IsBlank | app/src/main/java/com/example/nextrep/presentation/WorkoutViewModel.kt:95-97 | `isBlank()`: the text is empty or made only of whitespace characters |
| KotlinText.ToIntOrNullInvertsIntToString | app/src/main/java/com/example/nextrep/presentation/WorkoutViewModel.kt:37 | every `Int` written in decimal reads back as itself |
| TrainingModels.NewExerciseSet | app/src/main/java/com/example/nextrep/domain/models/TrainingModels.kt:11-20 | a set built from its identity, number and targets: a working set with blank weight, reps and time and not completed |
| TrainingModels.NewExercise | app/src/main/java/com/example/nextrep/domain/models/TrainingModels.kt:22-27 | an exercise built from its identity, name, type and defaults: no sets and not completed |
| TrainingModels.NewWorkout | app/src/main/java/com/example/nextrep/domain/models/TrainingModels.kt:29-38 | a workout built from its identity, name, description, days and exercises: not completed, score 0.0, no completion date |
| TrainingModels.NewRecordsStartBlank | app/src/main/java/com/example/nextrep/domain/models/TrainingModels.kt:11-38 | a new set is a working set with blank weight and reps and not completed; a new exercise has no sets and is not completed; a new workout has no exercises or days, is not completed, scores 0.0 and has no completion date |
| Scoring.Weight | app/src/main/java/com/example/nextrep/domain/logic/ScoringStrategy.kt:20 | a set's weight: its weight input as parsed by `toDoubleOrNull`, or 0.0 when that gives null |
| Scoring.Reps | app/src/main/java/com/example/nextrep/domain/logic/ScoringStrategy.kt:21 | a set's reps: its reps input as parsed by `toIntOrNull`, or 0 when that gives null |
| Scoring.ScoringStrategy.SetPoints | app/src/main/java/com/example/nextrep/domain/logic/ScoringStrategy.kt:20-23 | what one set adds: weight × reps for Volume; for Feeling weight × reps × 1.2 when both are positive and 0 otherwise |
| Scoring.ScoringStrategy.SetsTotal | app/src/main/java/com/example/nextrep/domain/logic/ScoringStrategy.kt:19-24 | the sum of `SetPoints` over a list of sets, in order |
| Scoring.ScoringStrategy.ExercisesTotal | app/src/main/java/com/example/nextrep/domain/logic/ScoringStrategy.kt:18-25 | the sum of `SetsTotal` over the exercises' set lists, in order |
| Scoring.ScoringStrategy.Score | app/src/main/java/com/example/nextrep/domain/logic/ScoringStrategy.kt:15-45 | the workout's score: `ExercisesTotal` over its exercises, starting from 0.0 |
| Scoring.ScoringStrategy.CalculateScore | app/src/main/java/com/example/nextrep/domain/logic/ScoringStrategy.kt:15-46 | the nested loops over exercises and sets compute exactly `Score`, the sum of the strategy's points over every set of every exercise; the workout is only read |
| Scoring.UnparsedSetAddsNothing | app/src/main/java/com/example/nextrep/domain/logic/ScoringStrategy.kt:20-21 | a set whose weight or reps does not parse (blank included) adds 0 under either strategy |
| Scoring.FeelingSetNonNegative | app/src/main/java/com/example/nextrep/domain/logic/ScoringStrategy.kt:39-41 | no set adds a negative amount to a Feeling score |
| Scoring.FeelingSetsNonNegative | app/src/main/java/com/example/nextrep/domain/logic/ScoringStrategy.kt:39-41 | the Feeling total of any list of sets is at least 0 |
| Scoring.FeelingNeverNegative | app/src/main/java/com/example/nextrep/domain/logic/ScoringStrategy.kt:39-41 | the Feeling score of any workout is at least 0 |
| Scoring.OneSetScore | app/src/main/java/com/example/nextrep/domain/logic/ScoringStrategy.kt:17-27 | a workout of one exercise with one set scores that set's points |
| Scoring.VolumeCanBeNegative | app/src/main/java/com/example/nextrep/domain/logic/ScoringStrategy.kt:20-23 | a set of -10 × 5 scores -50 by Volume and 0 by Feeling |
| Scoring.FeelingSetsScaleVolume | app/src/main/java/com/example/nextrep/domain/logic/ScoringStrategy.kt:39-41 | over sets that are all positive, Feeling totals 1.2 × Volume |
| Scoring.FeelingIsVolumeTimesOnePointTwo | app/src/main/java/com/example/nextrep/domain/logic/ScoringStrategy.kt:15-45 | when every set of every exercise has positive weight and reps, Feeling = 1.2 × Volume |
| Scoring.SetsWithoutPointsTotalZero | app/src/main/java/com/example/nextrep/domain/logic/ScoringStrategy.kt:17-26 | sets that each add 0 total 0 |
| Scoring.UnparsedSetsScoreZero | app/src/main/java/com/example/nextrep/domain/logic/ScoringStrategy.kt:17-27 | a workout whose every set lacks a parsable weight or reps scores 0 under both strategies; so does one with no exercises or only empty exercises |
| Scoring.OneSetExample | app/src/main/java/com/example/nextrep/domain/logic/ScoringStrategy.kt:15-46 | 100 × 5 scores 500 by Volume and 600 by Feeling; with blank reps it scores 0 under both |
| StreakCalculator.DayOf | app/src/test/java/com/example/nextrep/StreakCalculatorTest.kt:16-31 | the calendar day of a time in epoch milliseconds (a completion date, or now truncated to midnight), as a day number in place of the "year-dayOfYear" key |
| StreakCalculator.CalendarDayOfWeek | app/src/test/java/com/example/nextrep/StreakCalculatorTest.kt:35 | the weekday number of a day lies between 1 and 7 |
| StreakCalculator.CalendarDayToDayOfWeek | app/src/test/java/com/example/nextrep/StreakCalculatorTest.kt:53-64 | `Calendar` constants 2..7 map to Monday..Saturday, 1 to Sunday, anything else to Sunday |
| StreakCalculator.Weekday | app/src/test/java/com/example/nextrep/StreakCalculatorTest.kt:35 | the weekday of a day number: its `Calendar` weekday mapped through `CalendarDayToDayOfWeek` |
| StreakCalculator.CalendarDayMappingRoundTrip | app/src/test/java/com/example/nextrep/StreakCalculatorTest.kt:53-64 | `calendarDayToDayOfWeek` is a bijection from the seven `Calendar` weekday constants onto `DayOfWeek` |
| StreakCalculator.CompletedDays | app/src/test/java/com/example/nextrep/StreakCalculatorTest.kt:13-19 | a day is in the set exactly when some record is completed, has a completion date, and that date falls on the day |
| StreakCalculator.ScheduledWeekdays | app/src/test/java/com/example/nextrep/StreakCalculatorTest.kt:21 | a weekday is in the set exactly when some record schedules it |
| StreakCalculator.MissedAt | app/src/test/java/com/example/nextrep/StreakCalculatorTest.kt:36-44 | the day that many days back is scheduled by weekday and was not completed |
| StreakCalculator.FirstMiss | app/src/test/java/com/example/nextrep/StreakCalculatorTest.kt:39-48 | the walk's stopping offset: a scheduled, uncompleted day, or the end of the 365-day window; no day before it stops the walk, so rest days and completed days pass |
| StreakCalculator.CompletedWithin | app/src/test/java/com/example/nextrep/StreakCalculatorTest.kt:39-40 | the walk adds at most one per day visited |
| StreakCalculator.Streak | app/src/test/java/com/example/nextrep/StreakCalculatorTest.kt:24-50 | the streak lies between 0 and 365 |
| StreakCalculator.CalculateStreak | app/src/test/java/com/example/nextrep/StreakCalculatorTest.kt:12-51 | the loop with its early return and its `break` computes `Streak`: the completed days among today and the days back to the first missed day before today |
| StreakCalculator.FirstMissIs | app/src/test/java/com/example/nextrep/StreakCalculatorTest.kt:41-44 | a scheduled, uncompleted day before today, with no such day nearer today, is where the walk stops |
| StreakCalculator.NoneCompletedWithin | app/src/test/java/com/example/nextrep/StreakCalculatorTest.kt:39-40 | a stretch with no completed day counts 0 |
| StreakCalculator.NothingCompletedNoStreak | app/src/test/java/com/example/nextrep/StreakCalculatorTest.kt:21-22 | with no completed record the streak is 0, so the early return only shortcuts the walk |
| StreakCalculator.CompletedWithinIsCardinality | app/src/test/java/com/example/nextrep/StreakCalculatorTest.kt:33-40 | the walk's count over n days is the number of distinct completed days among them |
| StreakCalculator.StreakCountsCompletedDaysSinceLastMiss | app/src/test/java/com/example/nextrep/StreakCalculatorTest.kt:33-50 | if the day `stop` days back is the latest missed day before today (or the window ends there), the streak is the number of distinct completed days after it, up to and including today |
| StreakCalculator.AllCompletedWithin | app/src/test/java/com/example/nextrep/StreakCalculatorTest.kt:39-40 | n completed days in a row count n |
| StreakCalculator.CompletedWithinGrows | app/src/test/java/com/example/nextrep/StreakCalculatorTest.kt:33-40 | looking further back never lowers the count |
| StreakCalculator.ConsecutiveCompletionsCount | app/src/test/java/com/example/nextrep/StreakCalculatorTest.kt:39-40 | a completed day counts whether or not it is scheduled: n completed days ending today give a streak of at least n |
| StreakCalculator.PendingTodayKeepsYesterday | app/src/test/java/com/example/nextrep/StreakCalculatorTest.kt:41-44 | today being due and not done does not end the walk: a completed yesterday still counts |
| StreakCalculator.SameDayCompletionCountsOnce | app/src/test/java/com/example/nextrep/StreakCalculatorTest.kt:13-19 | one more completion on an already completed day, by a record that schedules no new weekday, leaves the streak unchanged |
| StreakCalculator.DayOfWithinDay | app/src/test/java/com/example/nextrep/StreakCalculatorTest.kt:25-31 | every time of a day truncates to that day |
| StreakCalculator.RestDayHistoryDays | app/src/test/java/com/example/nextrep/StreakCalculatorTest.kt:81-90 | the rest-day history completes Monday and Wednesday and schedules Monday, Wednesday and Friday |
| StreakCalculator.RestDayWalk | app/src/test/java/com/example/nextrep/StreakCalculatorTest.kt:33-49 | the rest-day walk passes the rest Thursday and counts two completed days before the missed Friday |
| StreakCalculator.RestDayKeepsStreak | app/src/test/java/com/example/nextrep/StreakCalculatorTest.kt:66-94 | Mon/Wed/Fri scheduled, Monday and Wednesday done, today Thursday: the streak is 2 |
| StreakCalculator.MissedDayBreaksStreak | app/src/test/java/com/example/nextrep/StreakCalculatorTest.kt:96-119 | Mon/Wed scheduled, only Monday done, today Thursday: the streak is 0 |
| Presentation.DayDescription | app/src/main/java/com/example/nextrep/presentation/WorkoutViewModel.kt:57 | `joinToString(", ")` over the days' Polish names: empty for no days, the names separated by ", " otherwise |
| Presentation.SeriesCount | app/src/main/java/com/example/nextrep/presentation/WorkoutViewModel.kt:37 | `defaultSeries.toIntOrNull() ?: 1` |
| Presentation.SetsToGenerate | app/src/main/java/com/example/nextrep/presentation/WorkoutViewModel.kt:37-39 | how many sets `for (i in 1..count)` makes: `count` when positive, otherwise none |
| Presentation.DayDescriptionJoins | app/src/main/java/com/example/nextrep/presentation/WorkoutViewModel.kt:57 | the day description of two runs of days is their descriptions joined by ", " |
| Presentation.FreshSets | app/src/main/java/com/example/nextrep/presentation/WorkoutViewModel.kt:37-45 | the sets generated for an exercise: `SetsToGenerate` numbered sets with its default reps and RIR, identities from the given one on |
| Presentation.Regenerated | app/src/main/java/com/example/nextrep/presentation/WorkoutViewModel.kt:46-47 | the exercise with its set list replaced by its generated sets |
| Presentation.NumberedSets | app/src/main/java/com/example/nextrep/presentation/WorkoutViewModel.kt:39-45 | the loop over `1..count` yields `count` sets |
| Presentation.NumberedSetsAt | app/src/main/java/com/example/nextrep/presentation/WorkoutViewModel.kt:39-45 | set j carries number j + 1, the j-th fresh identity, and the exercise's target reps and RIR |
| Presentation.FreshSetsShape | app/src/main/java/com/example/nextrep/presentation/WorkoutViewModel.kt:37-45 | an exercise gets as many sets as its series count (1 when it does not parse, none when not positive), each a new working set numbered from 1 |
| Presentation.WithFreshSets | app/src/main/java/com/example/nextrep/presentation/WorkoutViewModel.kt:36-48 | set generation keeps the number of exercises |
| Presentation.WithFreshSetsStep | app/src/main/java/com/example/nextrep/presentation/WorkoutViewModel.kt:36-48 | regenerating the exercises one at a time, in order, yields the whole list and uses the identities the whole list needs |
| Presentation.WithFreshSetsAt | app/src/main/java/com/example/nextrep/presentation/WorkoutViewModel.kt:36-48 | exercise k comes out as itself with freshly generated sets |
| Presentation.SavedPlanSets | app/src/main/java/com/example/nextrep/presentation/WorkoutViewModel.kt:36-48 | each exercise gets n sets numbered 1..n, where n is the series count parsed as an `Int`, 1 if it does not parse, and no sets if n ≤ 0; each set is a working set carrying the target reps and RIR, with blank inputs, not completed; nothing else about the exercise changes |
| Presentation.IndexOfFirst | app/src/main/java/com/example/nextrep/presentation/WorkoutViewModel.kt:51 | -1 exactly when no plan has the identity; otherwise the first position holding it |
| Presentation.UpsertPlan | app/src/main/java/com/example/nextrep/presentation/WorkoutViewModel.kt:50-75 | the plan list after saving: the first plan with the given identity replaced at its index by a copy with the new name, description, days and exercises; otherwise a new plan with a fresh identity appended |
| Presentation.UpsertReplacesExisting | app/src/main/java/com/example/nextrep/presentation/WorkoutViewModel.kt:53-72 | saving under an existing identity replaces that plan at its index; the new name, description, days and exercises are set while the identity, completion and score are kept; the length is unchanged, as is every other plan |
| Presentation.UpsertAppendsNew | app/src/main/java/com/example/nextrep/presentation/WorkoutViewModel.kt:61-75 | with no identity, or an unknown one, a new unfinished plan with a fresh identity is appended; the list grows by one and keeps the old plans in order |
| Presentation.UpsertKeepsIdsUnique | app/src/main/java/com/example/nextrep/presentation/WorkoutViewModel.kt:50-75 | saving keeps plan identities distinct |
| Presentation.RemoveById | app/src/main/java/com/example/nextrep/presentation/WorkoutViewModel.kt:84 | removal never lengthens the list |
| Presentation.RemoveByIdMembers | app/src/main/java/com/example/nextrep/presentation/WorkoutViewModel.kt:84 | a plan survives removal exactly when its identity differs from the one removed |
| Presentation.RemoveByIdSplits | app/src/main/java/com/example/nextrep/presentation/WorkoutViewModel.kt:84 | removal distributes over concatenation, so the surviving plans keep their order |
| Presentation.RemoveAbsentKeepsAll | app/src/main/java/com/example/nextrep/presentation/WorkoutViewModel.kt:84 | removing an identity nobody has changes nothing |
| Presentation.RemoveByIdKeepsIdsUnique | app/src/main/java/com/example/nextrep/presentation/WorkoutViewModel.kt:84 | removal keeps plan identities distinct |
| Presentation.ToggledExercises | app/src/main/java/com/example/nextrep/presentation/WorkoutViewModel.kt:88-90 | the exercises with the completion flag of the one with that identity negated |
| Presentation.ToggledIn | app/src/main/java/com/example/nextrep/presentation/WorkoutViewModel.kt:88-90 | every workout with `ToggledExercises` applied to its exercises |
| Presentation.ToggleNegatesOnlyThatFlag | app/src/main/java/com/example/nextrep/presentation/WorkoutViewModel.kt:88-90 | toggling negates that exercise's flag and changes nothing else |
| Presentation.ToggleTwiceRestores | app/src/main/java/com/example/nextrep/presentation/WorkoutViewModel.kt:88-90 | toggling twice restores every workout |
| Presentation.CanFinish | app/src/main/java/com/example/nextrep/presentation/WorkoutViewModel.kt:106 | the guard: every exercise completed and the workout not |
| Presentation.Finished | app/src/main/java/com/example/nextrep/presentation/WorkoutViewModel.kt:107-108 | the workout marked completed with the given total score |
| Presentation.ReplaceById | app/src/main/java/com/example/nextrep/presentation/WorkoutViewModel.kt:107-108 | every record with that identity replaced by the finished one, the records that are one object in the source |
| Presentation.FinishFiresOnce | app/src/main/java/com/example/nextrep/presentation/WorkoutViewModel.kt:105-111 | a workout that passes the guard no longer passes it once finished; its identity and exercises are kept |
| Presentation.ReplaceByIdMakesCurrent | app/src/main/java/com/example/nextrep/presentation/WorkoutViewModel.kt:105-108 | after a record is changed in place, it is what every list holding it holds under its identity, and no other identity moves |
| Presentation.SetFilled | app/src/main/java/com/example/nextrep/presentation/WorkoutViewModel.kt:94-97 | a set of a timed exercise has a non-blank time; any other set has non-blank weight and reps |
| Presentation.MissingInputMessage | app/src/main/java/com/example/nextrep/presentation/WorkoutViewModel.kt:95-98 | "Uzupełnij czas dla: " for a timed exercise, "Uzupełnij wszystkie serie w: " otherwise, followed by the exercise's name |
| Presentation.FirstUnfilled | app/src/main/java/com/example/nextrep/presentation/WorkoutViewModel.kt:93-101 | the position of the first set lacking its input, and none exactly when every set is filled |
| Presentation.ValidateExercise | app/src/main/java/com/example/nextrep/presentation/WorkoutViewModel.kt:92-103 | `null` exactly when every set has a non-blank time (timed exercises) or non-blank weight and reps (others); otherwise the message for its type, ending in the exercise's name |
| Presentation.IdBound | app/src/main/java/com/example/nextrep/domain/models/TrainingModels.kt:30 | the least bound above every workout identity in the loaded list, so workout identities drawn from it are fresh; exercise and set identities are not bounded |
| Presentation.WorkoutViewModel.constructor | app/src/main/java/com/example/nextrep/presentation/WorkoutViewModel.kt:13-31 | the training list is the repository's workouts; the plan list is empty; the streak starts at the given value; scoring is by volume |
| Presentation.WorkoutViewModel.GenerateSets | app/src/main/java/com/example/nextrep/presentation/WorkoutViewModel.kt:37-45 | the loop over `1..count` builds exactly the generated sets and draws one identity per set |
| Presentation.WorkoutViewModel.RegenerateSets | app/src/main/java/com/example/nextrep/presentation/WorkoutViewModel.kt:36-48 | the `forEach` over the exercises builds exactly the regenerated list and draws one identity per generated set |
| Presentation.WorkoutViewModel.AddWorkoutPlan | app/src/main/java/com/example/nextrep/presentation/WorkoutViewModel.kt:34-81 | the plan list becomes the upsert of the plan built from the regenerated exercises; the training list becomes that same list; the streak and saved log are unchanged; the invariant is kept |
| Presentation.WorkoutViewModel.RemoveWorkoutPlan | app/src/main/java/com/example/nextrep/presentation/WorkoutViewModel.kt:83-86 | both lists become the plans without that identity; the invariant is kept |
| Presentation.WorkoutViewModel.ToggleExerciseCompletion | app/src/main/java/com/example/nextrep/presentation/WorkoutViewModel.kt:88-90 | that exercise's flag is negated in both lists; nothing else changes |
| Presentation.WorkoutViewModel.FinishWorkout | app/src/main/java/com/example/nextrep/presentation/WorkoutViewModel.kt:105-112 | given the record the lists hold, when every exercise is done and the workout is not, it becomes completed with its Volume score in both lists, the streak grows by exactly 1 and it is saved once; otherwise nothing changes. The finished record is returned as the caller's object now is: it is what the lists hold and fails the guard, so a second call with it changes nothing |

## Left out

- Presentation.WorkoutViewModel.FinishWorkout: `_streak` is a 32-bit `Int` in the source and wraps after 2^31 - 1; the model's streak is unbounded.
- Presentation.WorkoutViewModel.FinishWorkout: the source changes the object it is given, so the model requires the argument to be the record both lists hold under its identity and returns the finished record in place of the caller's updated object. A caller holding an out-of-date copy (one kept from before a `copy` at WorkoutViewModel.kt:55 replaced the plan, say) is outside the model; the screens do not pass one (WorkoutScreenContent.kt:38,90 pass the listed record).
- Exercise and set identities are not part of `Valid()`. Set identities drawn from the counter for one exercise are distinct (`NumberedSetsAt` gives set k the identity `firstId + k`); they are not shown to differ across the exercises of one save, nor from set identities already in the lists. Exercise identities come from the caller. `ToggleExerciseCompletion` finds an exercise by identity. Exercises with one identity are either one object or copies made by `copy()` (AddWorkoutScreen.kt:159), and such copies share the one `isCompleted` cell, so flipping every exercise with that identity matches the source's flip of the cell.
- KotlinText.ToIntOrNull: accepts ASCII digits only; Kotlin also accepts the decimal digits of other scripts.
- `toDoubleOrNull` is abstract (a parameter). The model only fixes that blank text does not parse; the JVM's full floating-point grammar and `Double` rounding are not modelled, and weights are exact reals.
- Time zones and daylight saving time. A day is 86400000 ms counted in UTC; the source's `Calendar` uses the device's zone, and "year-dayOfYear" keys are replaced by day numbers (a one-to-one change).
- Aliasing of mutable records. In the source, plans and the exercises passed to `addWorkoutPlan` share mutable set lists and flag cells. When an exercise object is shared by several plans, regenerating its sets changes every one of them. Toggling an exercise object that is in neither list changes it only for its holder. The model updates records by identity in the two lists only.
- `addWorkoutPlan` takes the days as a `Set`; the model takes them as a sequence in the set's iteration order, which fixes the order of the day description. The sequence may repeat a day, which a Kotlin `Set` cannot, and the model does not exclude that.
- `scheduledDays` and `completionDate` are not in the record file. The model takes a new workout's defaults as no scheduled days and no completion date (`NewWorkout`).
- StreakCalculator.CalculateStreak: the test helper's optional `testCurrentTime`, where `null` means the device clock, is a required `now` argument; reading the clock is left to the caller.
- The code uses `DayOfWeek` and `polishName`, but no modelled file defines them; the names used are the Polish weekday names.
- The Compose screens and the rules they apply before calling the view model are not modelled. These are a non-blank name with days and exercises before saving, all exercises done before finishing, and validating before toggling. The view model itself does not check them, so they are not preconditions.
- Room, Gson and the mock repository: storage is a constructor argument and a ghost log of saved workouts.
- The progress aggregator and weekly chart builder are not part of this model: the source files contain only their output records.
- `timeInput`, a field the record file does not show, is taken to default to blank like the other inputs.
