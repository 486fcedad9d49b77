/** The training records: a workout holds exercises, an exercise holds sets.
    The source's records are Kotlin data classes whose inputs and flags are mutable
    cells; here they are values, and the view model replaces a record by a new value
    where the source assigns to one of its cells. */
module TrainingModels {
  import opened KotlinText

  /** Record identity. The source draws a random UUID for every record; the view model
      hands out identities from a counter, which makes their freshness provable. */
  type Id = nat

  datatype SetType = Warmup | Working

  datatype ExerciseType = RepsAndWeight | Time

  datatype DayOfWeek = Monday | Tuesday | Wednesday | Thursday | Friday | Saturday | Sunday
  {
    /** The day's name as shown in a plan's day description. */
    function PolishName(): string {
      match this
      case Monday => "Poniedziałek"
      case Tuesday => "Wtorek"
      case Wednesday => "Środa"
      case Thursday => "Czwartek"
      case Friday => "Piątek"
      case Saturday => "Sobota"
      case Sunday => "Niedziela"
    }
  }

  /** One series of an exercise. The inputs are raw text as typed by the user. */
  datatype ExerciseSet = ExerciseSet(
    id: Id,
    setNumber: int,
    setType: SetType,
    targetReps: string,
    targetRir: string,
    weightInput: string,
    repsInput: string,
    timeInput: string,
    isCompleted: bool)

  /** An exercise of a plan; the `default*` texts are what a fresh set list is made from. */
  datatype Exercise = Exercise(
    id: Id,
    name: string,
    exerciseType: ExerciseType,
    sets: seq<ExerciseSet>,
    isCompleted: bool,
    defaultSeries: string,
    defaultReps: string,
    defaultRir: string)

  /** A plan or a performed session. `completionDate` is a point in time in epoch
      milliseconds. */
  datatype Workout = Workout(
    id: Id,
    name: string,
    dayDescription: string,
    scheduledDays: seq<DayOfWeek>,
    exercises: seq<Exercise>,
    isCompleted: bool,
    totalScore: real,
    completionDate: Option<int>)

  /** `ExerciseSet(id, setNumber, type, targetReps, targetRir)` with the remaining
      parameters left at their defaults. */
  function NewExerciseSet(id: Id, setNumber: int, targetReps: string, targetRir: string,
                          setType: SetType := Working): ExerciseSet
  {
    ExerciseSet(id, setNumber, setType, targetReps, targetRir, "", "", "", false)
  }

  /** `Exercise(id, name, ...)` with the set list and the flag left at their defaults. */
  function NewExercise(id: Id, name: string, exerciseType: ExerciseType,
                       defaultSeries: string, defaultReps: string, defaultRir: string): Exercise
  {
    Exercise(id, name, exerciseType, [], false, defaultSeries, defaultReps, defaultRir)
  }

  /** `Workout(id, name, dayDescription, ...)` with everything else at its default. */
  function NewWorkout(id: Id, name: string, dayDescription: string,
                      scheduledDays: seq<DayOfWeek> := [], exercises: seq<Exercise> := []): Workout
  {
    Workout(id, name, dayDescription, scheduledDays, exercises, false, 0.0, None)
  }

  /** A new record starts blank, unfinished and with no score. */
  lemma NewRecordsStartBlank(id: Id, setNumber: int, text: string, kind: ExerciseType)
    ensures var s := NewExerciseSet(id, setNumber, text, text);
      s.setType == Working && s.weightInput == "" && s.repsInput == "" && !s.isCompleted
    ensures var e := NewExercise(id, text, kind, text, text, text);
      e.sets == [] && !e.isCompleted
    ensures var w := NewWorkout(id, text, text);
      w.exercises == [] && w.scheduledDays == [] && !w.isCompleted && w.totalScore == 0.0
      && w.completionDate == None
  {
  }

  /** The identities of a list of workouts, pairwise distinct. */
  predicate UniqueIds(ws: seq<Workout>) {
    forall i, j :: 0 <= i < j < |ws| ==> ws[i].id != ws[j].id
  }

  /** Every identity in the list lies below `bound`. */
  predicate IdsBelow(ws: seq<Workout>, bound: nat) {
    forall i :: 0 <= i < |ws| ==> ws[i].id < bound
  }
}
