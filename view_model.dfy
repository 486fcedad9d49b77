/** The workout view model: the list of plans, the list of workouts shown for training,
    and the streak counter, with the operations the screens call. */
module Presentation {
  import opened KotlinText
  import opened TrainingModels
  import opened Scoring

  /** `days.joinToString(", ") { it.polishName }`. */
  function DayDescription(days: seq<DayOfWeek>): string {
    if |days| == 0 then ""
    else if |days| == 1 then days[0].PolishName()
    else DayDescription(days[..|days| - 1]) + ", " + days[|days| - 1].PolishName()
  }

  /** Regrouping a joined text: `(x, y), z` is `x, (y, z)`. */
  lemma JoinRegroups(x: string, y: string, z: string)
    ensures (x + ", " + y) + ", " + z == x + ", " + (y + ", " + z)
  {
  }

  /** The description of two runs of days is their descriptions joined by ", ". */
  lemma {:induction false} DayDescriptionJoins(a: seq<DayOfWeek>, b: seq<DayOfWeek>)
    requires a != [] && b != []
    ensures DayDescription(a + b) == DayDescription(a) + ", " + DayDescription(b)
    decreases |b|
  {
    var ab := a + b;
    var last := b[|b| - 1];
    var name := last.PolishName();
    assert ab[|ab| - 1] == last;
    if |b| == 1 {
      assert ab[..|ab| - 1] == a;
      assert DayDescription(b) == name;
    } else {
      var front := b[..|b| - 1];
      assert ab[..|ab| - 1] == a + front;
      assert DayDescription(ab) == DayDescription(a + front) + ", " + name;
      assert DayDescription(b) == DayDescription(front) + ", " + name;
      DayDescriptionJoins(a, front);
      JoinRegroups(DayDescription(a), DayDescription(front), name);
    }
  }

  /** `ex.defaultSeries.toIntOrNull() ?: 1`. */
  function SeriesCount(e: Exercise): int {
    match ToIntOrNull(e.defaultSeries)
    case Some(n) => n
    case None => 1
  }

  /** How many sets `for (i in 1..count)` makes: `count`, or none when `count` < 1. */
  function SetsToGenerate(e: Exercise): nat {
    if SeriesCount(e) > 0 then SeriesCount(e) else 0
  }

  /** The sets generated for an exercise, the first one taking identity `firstId`. */
  function FreshSets(e: Exercise, firstId: Id): seq<ExerciseSet> {
    NumberedSets(SetsToGenerate(e), firstId, e.defaultReps, e.defaultRir)
  }

  /** Sets numbered 1 to `count`, set `n` taking identity `firstId + n - 1`. */
  function NumberedSets(count: nat, firstId: Id, targetReps: string, targetRir: string): (r: seq<ExerciseSet>)
    ensures |r| == count
  {
    if count == 0 then []
    else
      NumberedSets(count - 1, firstId, targetReps, targetRir)
        + [NewExerciseSet(firstId + count - 1, count, targetReps, targetRir)]
  }

  lemma {:induction false} NumberedSetsAt(count: nat, firstId: Id, targetReps: string, targetRir: string, j: nat)
    requires j < count
    ensures NumberedSets(count, firstId, targetReps, targetRir)[j] == NewExerciseSet(firstId + j, j + 1, targetReps, targetRir)
  {
    if j < count - 1 {
      NumberedSetsAt(count - 1, firstId, targetReps, targetRir, j);
    }
  }

  /** An exercise with its set list replaced by the sets generated for it. */
  function Regenerated(e: Exercise, firstId: Id): Exercise {
    e.(sets := FreshSets(e, firstId))
  }

  /** The number of sets generated for a list of exercises. */
  function SetsNeeded(exs: seq<Exercise>): nat {
    if |exs| == 0 then 0 else SetsToGenerate(exs[0]) + SetsNeeded(exs[1..])
  }

  /** The exercises with their set lists replaced by generated ones, exercise by
      exercise, drawing consecutive identities from `firstId` on. */
  function WithFreshSets(exs: seq<Exercise>, firstId: Id): (r: seq<Exercise>)
    ensures |r| == |exs|
  {
    if |exs| == 0 then []
    else [Regenerated(exs[0], firstId)] + WithFreshSets(exs[1..], firstId + SetsToGenerate(exs[0]))
  }

  /** Generation peels off one exercise at a time: what is done so far plus what the
      rest will give stays the whole result, and likewise for the identities used. */
  lemma WithFreshSetsStep(exs: seq<Exercise>, k: nat, firstId: Id, done: seq<Exercise>, used: nat,
                          item: Exercise, next: Id)
    requires k < |exs|
    requires done + WithFreshSets(exs[k..], firstId) == WithFreshSets(exs, used)
    requires item == Regenerated(exs[k], firstId) && next == firstId + SetsToGenerate(exs[k])
    ensures (done + [item]) + WithFreshSets(exs[k + 1..], next) == WithFreshSets(exs, used)
    ensures SetsNeeded(exs[k..]) == SetsToGenerate(exs[k]) + SetsNeeded(exs[k + 1..])
  {
    var rest := exs[k..];
    assert rest[0] == exs[k] && rest[1..] == exs[k + 1..];
    var later := WithFreshSets(exs[k + 1..], next);
    assert WithFreshSets(rest, firstId) == [item] + later;
    assert (done + [item]) + later == done + ([item] + later);
  }

  /** Each exercise gets the sets generated for it, from some first identity on. */
  lemma {:induction false} WithFreshSetsAt(exs: seq<Exercise>, firstId: Id, k: nat)
    requires k < |exs|
    ensures exists start: Id :: WithFreshSets(exs, firstId)[k] == Regenerated(exs[k], start)
  {
    if k == 0 {
      assert WithFreshSets(exs, firstId)[0] == Regenerated(exs[0], firstId);
    } else {
      var next := firstId + SetsToGenerate(exs[0]);
      WithFreshSetsAt(exs[1..], next, k - 1);
      var start: Id :| WithFreshSets(exs[1..], next)[k - 1] == Regenerated(exs[1..][k - 1], start);
      assert WithFreshSets(exs, firstId)[k] == Regenerated(exs[k], start);
    }
  }

  /** The generated sets, one by one. */
  lemma FreshSetsShape(e: Exercise, firstId: Id)
    ensures |FreshSets(e, firstId)| == (if SeriesCount(e) > 0 then SeriesCount(e) else 0)
    ensures forall j :: 0 <= j < |FreshSets(e, firstId)| ==>
      FreshSets(e, firstId)[j] == NewExerciseSet(firstId + j, j + 1, e.defaultReps, e.defaultRir)
  {
    forall j | 0 <= j < |FreshSets(e, firstId)|
      ensures FreshSets(e, firstId)[j] == NewExerciseSet(firstId + j, j + 1, e.defaultReps, e.defaultRir)
    {
      NumberedSetsAt(SetsToGenerate(e), firstId, e.defaultReps, e.defaultRir, j);
    }
  }

  /** Saving a plan gives each exercise `n` sets numbered 1 to `n`, where `n` is its
      series count read as an `Int` (1 when it does not parse, no sets when it is not
      positive); each set is a working set with the exercise's target reps and RIR,
      blank inputs and not completed. Nothing else about the exercise changes. */
  lemma SavedPlanSets(exs: seq<Exercise>, firstId: Id, k: nat)
    requires k < |exs|
    ensures var e := WithFreshSets(exs, firstId)[k];
      e == exs[k].(sets := e.sets)
      && |e.sets| == (if SeriesCount(exs[k]) > 0 then SeriesCount(exs[k]) else 0)
      && forall j :: 0 <= j < |e.sets| ==>
           e.sets[j].setNumber == j + 1 && e.sets[j].setType == Working
           && e.sets[j].targetReps == exs[k].defaultReps && e.sets[j].targetRir == exs[k].defaultRir
           && e.sets[j].weightInput == "" && e.sets[j].repsInput == "" && !e.sets[j].isCompleted
  {
    WithFreshSetsAt(exs, firstId, k);
    var start: Id :| WithFreshSets(exs, firstId)[k] == Regenerated(exs[k], start);
    FreshSetsShape(exs[k], start);
  }

  /** `indexOfFirst { it.id == id }`: the first position holding that identity, or -1. */
  function IndexOfFirst(ws: seq<Workout>, id: Id): (r: int)
    ensures -1 <= r < |ws|
    ensures r == -1 <==> forall k :: 0 <= k < |ws| ==> ws[k].id != id
    ensures r != -1 ==> ws[r].id == id && forall k :: 0 <= k < r ==> ws[k].id != id
  {
    if |ws| == 0 then -1
    else if ws[0].id == id then 0
    else
      var rest := IndexOfFirst(ws[1..], id);
      if rest == -1 then -1 else rest + 1
  }

  /** The plan list after saving: the first plan with `existingId`, if there is one,
      is replaced in place by a copy carrying the new name, days and exercises;
      otherwise a new plan with identity `freshId` is appended. */
  function UpsertPlan(plans: seq<Workout>, existingId: Option<Id>, freshId: Id, name: string,
                      days: seq<DayOfWeek>, exs: seq<Exercise>): seq<Workout>
  {
    var index := match existingId case Some(id) => IndexOfFirst(plans, id) case None => -1;
    if index != -1 then
      plans[index := plans[index].(name := name, dayDescription := DayDescription(days),
                                   scheduledDays := days, exercises := exs)]
    else
      plans + [NewWorkout(freshId, name, DayDescription(days), days, exs)]
  }

  /** Saving under the identity of an existing plan replaces that plan at its position,
      keeping its identity and its completion state, and leaves every other plan as it
      was. */
  lemma UpsertReplacesExisting(plans: seq<Workout>, id: Id, freshId: Id, name: string,
                               days: seq<DayOfWeek>, exs: seq<Exercise>, k: nat)
    requires k < |plans| && plans[k].id == id && UniqueIds(plans)
    ensures var r := UpsertPlan(plans, Some(id), freshId, name, days, exs);
      |r| == |plans|
      && r[k].id == id && r[k].name == name && r[k].dayDescription == DayDescription(days)
      && r[k].scheduledDays == days && r[k].exercises == exs
      && r[k].isCompleted == plans[k].isCompleted && r[k].totalScore == plans[k].totalScore
      && r[k].completionDate == plans[k].completionDate
      && forall j :: 0 <= j < |plans| && j != k ==> r[j] == plans[j]
  {
  }

  /** Saving with no identity, or one no plan has, appends a new, unfinished plan and
      leaves the others as they were. */
  lemma UpsertAppendsNew(plans: seq<Workout>, existingId: Option<Id>, freshId: Id, name: string,
                         days: seq<DayOfWeek>, exs: seq<Exercise>)
    requires existingId.Some? ==> forall k :: 0 <= k < |plans| ==> plans[k].id != existingId.value
    ensures var r := UpsertPlan(plans, existingId, freshId, name, days, exs);
      |r| == |plans| + 1 && r[..|plans|] == plans
      && r[|plans|] == NewWorkout(freshId, name, DayDescription(days), days, exs)
      && !r[|plans|].isCompleted && r[|plans|].totalScore == 0.0
  {
  }

  /** Saving keeps plan identities distinct when the identity drawn for a new plan is
      fresh. */
  lemma UpsertKeepsIdsUnique(plans: seq<Workout>, existingId: Option<Id>, freshId: Id, name: string,
                             days: seq<DayOfWeek>, exs: seq<Exercise>)
    requires UniqueIds(plans) && IdsBelow(plans, freshId)
    ensures UniqueIds(UpsertPlan(plans, existingId, freshId, name, days, exs))
    ensures var r := UpsertPlan(plans, existingId, freshId, name, days, exs);
      IdsBelow(r, if |r| == |plans| then freshId else freshId + 1)
  {
    var r := UpsertPlan(plans, existingId, freshId, name, days, exs);
    var index := match existingId case Some(id) => IndexOfFirst(plans, id) case None => -1;
    if index == -1 {
      forall i, j | 0 <= i < j < |r| ensures r[i].id != r[j].id {
        if j == |plans| {
          assert r[i] == plans[i];
        } else {
          assert r[i] == plans[i] && r[j] == plans[j];
        }
      }
    } else {
      assert forall i :: 0 <= i < |r| ==> r[i].id == plans[i].id;
    }
  }

  /** `filter { it.id != id }`. */
  function RemoveById(ws: seq<Workout>, id: Id): (r: seq<Workout>)
    ensures |r| <= |ws|
  {
    if |ws| == 0 then []
    else
      var last := ws[|ws| - 1];
      RemoveById(ws[..|ws| - 1], id) + (if last.id != id then [last] else [])
  }

  /** Removal keeps exactly the workouts with another identity. */
  lemma {:induction false} RemoveByIdMembers(ws: seq<Workout>, id: Id)
    ensures forall w :: w in RemoveById(ws, id) <==> w in ws && w.id != id
  {
    if |ws| > 0 {
      var front := ws[..|ws| - 1];
      RemoveByIdMembers(front, id);
      assert ws == front + [ws[|ws| - 1]];
    }
  }

  /** Removal works piece by piece, so the plans it keeps stay in their order. */
  lemma {:induction false} RemoveByIdSplits(a: seq<Workout>, b: seq<Workout>, id: Id)
    ensures RemoveById(a + b, id) == RemoveById(a, id) + RemoveById(b, id)
    decreases |b|
  {
    if |b| == 0 {
      assert a + b == a;
    } else {
      var ab := a + b;
      var front := b[..|b| - 1];
      var last := b[|b| - 1];
      var tail := if last.id != id then [last] else [];
      assert ab[..|ab| - 1] == a + front;
      assert ab[|ab| - 1] == last;
      assert RemoveById(ab, id) == RemoveById(a + front, id) + tail;
      assert RemoveById(b, id) == RemoveById(front, id) + tail;
      RemoveByIdSplits(a, front, id);
      assert RemoveById(a + front, id) + tail == RemoveById(a, id) + (RemoveById(front, id) + tail);
    }
  }

  /** Removing an identity no plan has keeps the list as it is. */
  lemma {:induction false} RemoveAbsentKeepsAll(ws: seq<Workout>, id: Id)
    requires forall k :: 0 <= k < |ws| ==> ws[k].id != id
    ensures RemoveById(ws, id) == ws
  {
    if |ws| > 0 {
      RemoveAbsentKeepsAll(ws[..|ws| - 1], id);
      assert ws[..|ws| - 1] + [ws[|ws| - 1]] == ws;
    }
  }

  lemma {:induction false} RemoveByIdKeepsIdsUnique(ws: seq<Workout>, id: Id)
    requires UniqueIds(ws)
    ensures UniqueIds(RemoveById(ws, id))
  {
    if |ws| > 0 {
      var front := ws[..|ws| - 1];
      var last := ws[|ws| - 1];
      assert UniqueIds(front);
      RemoveByIdKeepsIdsUnique(front, id);
      RemoveByIdMembers(front, id);
      var kept := RemoveById(front, id);
      forall w | w in kept ensures w.id != last.id {
        var i :| 0 <= i < |front| && front[i] == w;
      }
    }
  }

  /** The exercises with the completion flag of the one with `exerciseId` negated. */
  function ToggledExercises(exs: seq<Exercise>, exerciseId: Id): seq<Exercise> {
    seq(|exs|, k requires 0 <= k < |exs| =>
      if exs[k].id == exerciseId then exs[k].(isCompleted := !exs[k].isCompleted) else exs[k])
  }

  /** The workouts after `toggleExerciseCompletion` on the exercise with `exerciseId`. */
  function ToggledIn(ws: seq<Workout>, exerciseId: Id): seq<Workout> {
    seq(|ws|, k requires 0 <= k < |ws| => ws[k].(exercises := ToggledExercises(ws[k].exercises, exerciseId)))
  }

  /** Toggling negates the flag of that exercise wherever it appears and changes
      nothing else. */
  lemma ToggleNegatesOnlyThatFlag(ws: seq<Workout>, exerciseId: Id, i: nat, k: nat)
    requires i < |ws| && k < |ws[i].exercises|
    ensures var r := ToggledIn(ws, exerciseId);
      |r| == |ws| && r[i] == ws[i].(exercises := r[i].exercises)
      && |r[i].exercises| == |ws[i].exercises|
      && (ws[i].exercises[k].id == exerciseId ==>
            r[i].exercises[k] == ws[i].exercises[k].(isCompleted := !ws[i].exercises[k].isCompleted))
      && (ws[i].exercises[k].id != exerciseId ==> r[i].exercises[k] == ws[i].exercises[k])
  {
  }

  /** Toggling the same exercise twice restores every workout. */
  lemma ToggleTwiceRestores(ws: seq<Workout>, exerciseId: Id)
    ensures ToggledIn(ToggledIn(ws, exerciseId), exerciseId) == ws
  {
    var once := ToggledIn(ws, exerciseId);
    var twice := ToggledIn(once, exerciseId);
    forall i | 0 <= i < |ws| ensures twice[i] == ws[i] {
      assert twice[i].exercises == ws[i].exercises;
    }
  }

  /** The guard of `finishWorkout`: every exercise done and the workout not yet. */
  predicate CanFinish(w: Workout) {
    (forall e :: e in w.exercises ==> e.isCompleted) && !w.isCompleted
  }

  /** The workout as `finishWorkout` leaves it. */
  function Finished(w: Workout, score: real): Workout {
    w.(isCompleted := true, totalScore := score)
  }

  /** Finishing fires once: a finished workout no longer passes the guard. */
  lemma FinishFiresOnce(w: Workout, score: real)
    requires CanFinish(w)
    ensures !CanFinish(Finished(w, score))
    ensures Finished(w, score).id == w.id && Finished(w, score).exercises == w.exercises
  {
  }

  /** Every record with identity `id` replaced by `w`: the records that are one object
      in the source. */
  function ReplaceById(ws: seq<Workout>, id: Id, w: Workout): seq<Workout> {
    seq(|ws|, k requires 0 <= k < |ws| => if ws[k].id == id then w else ws[k])
  }

  /** The caller holds the record the list holds: every listed record with `w`'s
      identity is `w`, as when both are one object in the source. */
  predicate IsCurrent(ws: seq<Workout>, w: Workout) {
    forall k :: 0 <= k < |ws| && ws[k].id == w.id ==> ws[k] == w
  }

  /** After `ReplaceById`, the replacement is the record the list holds. */
  lemma ReplaceByIdMakesCurrent(ws: seq<Workout>, w: Workout)
    ensures IsCurrent(ReplaceById(ws, w.id, w), w)
    ensures |ReplaceById(ws, w.id, w)| == |ws|
    ensures forall k :: 0 <= k < |ws| ==> ReplaceById(ws, w.id, w)[k].id == ws[k].id
  {
  }

  /** `validateExercise`'s message, naming the exercise. */
  function MissingInputMessage(e: Exercise): string {
    if e.exerciseType == Time then "Uzupełnij czas dla: " + e.name
    else "Uzupełnij wszystkie serie w: " + e.name
  }

  /** A set holds what its exercise needs: a time for a timed exercise, a weight and
      reps for the others. */
  predicate SetFilled(kind: ExerciseType, s: ExerciseSet) {
    if kind == Time then !IsBlank(s.timeInput) else !IsBlank(s.weightInput) && !IsBlank(s.repsInput)
  }

  /** The position of the first set that lacks an input, if any. */
  function FirstUnfilled(kind: ExerciseType, sets: seq<ExerciseSet>): (r: Option<nat>)
    ensures r.None? <==> forall k :: 0 <= k < |sets| ==> SetFilled(kind, sets[k])
    ensures r.Some? ==> (r.value < |sets| && !SetFilled(kind, sets[r.value])
                         && forall k :: 0 <= k < r.value ==> SetFilled(kind, sets[k]))
  {
    if |sets| == 0 then None
    else if !SetFilled(kind, sets[0]) then Some(0)
    else
      match FirstUnfilled(kind, sets[1..])
      case None => None
      case Some(k) => Some(k + 1)
  }

  /** `validateExercise`: `null` when every set is filled in, otherwise the message for
      the first set that is not, which names the exercise. */
  function ValidateExercise(exercise: Exercise): (r: Option<string>)
    ensures r == None <==> forall k :: 0 <= k < |exercise.sets| ==> SetFilled(exercise.exerciseType, exercise.sets[k])
    ensures r != None ==> r == Some(MissingInputMessage(exercise))
    ensures r != None ==> |r.value| >= |exercise.name| && r.value[|r.value| - |exercise.name|..] == exercise.name
  {
    match FirstUnfilled(exercise.exerciseType, exercise.sets)
    case None => None
    case Some(_) => Some(MissingInputMessage(exercise))
  }

  /** The least bound above every workout identity in the list. */
  function IdBound(ws: seq<Workout>): (bound: Id)
    ensures IdsBelow(ws, bound)
    ensures forall b: nat :: IdsBelow(ws, b) ==> bound <= b
  {
    if |ws| == 0 then 0
    else
      var front := IdBound(ws[..|ws| - 1]);
      assert forall b: nat :: IdsBelow(ws, b) ==> IdsBelow(ws[..|ws| - 1], b);
      if ws[|ws| - 1].id + 1 > front then ws[|ws| - 1].id + 1 else front
  }

  class WorkoutViewModel {
    /** `_workouts`: what the training screen shows. */
    var workouts: seq<Workout>
    /** `_workoutPlans`: the plan templates. */
    var plans: seq<Workout>
    /** `_streak`. */
    var streak: int
    /** The next identity to hand out. */
    var nextId: Id
    const strategy: ScoringStrategy
    const toDouble: DoubleParser
    /** Every workout passed to `repository.saveWorkout`, in order. */
    ghost var saved: seq<Workout>

    /** Once a plan has been saved or removed, the two lists are one list; plan
        identities are distinct, and every workout identity in either list is below
        `nextId`. Exercise and set identities are not constrained. */
    ghost predicate Valid()
      reads this
    {
      (plans == [] || workouts == plans)
      && UniqueIds(plans) && IdsBelow(plans, nextId) && IdsBelow(workouts, nextId)
    }

    /** Loads the repository's workouts; the streak starts at `initialStreak`, and
        workouts are scored by volume. */
    constructor (repositoryWorkouts: seq<Workout>, initialStreak: int, toDouble: DoubleParser)
      ensures Valid()
      ensures workouts == repositoryWorkouts && plans == [] && streak == initialStreak
      ensures strategy == VolumeStrategy && this.toDouble == toDouble && saved == []
    {
      workouts := repositoryWorkouts;
      plans := [];
      streak := initialStreak;
      nextId := IdBound(repositoryWorkouts);
      strategy := VolumeStrategy;
      this.toDouble := toDouble;
      saved := [];
    }

    /** The sets `addWorkoutPlan` builds for one exercise: `count` of them, numbered
        from 1, each with a fresh identity. */
    method GenerateSets(ex: Exercise) returns (sets: seq<ExerciseSet>)
      modifies this`nextId
      ensures sets == FreshSets(ex, old(nextId))
      ensures nextId == old(nextId) + SetsToGenerate(ex)
    {
      var count := match ToIntOrNull(ex.defaultSeries) case Some(n) => n case None => 1;
      sets := [];
      var i := 1;
      while i <= count
        invariant 1 <= i <= SetsToGenerate(ex) + 1
        invariant nextId == old(nextId) + (i - 1)
        invariant sets == NumberedSets(i - 1, old(nextId), ex.defaultReps, ex.defaultRir)
      {
        sets := sets + [NewExerciseSet(nextId, i, ex.defaultReps, ex.defaultRir)];
        nextId := nextId + 1;
        i := i + 1;
      }
      assert i - 1 == SetsToGenerate(ex);
    }

    /** The `exercises.forEach` block of `addWorkoutPlan`: every exercise's set list
        replaced by freshly generated sets. */
    method RegenerateSets(exercises: seq<Exercise>) returns (prepared: seq<Exercise>)
      modifies this`nextId
      ensures prepared == WithFreshSets(exercises, old(nextId))
      ensures nextId == old(nextId) + SetsNeeded(exercises)
    {
      prepared := [];
      var k := 0;
      assert exercises[k..] == exercises;
      assert prepared + WithFreshSets(exercises[k..], nextId) == WithFreshSets(exercises, nextId);
      while k < |exercises|
        invariant 0 <= k <= |exercises|
        invariant prepared + WithFreshSets(exercises[k..], nextId) == WithFreshSets(exercises, old(nextId))
        invariant nextId + SetsNeeded(exercises[k..]) == old(nextId) + SetsNeeded(exercises)
      {
        ghost var id := nextId;
        var sets := GenerateSets(exercises[k]);
        var done := exercises[k].(sets := sets);
        assert done == Regenerated(exercises[k], id);
        WithFreshSetsStep(exercises, k, id, prepared, old(nextId), done, nextId);
        prepared := prepared + [done];
        k := k + 1;
      }
    }

    /** `addWorkoutPlan`: regenerates every exercise's sets, then replaces the plan with
        `existingId` or appends a new one, and shows the plan list for training. */
    method AddWorkoutPlan(name: string, days: seq<DayOfWeek>, exercises: seq<Exercise>, existingId: Option<Id>)
      requires Valid()
      modifies this
      ensures Valid()
      ensures var prepared := WithFreshSets(exercises, old(nextId));
        var freshId := old(nextId) + SetsNeeded(exercises);
        plans == UpsertPlan(old(plans), existingId, freshId, name, days, prepared)
      ensures workouts == plans
      ensures streak == old(streak) && saved == old(saved)
    {
      var prepared := RegenerateSets(exercises);
      var freshId := nextId;
      var updated := plans;
      var index := match existingId case Some(id) => IndexOfFirst(updated, id) case None => -1;
      if index != -1 {
        updated := updated[index := updated[index].(name := name, dayDescription := DayDescription(days),
                                                    scheduledDays := days, exercises := prepared)];
      } else {
        updated := updated + [NewWorkout(freshId, name, DayDescription(days), days, prepared)];
        nextId := nextId + 1;
      }
      assert updated == UpsertPlan(plans, existingId, freshId, name, days, prepared);
      assert IdsBelow(plans, freshId);
      UpsertKeepsIdsUnique(plans, existingId, freshId, name, days, prepared);
      plans := updated;
      workouts := updated;
    }

    /** `removeWorkoutPlan`: drops every plan with the workout's identity and shows the
        remaining plans for training. */
    method RemoveWorkoutPlan(workout: Workout)
      requires Valid()
      modifies this
      ensures Valid()
      ensures plans == RemoveById(old(plans), workout.id) && workouts == plans
      ensures streak == old(streak) && nextId == old(nextId) && saved == old(saved)
    {
      RemoveByIdKeepsIdsUnique(plans, workout.id);
      RemoveByIdMembers(plans, workout.id);
      plans := RemoveById(plans, workout.id);
      workouts := plans;
    }

    /** `toggleExerciseCompletion`: negates the exercise's completion flag. The source
        flips one object; here every copy of it, found by its identity, is flipped. */
    method ToggleExerciseCompletion(exercise: Exercise)
      requires Valid()
      modifies this
      ensures Valid()
      ensures plans == ToggledIn(old(plans), exercise.id) && workouts == ToggledIn(old(workouts), exercise.id)
      ensures streak == old(streak) && nextId == old(nextId) && saved == old(saved)
    {
      plans := ToggledIn(plans, exercise.id);
      workouts := ToggledIn(workouts, exercise.id);
    }

    /** `finishWorkout`: when every exercise is done and the workout is not, marks it
        completed with its score, adds one to the streak and saves it; otherwise does
        nothing. The source changes the object it is given, so the argument is the
        record the lists hold, and the finished record is handed back as the caller's
        object now is: a second call with it fails the guard and changes nothing. */
    method FinishWorkout(workout: Workout) returns (finished: Workout)
      requires Valid()
      requires IsCurrent(workouts, workout) && IsCurrent(plans, workout)
      modifies this
      ensures Valid()
      ensures CanFinish(workout) ==>
        finished == Finished(workout, strategy.Score(toDouble, workout))
        && plans == ReplaceById(old(plans), workout.id, finished)
        && workouts == ReplaceById(old(workouts), workout.id, finished)
        && streak == old(streak) + 1 && saved == old(saved) + [finished]
      ensures !CanFinish(workout) ==>
        finished == workout
        && plans == old(plans) && workouts == old(workouts) && streak == old(streak) && saved == old(saved)
      ensures nextId == old(nextId)
      ensures finished.id == workout.id && !CanFinish(finished)
      ensures IsCurrent(workouts, finished) && IsCurrent(plans, finished)
    {
      finished := workout;
      if (forall e | e in workout.exercises :: e.isCompleted) && !workout.isCompleted {
        var score := strategy.CalculateScore(toDouble, workout);
        finished := workout.(isCompleted := true, totalScore := score);
        FinishFiresOnce(workout, score);
        ReplaceByIdMakesCurrent(plans, finished);
        ReplaceByIdMakesCurrent(workouts, finished);
        plans := ReplaceById(plans, workout.id, finished);
        workouts := ReplaceById(workouts, workout.id, finished);
        streak := streak + 1;
        saved := saved + [finished];
      }
    }
  }
}
