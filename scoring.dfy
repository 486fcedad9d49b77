/** The scoring strategies that reduce a workout to one number. */
module Scoring {
  import opened KotlinText
  import opened TrainingModels

  /** `String.toDoubleOrNull()`. Which texts parse to which number is left open; like
      the library function, it never accepts a blank text. */
  type DoubleParser = f: string -> Option<real> | forall s :: IsBlank(s) ==> f(s) == None
    witness NeverParses

  function NeverParses(s: string): Option<real> {
    None
  }

  /** A set's weight: its parsed weight input, or 0 when that does not parse. */
  function Weight(toDouble: DoubleParser, s: ExerciseSet): real {
    match toDouble(s.weightInput)
    case Some(w) => w
    case None => 0.0
  }

  /** A set's repetitions: its reps input as an `Int`, or 0 when that does not parse. */
  function Reps(s: ExerciseSet): int {
    match ToIntOrNull(s.repsInput)
    case Some(r) => r
    case None => 0
  }

  /** The strategy interface and its two implementations. */
  datatype ScoringStrategy = VolumeStrategy | FeelingStrategy
  {
    /** What one set adds to the total. */
    function SetPoints(toDouble: DoubleParser, s: ExerciseSet): real {
      var weight := Weight(toDouble, s);
      var reps := Reps(s);
      match this
      case VolumeStrategy => weight * reps as real
      case FeelingStrategy => if weight > 0.0 && reps > 0 then weight * reps as real * 1.2 else 0.0
    }

    /** The points of a list of sets, added up front to back. */
    function SetsTotal(toDouble: DoubleParser, sets: seq<ExerciseSet>): real {
      if |sets| == 0 then 0.0
      else SetsTotal(toDouble, sets[..|sets| - 1]) + SetPoints(toDouble, sets[|sets| - 1])
    }

    /** The points of every set of a list of exercises, exercise by exercise. */
    function ExercisesTotal(toDouble: DoubleParser, exs: seq<Exercise>): real {
      if |exs| == 0 then 0.0
      else ExercisesTotal(toDouble, exs[..|exs| - 1]) + SetsTotal(toDouble, exs[|exs| - 1].sets)
    }

    /** The score of a workout. */
    function Score(toDouble: DoubleParser, w: Workout): real {
      ExercisesTotal(toDouble, w.exercises)
    }

    /** `calculateScore`: walks the exercises and, within each, the sets, adding each
        set's points to a running total. */
    method CalculateScore(toDouble: DoubleParser, workout: Workout) returns (total: real)
      ensures total == Score(toDouble, workout)
    {
      total := 0.0;
      var exs := workout.exercises;
      var i := 0;
      while i < |exs|
        invariant 0 <= i <= |exs|
        invariant total == ExercisesTotal(toDouble, exs[..i])
      {
        var sets := exs[i].sets;
        var j := 0;
        while j < |sets|
          invariant 0 <= j <= |sets|
          invariant total == ExercisesTotal(toDouble, exs[..i]) + SetsTotal(toDouble, sets[..j])
        {
          var weight := match toDouble(sets[j].weightInput) case Some(w) => w case None => 0.0;
          var reps := match ToIntOrNull(sets[j].repsInput) case Some(r) => r case None => 0;
          assert weight == Weight(toDouble, sets[j]) && reps == Reps(sets[j]);
          SetPointsOf(this, toDouble, sets[j], weight, reps);
          ghost var before := total;
          match this {
            case VolumeStrategy =>
              total := total + weight * reps as real;
            case FeelingStrategy =>
              if weight > 0.0 && reps > 0 {
                total := total + weight * reps as real * 1.2;
              }
          }
          assert total == before + SetPoints(toDouble, sets[j]);
          assert sets[..j + 1][..j] == sets[..j];
          assert SetsTotal(toDouble, sets[..j + 1]) == SetsTotal(toDouble, sets[..j]) + SetPoints(toDouble, sets[j]);
          j := j + 1;
        }
        assert sets[..j] == sets;
        assert exs[..i + 1][..i] == exs[..i];
        i := i + 1;
      }
      assert exs[..i] == exs;
    }
  }

  /** The points of a set, in terms of the weight and reps read from it. */
  lemma SetPointsOf(st: ScoringStrategy, toDouble: DoubleParser, s: ExerciseSet, weight: real, reps: int)
    requires weight == Weight(toDouble, s) && reps == Reps(s)
    ensures st.VolumeStrategy? ==> st.SetPoints(toDouble, s) == weight * reps as real
    ensures st.FeelingStrategy? ==>
      st.SetPoints(toDouble, s) == if weight > 0.0 && reps > 0 then weight * reps as real * 1.2 else 0.0
  {
    match st
    case VolumeStrategy =>
    case FeelingStrategy =>
  }

  /** A set whose weight or reps does not parse adds nothing, under either strategy. */
  lemma UnparsedSetAddsNothing(st: ScoringStrategy, toDouble: DoubleParser, s: ExerciseSet)
    requires toDouble(s.weightInput) == None || ToIntOrNull(s.repsInput) == None
    ensures st.SetPoints(toDouble, s) == 0.0
  {
    var weight, reps := Weight(toDouble, s), Reps(s);
    if toDouble(s.weightInput) == None {
      assert weight == 0.0;
    } else {
      assert reps == 0;
    }
    assert weight * reps as real == 0.0;
  }

  /** No set takes anything away from a Feeling score. */
  lemma FeelingSetNonNegative(toDouble: DoubleParser, s: ExerciseSet)
    ensures FeelingStrategy.SetPoints(toDouble, s) >= 0.0
  {
    var weight, reps := Weight(toDouble, s), Reps(s);
    if weight > 0.0 && reps > 0 {
      assert weight * reps as real > 0.0;
    }
  }

  /** A set whose weight and reps are both positive: the only kind Feeling counts. */
  predicate PositiveSet(toDouble: DoubleParser, s: ExerciseSet) {
    Weight(toDouble, s) > 0.0 && Reps(s) > 0
  }

  lemma {:induction false} FeelingSetsNonNegative(toDouble: DoubleParser, sets: seq<ExerciseSet>)
    ensures FeelingStrategy.SetsTotal(toDouble, sets) >= 0.0
  {
    if |sets| > 0 {
      FeelingSetsNonNegative(toDouble, sets[..|sets| - 1]);
      FeelingSetNonNegative(toDouble, sets[|sets| - 1]);
    }
  }

  /** The Feeling score is never negative, whatever the inputs. */
  lemma {:induction false} FeelingNeverNegative(toDouble: DoubleParser, exs: seq<Exercise>)
    ensures FeelingStrategy.ExercisesTotal(toDouble, exs) >= 0.0
  {
    if |exs| > 0 {
      FeelingNeverNegative(toDouble, exs[..|exs| - 1]);
      FeelingSetsNonNegative(toDouble, exs[|exs| - 1].sets);
    }
  }

  /** A workout of one exercise with one set scores that set's points. */
  lemma OneSetScore(st: ScoringStrategy, toDouble: DoubleParser, w: Workout)
    requires |w.exercises| == 1 && |w.exercises[0].sets| == 1
    ensures st.Score(toDouble, w) == st.SetPoints(toDouble, w.exercises[0].sets[0])
  {
    var sets := w.exercises[0].sets;
    assert sets[..0] == [];
    assert st.SetsTotal(toDouble, sets) == st.SetsTotal(toDouble, sets[..0]) + st.SetPoints(toDouble, sets[0]);
    assert w.exercises[..0] == [];
    assert st.ExercisesTotal(toDouble, w.exercises)
      == st.ExercisesTotal(toDouble, w.exercises[..0]) + st.SetsTotal(toDouble, sets);
  }

  /** Volume, unlike Feeling, goes negative as soon as a weight parses negative. */
  lemma VolumeCanBeNegative(toDouble: DoubleParser)
    requires toDouble("-10") == Some(-10.0)
    ensures var s := NewExerciseSet(0, 1, "5", "2").(weightInput := "-10", repsInput := "5");
      var w := NewWorkout(1, "A", "", [], [NewExercise(2, "Press", RepsAndWeight, "1", "5", "2").(sets := [s])]);
      VolumeStrategy.Score(toDouble, w) == -50.0 && FeelingStrategy.Score(toDouble, w) == 0.0
  {
    var s := NewExerciseSet(0, 1, "5", "2").(weightInput := "-10", repsInput := "5");
    var w := NewWorkout(1, "A", "", [], [NewExercise(2, "Press", RepsAndWeight, "1", "5", "2").(sets := [s])]);
    ToIntOrNullInvertsIntToString(5);
    assert ToIntOrNull("5") == Some(5);
    OneSetScore(VolumeStrategy, toDouble, w);
    OneSetScore(FeelingStrategy, toDouble, w);
  }

  lemma {:induction false} FeelingSetsScaleVolume(toDouble: DoubleParser, sets: seq<ExerciseSet>)
    requires forall k :: 0 <= k < |sets| ==> PositiveSet(toDouble, sets[k])
    ensures FeelingStrategy.SetsTotal(toDouble, sets) == 1.2 * VolumeStrategy.SetsTotal(toDouble, sets)
  {
    if |sets| > 0 {
      FeelingSetsScaleVolume(toDouble, sets[..|sets| - 1]);
    }
  }

  /** When every set has a positive weight and positive reps, Feeling is 1.2 times Volume. */
  lemma {:induction false} FeelingIsVolumeTimesOnePointTwo(toDouble: DoubleParser, exs: seq<Exercise>)
    requires forall i, k :: 0 <= i < |exs| && 0 <= k < |exs[i].sets| ==> PositiveSet(toDouble, exs[i].sets[k])
    ensures FeelingStrategy.ExercisesTotal(toDouble, exs) == 1.2 * VolumeStrategy.ExercisesTotal(toDouble, exs)
  {
    if |exs| > 0 {
      FeelingIsVolumeTimesOnePointTwo(toDouble, exs[..|exs| - 1]);
      FeelingSetsScaleVolume(toDouble, exs[|exs| - 1].sets);
    }
  }

  lemma {:induction false} SetsWithoutPointsTotalZero(st: ScoringStrategy, toDouble: DoubleParser, sets: seq<ExerciseSet>)
    requires forall k :: 0 <= k < |sets| ==> st.SetPoints(toDouble, sets[k]) == 0.0
    ensures st.SetsTotal(toDouble, sets) == 0.0
  {
    if |sets| > 0 {
      SetsWithoutPointsTotalZero(st, toDouble, sets[..|sets| - 1]);
    }
  }

  /** A workout whose every set has a weight or a reps text that does not parse (blank
      ones included) scores 0 under either strategy; so does one whose exercises have
      no sets, or that has no exercises. */
  lemma {:induction false} UnparsedSetsScoreZero(st: ScoringStrategy, toDouble: DoubleParser, exs: seq<Exercise>)
    requires forall i, k :: 0 <= i < |exs| && 0 <= k < |exs[i].sets| ==>
      toDouble(exs[i].sets[k].weightInput) == None || ToIntOrNull(exs[i].sets[k].repsInput) == None
    ensures st.ExercisesTotal(toDouble, exs) == 0.0
  {
    if |exs| > 0 {
      UnparsedSetsScoreZero(st, toDouble, exs[..|exs| - 1]);
      var last := exs[|exs| - 1];
      forall k | 0 <= k < |last.sets|
        ensures st.SetPoints(toDouble, last.sets[k]) == 0.0
      {
        assert toDouble(exs[|exs| - 1].sets[k].weightInput) == None
          || ToIntOrNull(exs[|exs| - 1].sets[k].repsInput) == None;
        UnparsedSetAddsNothing(st, toDouble, last.sets[k]);
      }
      SetsWithoutPointsTotalZero(st, toDouble, last.sets);
    }
  }

  /** One set of 100 x 5 scores 500 by volume and 600 by feeling; with blank reps it
      scores 0 under both. */
  lemma OneSetExample(toDouble: DoubleParser)
    requires toDouble("100") == Some(100.0)
    ensures var s := NewExerciseSet(0, 1, "5", "2").(weightInput := "100", repsInput := "5");
      var w := NewWorkout(1, "A", "", [], [NewExercise(2, "Press", RepsAndWeight, "1", "5", "2").(sets := [s])]);
      VolumeStrategy.Score(toDouble, w) == 500.0 && FeelingStrategy.Score(toDouble, w) == 600.0
    ensures var s := NewExerciseSet(0, 1, "5", "2").(weightInput := "100");
      var w := NewWorkout(1, "A", "", [], [NewExercise(2, "Press", RepsAndWeight, "1", "5", "2").(sets := [s])]);
      VolumeStrategy.Score(toDouble, w) == 0.0 && FeelingStrategy.Score(toDouble, w) == 0.0
  {
    var s := NewExerciseSet(0, 1, "5", "2").(weightInput := "100", repsInput := "5");
    var w := NewWorkout(1, "A", "", [], [NewExercise(2, "Press", RepsAndWeight, "1", "5", "2").(sets := [s])]);
    ToIntOrNullInvertsIntToString(5);
    assert ToIntOrNull("5") == Some(5);
    OneSetScore(VolumeStrategy, toDouble, w);
    OneSetScore(FeelingStrategy, toDouble, w);
    var b := NewExerciseSet(0, 1, "5", "2").(weightInput := "100");
    var wb := NewWorkout(1, "A", "", [], [NewExercise(2, "Press", RepsAndWeight, "1", "5", "2").(sets := [b])]);
    assert IsBlank(b.repsInput);
    UnparsedSetAddsNothing(VolumeStrategy, toDouble, b);
    UnparsedSetAddsNothing(FeelingStrategy, toDouble, b);
    OneSetScore(VolumeStrategy, toDouble, wb);
    OneSetScore(FeelingStrategy, toDouble, wb);
  }
}
