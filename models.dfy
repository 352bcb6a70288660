/**
 * The record shapes of the application's data store: a planned exercise slot,
 * a logged progress row and a workout plan.
 */
module Models {
  import opened Wrappers

  /**
   * A planned exercise for one day of a plan. `id` is `None` when the stored id
   * is not a string (the session tracker checks `typeof id === 'string'`).
   * `sets` is the number of planned sets; `reps` and `weight` are the targets.
   */
  datatype Exercise = Exercise(
    id: Option<string>,
    userId: string,
    dayId: string,
    name: string,
    sets: nat,
    reps: int,
    weight: real,
    notes: Option<string>)

  /**
   * A progress row as the session tracker builds it before saving: every
   * field of the stored row except its `id` and its `created_at`, which the
   * data store assigns.
   */
  datatype ExerciseProgress = ExerciseProgress(
    exerciseId: string,
    userId: string,
    workoutId: string,
    dayId: string,
    name: string,
    sets: nat,
    reps: seq<int>,
    weights: seq<real>,
    maxVolume: real,
    notes: seq<string>)

  /** A workout plan; `days` holds weekday names. */
  datatype WorkoutPlan = WorkoutPlan(
    id: string,
    userId: string,
    title: string,
    description: string,
    days: seq<string>)

  /** The per-set sequences of a progress row line up with its set count. */
  predicate IndexAligned(p: ExerciseProgress)
  {
    |p.reps| == p.sets && |p.weights| == p.sets && |p.notes| == p.sets
  }
}
