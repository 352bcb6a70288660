/**
 * The browser's local storage, reduced to the two keys the application uses:
 * `activeWorkoutId` (the selected plan) and `completedWorkout` (the completion
 * ledger, stored as JSON; the model keeps the parsed value).
 */
module Storage {
  import opened Wrappers

  /** Completion ledger: plan id to the weekday names on which it was completed. */
  type Ledger = map<string, seq<string>>

  class LocalStore {
    /** `None` when the key is absent. */
    var activeWorkoutId: Option<string>
    /** `None` when the key is absent. */
    var completedWorkout: Option<Ledger>

    constructor ()
      ensures activeWorkoutId == None && completedWorkout == None
    {
      activeWorkoutId := None;
      completedWorkout := None;
    }
  }
}
