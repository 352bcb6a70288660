/**
 * The home page's workout session: it loads today's routine for the active
 * plan, walks the user through it one exercise at a time, collects the values
 * entered for each set, builds the progress rows to save when the workout ends
 * and records the completion in local storage.
 */
module Home {
  import opened Wrappers
  import opened Models
  import opened Drafts
  import opened Ledger
  import Storage

  const RoutineHeader: string := "This is your routine for the day:"
  const NoExercisesHeader: string := "You have no exercises for today."

  /** One row of the set-entry form. */
  datatype SetEntry = SetEntry(reps: int, weight: real, notes: string)

  /** The set-entry form for an exercise: one blank row (0 reps, 0 weight, no notes) per planned set. */
  function BlankForm(ex: Exercise): (rows: seq<SetEntry>)
    ensures |rows| == ex.sets
    ensures forall i :: 0 <= i < |rows| ==> rows[i] == SetEntry(0, 0.0, "")
  {
    seq(ex.sets, _ => SetEntry(0, 0.0, ""))
  }

  /** The draft that submitting the form stores: the planned set count and the form's columns. */
  function DraftFromForm(ex: Exercise, rows: seq<SetEntry>): (d: Draft)
    ensures d.sets == ex.sets
    ensures |d.reps| == |rows| && |d.weight| == |rows| && |d.notes| == |rows|
    ensures forall i :: 0 <= i < |rows| ==>
              d.reps[i] == rows[i].reps && d.weight[i] == rows[i].weight && d.notes[i] == rows[i].notes
    ensures |rows| == ex.sets ==> Aligned(d)
  {
    Draft(ex.sets,
          seq(|rows|, i requires 0 <= i < |rows| => rows[i].reps),
          seq(|rows|, i requires 0 <= i < |rows| => rows[i].weight),
          seq(|rows|, i requires 0 <= i < |rows| => rows[i].notes))
  }

  /** The exercise ids of a list of progress rows. */
  ghost function IdsOf(records: seq<ExerciseProgress>): set<string>
  {
    set i | 0 <= i < |records| :: records[i].exerciseId
  }

  lemma IdsOfSnoc(records: seq<ExerciseProgress>, r: ExerciseProgress)
    ensures IdsOf(records + [r]) == IdsOf(records) + {r.exerciseId}
  {
    var s := records + [r];
    assert s[|records|] == r;
    forall k | k in IdsOf(records) ensures k in IdsOf(s) {
      var i :| 0 <= i < |records| && records[i].exerciseId == k;
      assert s[i] == records[i];
    }
  }

  class HomeComponent {
    var activeWorkoutId: string
    var activeWorkout: Option<WorkoutPlan>
    var currentDay: string
    var todaysExercises: seq<Exercise>
    var workoutDayHeader: string
    /** The set-entry form; `None` until a workout has been started. */
    var exerciseProgressForm: Option<seq<SetEntry>>
    var currentExerciseIndex: nat
    var inWorkout: bool
    var workoutCompleted: bool
    var workoutsCompletedCount: int
    var exerciseProgress: DraftMap

    /**
     * The form, once built, belongs to the current exercise and has one row per
     * planned set; a workout in progress always has a form; every draft has one
     * entry per set.
     */
    ghost predicate Valid()
      reads this
    {
      && (exerciseProgressForm.Some? ==>
            currentExerciseIndex < |todaysExercises|
            && |exerciseProgressForm.value| == todaysExercises[currentExerciseIndex].sets)
      && (inWorkout ==> exerciseProgressForm.Some?)
      && AllAligned(exerciseProgress)
    }

    constructor ()
      ensures Valid()
      ensures activeWorkoutId == "" && activeWorkout == None && currentDay == ""
      ensures todaysExercises == [] && workoutDayHeader == RoutineHeader
      ensures exerciseProgressForm == None && currentExerciseIndex == 0
      ensures !inWorkout && !workoutCompleted && workoutsCompletedCount == 0
      ensures exerciseProgress == map[]
    {
      activeWorkoutId := "";
      activeWorkout := None;
      currentDay := "";
      todaysExercises := [];
      workoutDayHeader := RoutineHeader;
      exerciseProgressForm := None;
      currentExerciseIndex := 0;
      inWorkout := false;
      workoutCompleted := false;
      workoutsCompletedCount := 0;
      exerciseProgress := map[];
    }

    /**
     * Page initialisation: today's weekday name from the clock's day number
     * (0 is Sunday), the active plan id from storage ("" when absent), and
     * whether the ledger already records today for that plan.
     */
    method OnInit(weekday: nat, store: Storage.LocalStore)
      requires Valid()
      requires weekday < 7
      modifies this
      ensures Valid()
      ensures currentDay == DaysOfWeek[weekday]
      ensures activeWorkoutId == store.activeWorkoutId.GetOr("")
      ensures workoutCompleted == CompletedToday(store.completedWorkout, activeWorkoutId, currentDay)
      ensures activeWorkout == old(activeWorkout) && todaysExercises == old(todaysExercises)
      ensures workoutDayHeader == old(workoutDayHeader)
      ensures exerciseProgressForm == old(exerciseProgressForm)
      ensures currentExerciseIndex == old(currentExerciseIndex) && inWorkout == old(inWorkout)
      ensures workoutsCompletedCount == old(workoutsCompletedCount)
      ensures exerciseProgress == old(exerciseProgress)
    {
      currentDay := DaysOfWeek[weekday];
      activeWorkoutId := store.activeWorkoutId.GetOr("");
      if store.completedWorkout.Some? && activeWorkoutId != "" {
        var completed := store.completedWorkout.value;
        var completedDaysForWorkout := if activeWorkoutId in completed then completed[activeWorkoutId] else [];
        workoutCompleted := currentDay in completedDaysForWorkout;
      } else {
        workoutCompleted := false;
      }
    }

    /** The user's stored count of completed workouts has arrived. */
    method OnWorkoutCountLoaded(count: int)
      requires Valid()
      modifies this`workoutsCompletedCount
      ensures Valid() && workoutsCompletedCount == count
    {
      workoutsCompletedCount := count;
    }

    /** The active plan fetched by id has arrived. */
    method OnActiveWorkoutLoaded(plan: Option<WorkoutPlan>)
      requires Valid()
      modifies this`activeWorkout
      ensures Valid() && activeWorkout == plan
    {
      activeWorkout := plan;
    }

    /**
     * Today's routine has arrived (`None` stands for a missing list). The
     * routine is fetched once, from page initialisation, before any set-entry
     * form exists.
     */
    method OnExercisesLoaded(exercises: Option<seq<Exercise>>)
      requires Valid() && exerciseProgressForm.None?
      modifies this`todaysExercises, this`workoutDayHeader
      ensures Valid()
      ensures todaysExercises == exercises.GetOr([])
      ensures workoutDayHeader == if todaysExercises == [] then NoExercisesHeader else old(workoutDayHeader)
    {
      todaysExercises := exercises.GetOr([]);
      if |todaysExercises| == 0 {
        workoutDayHeader := NoExercisesHeader;
      }
    }

    /**
     * Start the workout: with an empty routine nothing changes; otherwise the
     * session is in progress at the first exercise, every exercise with a
     * draftable id and no draft yet gets a fresh one, and the form is built
     * for the first exercise.
     */
    method StartWorkout()
      requires Valid()
      modifies this`inWorkout, this`currentExerciseIndex, this`exerciseProgress, this`exerciseProgressForm
      ensures Valid()
      ensures todaysExercises == [] ==>
                inWorkout == old(inWorkout) && currentExerciseIndex == old(currentExerciseIndex)
                && exerciseProgress == old(exerciseProgress) && exerciseProgressForm == old(exerciseProgressForm)
      ensures todaysExercises != [] ==>
                inWorkout && currentExerciseIndex == 0
                && exerciseProgress == InitDrafts(old(exerciseProgress), todaysExercises)
                && exerciseProgressForm == Some(BlankForm(todaysExercises[0]))
    {
      if |todaysExercises| > 0 {
        inWorkout := true;
        currentExerciseIndex := 0;
        var drafts := exerciseProgress;
        for i := 0 to |todaysExercises|
          invariant drafts == InitDrafts(exerciseProgress, todaysExercises[..i])
        {
          assert todaysExercises[..i + 1][..i] == todaysExercises[..i];
          var ex := todaysExercises[i];
          if ex.id.Some? && ex.id.value != "" {
            if ex.id.value !in drafts {
              drafts := drafts[ex.id.value := FreshDraft(ex)];
            }
          }
        }
        assert todaysExercises[..|todaysExercises|] == todaysExercises;
        InitDraftsAligned(exerciseProgress, todaysExercises);
        exerciseProgress := drafts;
        exerciseProgressForm := Some(BlankForm(todaysExercises[currentExerciseIndex]));
      }
    }

    /** The user edits row `i` of the set-entry form. */
    method EditSet(i: nat, entry: SetEntry)
      requires Valid() && exerciseProgressForm.Some? && i < |exerciseProgressForm.value|
      modifies this`exerciseProgressForm
      ensures Valid()
      ensures exerciseProgressForm == Some(old(exerciseProgressForm.value)[i := entry])
    {
      exerciseProgressForm := Some(exerciseProgressForm.value[i := entry]);
    }

    /**
     * Store the form in the current exercise's draft, replacing the draft for
     * that id only; an exercise whose id is not a string stores nothing.
     */
    method OnSubmit()
      requires Valid() && exerciseProgressForm.Some?
      modifies this`exerciseProgress
      ensures Valid()
      ensures var ex := todaysExercises[currentExerciseIndex];
              exerciseProgress
                == if ex.id.Some? then old(exerciseProgress)[ex.id.value := DraftFromForm(ex, exerciseProgressForm.value)]
                   else old(exerciseProgress)
      ensures var ex := todaysExercises[currentExerciseIndex];
              ex.id.Some? ==> |exerciseProgress[ex.id.value].reps| == ex.sets
                              && |exerciseProgress[ex.id.value].weight| == ex.sets
                              && |exerciseProgress[ex.id.value].notes| == ex.sets
    {
      var currentExercise := todaysExercises[currentExerciseIndex];
      if currentExercise.id.Some? {
        exerciseProgress := exerciseProgress[currentExercise.id.value := DraftFromForm(currentExercise, exerciseProgressForm.value)];
      }
    }

    /** The ids whose draft belongs to an exercise of today's routine. */
    ghost function MatchedIds(): set<string>
      reads this`exerciseProgress, this`todaysExercises
    {
      set k | k in exerciseProgress && FindExercise(todaysExercises, k).Some?
    }

    /**
     * The row saved for a draft: its id belongs to an exercise of today's
     * routine; it carries the user, the active plan's id ("" when the plan has
     * not loaded), that exercise's day and name, the draft's sets, reps,
     * weights and notes, one entry per set, and a zero maximum volume.
     */
    ghost predicate IsRecordFor(r: ExerciseProgress, userId: string)
      reads this`exerciseProgress, this`todaysExercises, this`activeWorkout
    {
      && r.exerciseId in MatchedIds()
      && var ex := FindExercise(todaysExercises, r.exerciseId).value;
      && var d := exerciseProgress[r.exerciseId];
      && r.userId == userId
      && r.workoutId == (if activeWorkout.Some? then activeWorkout.value.id else "")
      && r.dayId == ex.dayId && r.name == ex.name
      && r.sets == d.sets && r.reps == d.reps && r.weights == d.weight && r.notes == d.notes
      && r.maxVolume == 0.0
    }

    /**
     * Build the progress rows to save: one row for every draft whose id belongs
     * to an exercise of today's routine, carrying that draft's sets, reps,
     * weights and notes, the exercise's day and name, the active plan's id (""
     * when it has not loaded) and a zero maximum volume. Drafts are not changed.
     */
    method FinishWorkout(userId: string) returns (records: seq<ExerciseProgress>)
      requires Valid()
      ensures forall i :: 0 <= i < |records| ==> IsRecordFor(records[i], userId) && IndexAligned(records[i])
      ensures IdsOf(records) == MatchedIds()
      ensures forall i, j :: 0 <= i < j < |records| ==> records[i].exerciseId != records[j].exerciseId
    {
      var workoutId := if activeWorkout.Some? then activeWorkout.value.id else "";
      var pending := exerciseProgress.Keys;
      records := [];
      while pending != {}
        invariant pending <= exerciseProgress.Keys
        invariant forall i :: 0 <= i < |records| ==> records[i].exerciseId !in pending && IsRecordFor(records[i], userId)
        invariant IdsOf(records) == MatchedIds() - pending
        invariant forall i, j :: 0 <= i < j < |records| ==> records[i].exerciseId != records[j].exerciseId
        decreases pending
      {
        var exerciseId :| exerciseId in pending;
        var progress := exerciseProgress[exerciseId];
        var currentExercise := FindExercise(todaysExercises, exerciseId);
        if currentExercise.Some? {
          var ex := currentExercise.value;
          var row := ExerciseProgress(exerciseId, userId, workoutId, ex.dayId, ex.name,
                                      progress.sets, progress.reps, progress.weight, 0.0, progress.notes);
          assert exerciseId in MatchedIds();
          assert IsRecordFor(row, userId);
          IdsOfSnoc(records, row);
          records := records + [row];
        }
        pending := pending - {exerciseId};
      }
      forall i | 0 <= i < |records| ensures IndexAligned(records[i]) {
        assert Aligned(exerciseProgress[records[i].exerciseId]);
      }
    }

    /**
     * Move to the next exercise and build its form; at the last exercise (or
     * with no routine) end the session instead and build the rows to save.
     */
    method NextExercise(userId: string) returns (records: seq<ExerciseProgress>)
      requires Valid()
      modifies this`currentExerciseIndex, this`exerciseProgressForm, this`inWorkout
      ensures Valid()
      ensures old(currentExerciseIndex) + 1 < |todaysExercises| ==>
                && currentExerciseIndex == old(currentExerciseIndex) + 1
                && exerciseProgressForm == Some(BlankForm(todaysExercises[currentExerciseIndex]))
                && inWorkout == old(inWorkout)
                && records == []
      ensures old(currentExerciseIndex) + 1 >= |todaysExercises| ==>
                && currentExerciseIndex == old(currentExerciseIndex)
                && exerciseProgressForm == old(exerciseProgressForm)
                && !inWorkout
                && (forall i :: 0 <= i < |records| ==> IsRecordFor(records[i], userId))
                && IdsOf(records) == MatchedIds()
                && (forall i, j :: 0 <= i < j < |records| ==> records[i].exerciseId != records[j].exerciseId)
      ensures old(currentExerciseIndex) < |todaysExercises| ==> currentExerciseIndex < |todaysExercises|
    {
      if currentExerciseIndex + 1 < |todaysExercises| {
        currentExerciseIndex := currentExerciseIndex + 1;
        exerciseProgressForm := Some(BlankForm(todaysExercises[currentExerciseIndex]));
        records := [];
      } else {
        inWorkout := false;
        records := FinishWorkout(userId);
      }
    }

    /** The "next" button: store the form in the current draft, then move on (or end the session). */
    method OnNextExercise(userId: string) returns (records: seq<ExerciseProgress>)
      requires Valid() && exerciseProgressForm.Some?
      modifies this`exerciseProgress, this`currentExerciseIndex, this`exerciseProgressForm, this`inWorkout
      ensures Valid()
      ensures var ex := old(todaysExercises[currentExerciseIndex]);
              exerciseProgress
                == if ex.id.Some? then old(exerciseProgress)[ex.id.value := DraftFromForm(ex, old(exerciseProgressForm.value))]
                   else old(exerciseProgress)
      ensures old(currentExerciseIndex) + 1 < |todaysExercises| ==>
                && currentExerciseIndex == old(currentExerciseIndex) + 1
                && exerciseProgressForm == Some(BlankForm(todaysExercises[currentExerciseIndex]))
                && inWorkout == old(inWorkout)
                && records == []
      ensures old(currentExerciseIndex) + 1 >= |todaysExercises| ==>
                && currentExerciseIndex == old(currentExerciseIndex)
                && exerciseProgressForm == old(exerciseProgressForm)
                && !inWorkout && IdsOf(records) == MatchedIds()
                && (forall i :: 0 <= i < |records| ==> IsRecordFor(records[i], userId))
                && (forall i, j :: 0 <= i < j < |records| ==> records[i].exerciseId != records[j].exerciseId)
    {
      OnSubmit();
      records := NextExercise(userId);
    }

    /**
     * Record today's weekday for the active plan in the stored ledger: the
     * ledger and the plan's list are created when absent, and the day is
     * appended only when the list does not hold it yet.
     */
    method MarkTodayCompleted(store: Storage.LocalStore)
      modifies store`completedWorkout
      ensures store.completedWorkout
                == Some(MarkCompleted(old(store.completedWorkout).GetOr(map[]), activeWorkoutId, currentDay))
    {
      var completed := if store.completedWorkout.Some? then store.completedWorkout.value else map[];
      if activeWorkoutId !in completed {
        completed := completed[activeWorkoutId := []];
      }
      if currentDay !in completed[activeWorkoutId] {
        completed := completed[activeWorkoutId := completed[activeWorkoutId] + [currentDay]];
      }
      assert completed == MarkCompleted(old(store.completedWorkout).GetOr(map[]), activeWorkoutId, currentDay);
      store.completedWorkout := Some(completed);
    }

    /**
     * Finish the workout: store the form, build the rows to save, end the
     * session, record today's weekday for the active plan in the stored ledger
     * (creating the ledger and the plan's list when absent, never recording a
     * day twice), mark the workout completed and count it.
     */
    method OnFinishWorkout(userId: string, store: Storage.LocalStore) returns (records: seq<ExerciseProgress>)
      requires Valid() && exerciseProgressForm.Some?
      modifies this`exerciseProgress, this`inWorkout, this`workoutCompleted, this`workoutsCompletedCount
      modifies store`completedWorkout
      ensures Valid()
      ensures !inWorkout && workoutCompleted
      ensures workoutsCompletedCount == old(workoutsCompletedCount) + 1
      ensures store.completedWorkout
                == Some(MarkCompleted(old(store.completedWorkout).GetOr(map[]), activeWorkoutId, currentDay))
      ensures var ex := old(todaysExercises[currentExerciseIndex]);
              exerciseProgress
                == if ex.id.Some? then old(exerciseProgress)[ex.id.value := DraftFromForm(ex, old(exerciseProgressForm.value))]
                   else old(exerciseProgress)
      ensures forall i :: 0 <= i < |records| ==> IsRecordFor(records[i], userId)
      ensures IdsOf(records) == MatchedIds()
      ensures forall i, j :: 0 <= i < j < |records| ==> records[i].exerciseId != records[j].exerciseId
    {
      OnSubmit();
      records := FinishWorkout(userId);
      CloseSession(store);
    }

    /**
     * The end of a finished session: leave the workout, record today for the
     * active plan in the stored ledger, mark the workout completed and count it.
     */
    method CloseSession(store: Storage.LocalStore)
      requires Valid()
      modifies this`inWorkout, this`workoutCompleted, this`workoutsCompletedCount, store`completedWorkout
      ensures Valid()
      ensures !inWorkout && workoutCompleted
      ensures workoutsCompletedCount == old(workoutsCompletedCount) + 1
      ensures store.completedWorkout
                == Some(MarkCompleted(old(store.completedWorkout).GetOr(map[]), activeWorkoutId, currentDay))
    {
      inWorkout := false;
      MarkTodayCompleted(store);
      workoutCompleted := true;
      workoutsCompletedCount := workoutsCompletedCount + 1;
    }
  }
}
