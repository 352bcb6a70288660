/**
 * The plan list's choice of the active plan, kept in the component and under
 * the `activeWorkoutId` key of local storage.
 */
module PlanList {
  import opened Wrappers
  import Storage

  class WorkoutListComponent {
    var activeWorkoutId: string

    /** The component's active id is what storage holds, "" when the key is absent. */
    ghost predicate InSync(store: Storage.LocalStore)
      reads this, store
    {
      activeWorkoutId == store.activeWorkoutId.GetOr("")
    }

    constructor ()
      ensures activeWorkoutId == ""
    {
      activeWorkoutId := "";
    }

    /** Page initialisation: the active id is the stored one, or "" when none is stored. */
    method OnInit(store: Storage.LocalStore)
      modifies this
      ensures activeWorkoutId == store.activeWorkoutId.GetOr("")
      ensures InSync(store)
    {
      activeWorkoutId := store.activeWorkoutId.GetOr("");
    }

    /** Make plan `id` the active one, in the component and in storage. */
    method ActivateWorkout(id: string, store: Storage.LocalStore)
      modifies this, store`activeWorkoutId
      ensures activeWorkoutId == id && store.activeWorkoutId == Some(id)
      ensures InSync(store)
    {
      activeWorkoutId := id;
      store.activeWorkoutId := Some(id);
    }

    /**
     * Deactivate plan `id`: when it is the active one, clear the component's id
     * and remove the stored key; for any other id change nothing.
     */
    method DeactivateWorkout(id: string, store: Storage.LocalStore)
      modifies this, store`activeWorkoutId
      ensures old(activeWorkoutId) == id ==> activeWorkoutId == "" && store.activeWorkoutId == None
      ensures old(activeWorkoutId) != id ==>
                activeWorkoutId == old(activeWorkoutId) && store.activeWorkoutId == old(store.activeWorkoutId)
      ensures old(InSync(store)) ==> InSync(store)
    {
      if activeWorkoutId == id {
        activeWorkoutId := "";
        store.activeWorkoutId := None;
      }
    }
  }

  /** Activating a plan and then deactivating the same plan leaves no active plan anywhere. */
  method ActivateThenDeactivate(list: WorkoutListComponent, store: Storage.LocalStore, id: string)
    modifies list, store
    ensures list.activeWorkoutId == "" && store.activeWorkoutId == None
  {
    list.ActivateWorkout(id, store);
    list.DeactivateWorkout(id, store);
  }
}
