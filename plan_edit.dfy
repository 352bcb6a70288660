/**
 * The plan editor: the weekday check boxes that build a plan's day list, and
 * the request submitted for a new or an edited plan, whose days are put in
 * Monday-to-Sunday order.
 */
module PlanEdit {
  import opened Wrappers
  import opened Models

  const DaysOrder: seq<string> :=
    ["Monday", "Tuesday", "Wednesday", "Thursday", "Friday", "Saturday", "Sunday"]

  /** `s.indexOf(x)`: the first position of `x` in `s`, or -1 when it does not occur. */
  function IndexOf(s: seq<string>, x: string): (r: int)
    ensures -1 <= r < |s|
    ensures r >= 0 ==> s[r] == x && forall j :: 0 <= j < r ==> s[j] != x
    ensures r == -1 <==> x !in s
    decreases |s|
  {
    if s == [] then -1
    else if s[0] == x then 0
    else
      var r := IndexOf(s[1..], x);
      assert forall j :: 1 <= j < |s| ==> s[1..][j - 1] == s[j];
      if r == -1 then -1 else r + 1
  }

  /** `daysOrder.indexOf(day)`: the day's position from Monday, or -1 for any other string. */
  function DayIndex(day: string): int
  {
    IndexOf(DaysOrder, day)
  }

  /** The list is ordered by `key`: no element has a larger key than one after it. */
  ghost predicate SortedBy(s: seq<string>, key: string -> int)
  {
    forall i, j :: 0 <= i < j < |s| ==> key(s[i]) <= key(s[j])
  }

  /** Every day of the list comes no later in the week than the days after it. */
  ghost predicate InWeekOrder(days: seq<string>)
  {
    SortedBy(days, DayIndex)
  }

  /** Place `x` before the first element whose key is not smaller than its own. */
  function InsertBy(x: string, sorted: seq<string>, key: string -> int): (r: seq<string>)
    ensures multiset(r) == multiset(sorted) + multiset{x}
    ensures forall d :: d in r <==> d == x || d in sorted
    decreases |sorted|
  {
    if sorted == [] || key(x) <= key(sorted[0]) then [x] + sorted
    else
      assert sorted == [sorted[0]] + sorted[1..];
      [sorted[0]] + InsertBy(x, sorted[1..], key)
  }

  lemma ConsSortedBy(h: string, rest: seq<string>, key: string -> int)
    requires SortedBy(rest, key)
    requires forall d :: d in rest ==> key(h) <= key(d)
    ensures SortedBy([h] + rest, key)
  {
    var r := [h] + rest;
    forall i, j | 0 <= i < j < |r| ensures key(r[i]) <= key(r[j]) {
      assert r[j] == rest[j - 1];
      if i > 0 {
        assert r[i] == rest[i - 1];
      } else {
        assert rest[j - 1] in rest;
      }
    }
  }

  /** Inserting into a sorted list keeps it sorted. */
  lemma {:induction false} InsertBySorted(x: string, sorted: seq<string>, key: string -> int)
    requires SortedBy(sorted, key)
    ensures SortedBy(InsertBy(x, sorted, key), key)
    decreases |sorted|
  {
    if sorted != [] && key(x) > key(sorted[0]) {
      var tail := sorted[1..];
      assert SortedBy(tail, key);
      InsertBySorted(x, tail, key);
      forall d | d in InsertBy(x, tail, key) ensures key(sorted[0]) <= key(d) {
        if d != x {
          var j :| 0 <= j < |tail| && tail[j] == d;
          assert sorted[j + 1] == d;
        }
      }
      ConsSortedBy(sorted[0], InsertBy(x, tail, key), key);
    }
  }

  /** Insertion sort by `key`: a sorted permutation of the input. */
  function SortBy(s: seq<string>, key: string -> int): (r: seq<string>)
    ensures multiset(r) == multiset(s)
    ensures SortedBy(r, key)
    decreases |s|
  {
    if s == [] then []
    else
      assert s == [s[0]] + s[1..];
      InsertBySorted(s[0], SortBy(s[1..], key), key);
      InsertBy(s[0], SortBy(s[1..], key), key)
  }

  /** The elements of the list whose key is `k`, in list order. */
  function WithKey(s: seq<string>, key: string -> int, k: int): seq<string>
    decreases |s|
  {
    if s == [] then []
    else (if key(s[0]) == k then [s[0]] else []) + WithKey(s[1..], key, k)
  }

  lemma WithKeyCons(d: string, rest: seq<string>, key: string -> int, k: int)
    ensures WithKey([d] + rest, key, k) == (if key(d) == k then [d] else []) + WithKey(rest, key, k)
  {
    assert ([d] + rest)[1..] == rest;
  }

  lemma {:induction false} InsertByStable(x: string, sorted: seq<string>, key: string -> int, k: int)
    requires SortedBy(sorted, key)
    ensures WithKey(InsertBy(x, sorted, key), key, k) == (if key(x) == k then [x] else []) + WithKey(sorted, key, k)
    decreases |sorted|
  {
    if sorted == [] || key(x) <= key(sorted[0]) {
      WithKeyCons(x, sorted, key, k);
    } else {
      var head, tail := sorted[0], sorted[1..];
      assert SortedBy(tail, key);
      InsertByStable(x, tail, key, k);
      WithKeyCons(head, InsertBy(x, tail, key), key, k);
      WithKeyCons(head, tail, key, k);
      assert [head] + tail == sorted;
    }
  }

  /** The sort is stable: elements with equal keys keep their relative order. */
  lemma {:induction false} SortByStable(s: seq<string>, key: string -> int, k: int)
    ensures WithKey(SortBy(s, key), key, k) == WithKey(s, key, k)
    decreases |s|
  {
    if s != [] {
      SortByStable(s[1..], key, k);
      InsertByStable(s[0], SortBy(s[1..], key), key, k);
      WithKeyCons(s[0], s[1..], key, k);
      assert [s[0]] + s[1..] == s;
    }
  }

  /**
   * The submitted day order: the editor sorts a copy of the form's days with a
   * comparator on their week positions; JavaScript's sort is stable.
   */
  function SortDays(days: seq<string>): (r: seq<string>)
    ensures multiset(r) == multiset(days)
    ensures InWeekOrder(r)
    ensures forall k :: WithKey(r, DayIndex, k) == WithKey(days, DayIndex, k)
  {
    forall k ensures WithKey(SortBy(days, DayIndex), DayIndex, k) == WithKey(days, DayIndex, k) {
      SortByStable(days, DayIndex, k);
    }
    SortBy(days, DayIndex)
  }

  /** Unticking a day: every occurrence of it goes, the other days keep their order. */
  function RemoveDay(days: seq<string>, day: string): (r: seq<string>)
    ensures forall d :: d in r <==> d in days && d != day
    ensures multiset(r) == multiset(days)[day := 0]
    ensures |r| <= |days|
    decreases |days|
  {
    if days == [] then []
    else
      var rest := RemoveDay(days[1..], day);
      assert forall d :: d in days <==> d == days[0] || d in days[1..];
      assert days == [days[0]] + days[1..];
      if days[0] == day then rest else [days[0]] + rest
  }

  /** Removing a day from a list that does not hold it changes nothing. */
  lemma {:induction false} RemoveAbsentDay(days: seq<string>, day: string)
    requires day !in days
    ensures RemoveDay(days, day) == days
    decreases |days|
  {
    if days != [] {
      RemoveAbsentDay(days[1..], day);
      assert [days[0]] + days[1..] == days;
    }
  }

  /** Removing a day distributes over the two halves of a list. */
  lemma {:induction false} RemoveDayAppend(a: seq<string>, b: seq<string>, day: string)
    ensures RemoveDay(a + b, day) == RemoveDay(a, day) + RemoveDay(b, day)
    decreases |a|
  {
    if a == [] {
      assert a + b == b;
    } else {
      assert (a + b)[1..] == a[1..] + b;
      RemoveDayAppend(a[1..], b, day);
    }
  }

  /** Ticking a day that was not selected and then unticking it restores the selection. */
  lemma TickThenUntick(days: seq<string>, day: string)
    requires day !in days
    ensures RemoveDay(days + [day], day) == days
  {
    RemoveDayAppend(days, [day], day);
    RemoveAbsentDay(days, day);
    assert RemoveDay([day], day) == [];
  }

  /** A plan request as the editor sends it. */
  datatype PlanRequest =
    | AddPlan(userId: string, title: string, description: string, days: seq<string>)
    | UpdatePlan(userId: string, workoutId: string, title: string, description: string, days: seq<string>)

  class WorkoutEditComponent {
    var workoutId: string
    var editMode: bool
    var selectedDays: seq<string>
    var formName: string
    var formDescription: string
    var formDays: seq<string>

    /** The form's days control always holds the selected days. */
    ghost predicate Valid()
      reads this
    {
      formDays == selectedDays
    }

    constructor ()
      ensures Valid()
      ensures workoutId == "" && !editMode && selectedDays == []
      ensures formName == "" && formDescription == ""
    {
      workoutId := "";
      editMode := false;
      selectedDays := [];
      formName := "";
      formDescription := "";
      formDays := [];
    }

    /**
     * The route's plan id has arrived ("" when absent), with the plan it names
     * as fetched (`None` when missing). A found plan switches to edit mode and
     * fills the form and the selection from it.
     */
    method OnRouteParams(id: string, original: Option<WorkoutPlan>)
      requires Valid()
      modifies this
      ensures Valid()
      ensures workoutId == id
      ensures id == "" ==> !editMode && formName == old(formName) && formDescription == old(formDescription)
                           && selectedDays == old(selectedDays)
      ensures id != "" && original.None? ==>
                editMode == old(editMode) && formName == old(formName) && formDescription == old(formDescription)
                && selectedDays == old(selectedDays)
      ensures id != "" && original.Some? ==>
                editMode && formName == original.value.title && formDescription == original.value.description
                && selectedDays == original.value.days
    {
      workoutId := id;
      if id == "" {
        editMode := false;
        return;
      }
      if original.None? {
        return;
      }
      editMode := true;
      formName := original.value.title;
      formDescription := original.value.description;
      formDays := original.value.days;
      selectedDays := original.value.days;
    }

    /**
     * A weekday box was ticked or unticked: ticking appends the day (even when
     * it is already selected), unticking removes every occurrence of it; the
     * form's days follow the selection.
     */
    method OnDayChange(day: string, checked: bool)
      requires Valid()
      modifies this`selectedDays, this`formDays
      ensures Valid()
      ensures checked ==> selectedDays == old(selectedDays) + [day]
      ensures !checked ==> selectedDays == RemoveDay(old(selectedDays), day)
      ensures !checked ==> day !in selectedDays
    {
      if checked {
        selectedDays := selectedDays + [day];
      } else {
        selectedDays := RemoveDay(selectedDays, day);
      }
      formDays := selectedDays;
    }

    /**
     * The form's `required` validators: the name and the description are not
     * empty (white space counts as content) and at least one day is selected.
     */
    predicate FormValid()
      reads this
    {
      formName != "" && formDescription != "" && formDays != []
    }

    /**
     * The request that submitting sends: none for an invalid form; otherwise a
     * new plan, or an update of the edited one, whose days are the form's days
     * put in week order by a stable sort. The form itself is not touched.
     */
    function OnSubmit(userId: string): (r: Option<PlanRequest>)
      reads this
      ensures r.None? <==> !FormValid()
      ensures r.Some? ==> r.value.AddPlan? == !editMode
      ensures r.Some? && r.value.UpdatePlan? ==> r.value.workoutId == workoutId
      ensures r.Some? ==> r.value.userId == userId && r.value.title == formName && r.value.description == formDescription
      ensures r.Some? ==> multiset(r.value.days) == multiset(formDays) && InWeekOrder(r.value.days)
      ensures r.Some? ==> forall k :: WithKey(r.value.days, DayIndex, k) == WithKey(formDays, DayIndex, k)
    {
      if !FormValid() then None
      else
        var days := SortDays(formDays);
        if !editMode then Some(AddPlan(userId, formName, formDescription, days))
        else Some(UpdatePlan(userId, workoutId, formName, formDescription, days))
    }
  }
}
