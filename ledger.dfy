/**
 * The completion ledger kept by the home page in local storage: for each plan
 * id, the weekday names on which that plan's workout was finished.
 */
module Ledger {
  import opened Wrappers
  import opened Storage

  /** Weekday names indexed by `Date.getDay()`: 0 is Sunday. */
  const DaysOfWeek: seq<string> :=
    ["Sunday", "Monday", "Tuesday", "Wednesday", "Thursday", "Friday", "Saturday"]

  /** No weekday is recorded twice for the same plan. */
  ghost predicate NoDuplicates(days: seq<string>)
  {
    forall i, j :: 0 <= i < j < |days| ==> days[i] != days[j]
  }

  ghost predicate WellFormed(ledger: Ledger)
  {
    forall id :: id in ledger ==> NoDuplicates(ledger[id])
  }

  /** The days recorded for a plan; a plan without an entry has none. */
  function DaysFor(ledger: Ledger, id: string): seq<string>
  {
    if id in ledger then ledger[id] else []
  }

  /**
   * The ledger after finishing plan `id` on `day`: the plan's list is created
   * when missing and `day` is appended to it unless it is already there.
   */
  function MarkCompleted(ledger: Ledger, id: string, day: string): (r: Ledger)
    ensures r.Keys == ledger.Keys + {id}
    ensures day in r[id]
    ensures day in DaysFor(ledger, id) ==> r[id] == ledger[id]
    ensures day !in DaysFor(ledger, id) ==> r[id] == DaysFor(ledger, id) + [day]
  {
    var days := DaysFor(ledger, id);
    ledger[id := if day in days then days else days + [day]]
  }

  /**
   * Whether the home page, when it loads, shows the workout as done: a ledger
   * is stored, a plan is active (a non-empty id) and that plan's list holds
   * today's weekday name.
   */
  function CompletedToday(stored: Option<Ledger>, activeId: string, day: string): bool
  {
    stored.Some? && activeId != "" && day in DaysFor(stored.value, activeId)
  }

  /** Marking a day twice gives the same ledger as marking it once. */
  lemma MarkCompletedIdempotent(ledger: Ledger, id: string, day: string)
    ensures MarkCompleted(MarkCompleted(ledger, id, day), id, day) == MarkCompleted(ledger, id, day)
  {
  }

  /** Appending only absent days keeps every plan's list free of duplicates. */
  lemma MarkCompletedKeepsNoDuplicates(ledger: Ledger, id: string, day: string)
    requires WellFormed(ledger)
    ensures WellFormed(MarkCompleted(ledger, id, day))
  {
    var r := MarkCompleted(ledger, id, day);
    var days := DaysFor(ledger, id);
    assert NoDuplicates(days);
    if day !in days {
      forall i, j | 0 <= i < j < |r[id]| ensures r[id][i] != r[id][j] {
        if j == |days| {
          assert r[id][j] == day;
          assert r[id][i] == days[i];
        } else {
          assert r[id][i] == days[i] && r[id][j] == days[j];
        }
      }
    }
  }

  /**
   * After a workout of a selected plan is finished, reloading the home page
   * on the same weekday shows it as completed.
   */
  lemma FinishedShowsCompleted(stored: Option<Ledger>, id: string, day: string)
    requires id != ""
    ensures CompletedToday(Some(MarkCompleted(stored.GetOr(map[]), id, day)), id, day)
  {
  }

  /** Finishing one plan leaves every other plan's list as it was. */
  lemma MarkCompletedKeepsOtherPlans(ledger: Ledger, id: string, day: string, other: string)
    requires other in ledger && other != id
    ensures other in MarkCompleted(ledger, id, day) && MarkCompleted(ledger, id, day)[other] == ledger[other]
  {
  }

  /** Finishing one plan changes what the page shows for no other plan, on no other day. */
  lemma MarkCompletedIsLocal(ledger: Ledger, id: string, day: string, otherId: string, otherDay: string)
    requires otherId != id || otherDay != day
    ensures CompletedToday(Some(MarkCompleted(ledger, id, day)), otherId, otherDay)
        == CompletedToday(Some(ledger), otherId, otherDay)
  {
  }
}
