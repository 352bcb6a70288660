/**
 * The per-exercise drafts the home page keeps while a workout is in progress,
 * keyed by exercise id, and how starting a workout initialises them.
 */
module Drafts {
  import opened Wrappers
  import opened Models

  /** The values entered so far for one exercise: one entry per set. */
  datatype Draft = Draft(sets: nat, reps: seq<int>, weight: seq<real>, notes: seq<string>)

  type DraftMap = map<string, Draft>

  predicate Aligned(d: Draft)
  {
    |d.reps| == d.sets && |d.weight| == d.sets && |d.notes| == d.sets
  }

  ghost predicate AllAligned(m: DraftMap)
  {
    forall k :: k in m ==> Aligned(m[k])
  }

  /** Only exercises whose id is a non-empty string get a draft when a workout starts. */
  predicate HasDraftableId(ex: Exercise)
  {
    ex.id.Some? && ex.id.value != ""
  }

  /** The ids that starting a workout over `exs` gives a draft to. */
  ghost function DraftableIds(exs: seq<Exercise>): set<string>
  {
    set i | 0 <= i < |exs| && HasDraftableId(exs[i]) :: exs[i].id.value
  }

  /** A fresh draft: as many sets as planned, zero reps, zero weight and empty notes for each. */
  function FreshDraft(ex: Exercise): (d: Draft)
    ensures d.sets == ex.sets && Aligned(d)
    ensures forall i :: 0 <= i < ex.sets ==> d.reps[i] == 0 && d.weight[i] == 0.0 && d.notes[i] == ""
  {
    Draft(ex.sets, seq(ex.sets, _ => 0), seq(ex.sets, _ => 0.0), seq(ex.sets, _ => ""))
  }

  /** One step of the start-of-workout loop: add a fresh draft unless the id has one already. */
  function AddDraft(m: DraftMap, ex: Exercise): DraftMap
  {
    if HasDraftableId(ex) && ex.id.value !in m then m[ex.id.value := FreshDraft(ex)] else m
  }

  /** The drafts after the start-of-workout loop has visited `exs` in order. */
  function InitDrafts(m: DraftMap, exs: seq<Exercise>): (r: DraftMap)
    ensures m.Keys <= r.Keys
    ensures forall k :: k in m ==> r[k] == m[k]
    decreases |exs|
  {
    if exs == [] then m else AddDraft(InitDrafts(m, exs[..|exs| - 1]), exs[|exs| - 1])
  }

  /** The first exercise of `exs` whose id is the string `id` (JavaScript's `find`). */
  function FindExercise(exs: seq<Exercise>, id: string): (r: Option<Exercise>)
    ensures r.Some? <==> exists i :: 0 <= i < |exs| && exs[i].id == Some(id)
    ensures r.Some? ==> exists i :: 0 <= i < |exs| && exs[i] == r.value && exs[i].id == Some(id)
                                    && forall j :: 0 <= j < i ==> exs[j].id != Some(id)
  {
    if exs == [] then None
    else if exs[0].id == Some(id) then Some(exs[0])
    else
      var r := FindExercise(exs[1..], id);
      assert forall i :: 1 <= i < |exs| ==> exs[i] == exs[1..][i - 1];
      r
  }

  /** Searching a list extended at the end finds the same exercise unless the prefix had none. */
  lemma {:induction false} FindExerciseSnoc(exs: seq<Exercise>, x: Exercise, id: string)
    ensures FindExercise(exs + [x], id)
         == if FindExercise(exs, id).Some? then FindExercise(exs, id)
            else if x.id == Some(id) then Some(x) else None
  {
    if exs != [] {
      assert (exs + [x])[1..] == exs[1..] + [x];
      FindExerciseSnoc(exs[1..], x, id);
    }
  }

  lemma DraftableIdsSnoc(p: seq<Exercise>, x: Exercise)
    ensures DraftableIds(p + [x]) == DraftableIds(p) + (if HasDraftableId(x) then {x.id.value} else {})
  {
    var exs := p + [x];
    forall k | k in DraftableIds(exs) ensures k in DraftableIds(p) + (if HasDraftableId(x) then {x.id.value} else {}) {
      var i :| 0 <= i < |exs| && HasDraftableId(exs[i]) && exs[i].id.value == k;
      if i < |p| { assert exs[i] == p[i]; }
    }
    forall k | k in DraftableIds(p) ensures k in DraftableIds(exs) {
      var i :| 0 <= i < |p| && HasDraftableId(p[i]) && p[i].id.value == k;
      assert exs[i] == p[i];
    }
    if HasDraftableId(x) {
      assert exs[|exs| - 1] == x;
    }
  }

  /**
   * Starting a workout adds a fresh draft for exactly the draftable ids that
   * have none, built from the first exercise with that id, and leaves every
   * existing draft as it was.
   */
  lemma {:induction false} InitDraftsSpec(m: DraftMap, exs: seq<Exercise>)
    ensures InitDrafts(m, exs).Keys == m.Keys + DraftableIds(exs)
    ensures forall k :: k in m ==> InitDrafts(m, exs)[k] == m[k]
    ensures forall k :: k in InitDrafts(m, exs) && k !in m ==>
              FindExercise(exs, k).Some? && InitDrafts(m, exs)[k] == FreshDraft(FindExercise(exs, k).value)
    decreases |exs|
  {
    if exs != [] {
      var p, x := exs[..|exs| - 1], exs[|exs| - 1];
      assert exs == p + [x];
      InitDraftsSpec(m, p);
      DraftableIdsSnoc(p, x);
      var before := InitDrafts(m, p);
      var after := InitDrafts(m, exs);
      assert after == AddDraft(before, x);
      forall k | k in after && k !in m
        ensures FindExercise(exs, k).Some? && after[k] == FreshDraft(FindExercise(exs, k).value)
      {
        FindExerciseSnoc(p, x, k);
        if k in before {
          assert before[k] == FreshDraft(FindExercise(p, k).value);
        } else {
          assert x.id == Some(k);
        }
      }
    }
  }

  /** Starting a workout a second time leaves the drafts exactly as the first start left them. */
  lemma InitDraftsIdempotent(m: DraftMap, exs: seq<Exercise>)
    ensures InitDrafts(InitDrafts(m, exs), exs) == InitDrafts(m, exs)
  {
    var once := InitDrafts(m, exs);
    InitDraftsSpec(m, exs);
    InitDraftsSpec(once, exs);
    assert InitDrafts(once, exs).Keys == once.Keys;
  }

  /**
   * The empty id never receives a draft from starting a workout; ids that are
   * missing or not strings have no key to be drafted under at all.
   */
  lemma NoDraftForInvalidId(m: DraftMap, exs: seq<Exercise>)
    requires "" !in m
    ensures "" !in InitDrafts(m, exs)
  {
    InitDraftsSpec(m, exs);
  }

  /** Every draft that starting a workout creates has one entry per set in each sequence. */
  lemma {:induction false} InitDraftsAligned(m: DraftMap, exs: seq<Exercise>)
    requires AllAligned(m)
    ensures AllAligned(InitDrafts(m, exs))
    decreases |exs|
  {
    if exs != [] {
      InitDraftsAligned(m, exs[..|exs| - 1]);
    }
  }
}
