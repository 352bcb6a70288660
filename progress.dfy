/**
 * The per-exercise progress page: from the logged rows of one exercise it
 * derives the total volume and the heaviest set of every session, the two
 * chart series built from them, and the padded date range of the time axis.
 */
module ProgressChart {
  import opened Wrappers

  /** A stored numeric column; rows written by older versions hold a single number instead of a list. */
  datatype Column<T> = List(items: seq<T>) | Scalar(item: T)

  /** The column as a list: a single number becomes a one-element list. */
  function AsList<T>(c: Column<T>): (s: seq<T>)
    ensures c.List? ==> s == c.items
    ensures c.Scalar? ==> |s| == 1 && s[0] == c.item
  {
    match c
    case List(items) => items
    case Scalar(item) => [item]
  }

  /**
   * The fields of a logged progress row that the page reads. `createdAt` is a
   * day number; `None` stands for a missing or unparsable timestamp.
   */
  datatype ProgressRow = ProgressRow(weights: Column<real>, reps: Column<int>, createdAt: Option<int>)

  /** The reps of set `i`, or 0 when there is no such entry (`reps[i] ?? 0`). */
  function RepsAt(reps: seq<int>, i: nat): int
  {
    if i < |reps| then reps[i] else 0
  }

  /** The remaining reps after the first entry. */
  function Rest(reps: seq<int>): seq<int>
  {
    if reps == [] then [] else reps[1..]
  }

  /**
   * The total volume defined set by set from the front:
   * weights[0] * reps[0] + weights[1] * reps[1] + ..., with 0 reps where none are logged.
   */
  function SumOfSets(weights: seq<real>, reps: seq<int>): real
    decreases |weights|
  {
    if weights == [] then 0.0
    else weights[0] * RepsAt(reps, 0) as real + SumOfSets(weights[1..], Rest(reps))
  }

  lemma {:induction false} SumOfSetsSnoc(weights: seq<real>, w: real, reps: seq<int>)
    ensures SumOfSets(weights + [w], reps) == SumOfSets(weights, reps) + w * RepsAt(reps, |weights|) as real
    decreases |weights|
  {
    if weights == [] {
      assert [w][1..] == [];
    } else {
      assert (weights + [w])[1..] == weights[1..] + [w];
      SumOfSetsSnoc(weights[1..], w, Rest(reps));
      assert RepsAt(Rest(reps), |weights| - 1) == RepsAt(reps, |weights|);
    }
  }

  /**
   * The total volume as the page's `reduce` computes it: a running sum, from
   * the first set on, of each set's weight times its reps. It is exactly the
   * sum over sets of weight times reps.
   */
  function Volume(weights: seq<real>, reps: seq<int>): (r: real)
    ensures r == SumOfSets(weights, reps)
    decreases |weights|
  {
    if weights == [] then 0.0
    else
      var init, last := weights[..|weights| - 1], weights[|weights| - 1];
      assert init + [last] == weights;
      SumOfSetsSnoc(init, last, reps);
      Volume(init, reps) + last * RepsAt(reps, |weights| - 1) as real
  }

  /**
   * The volume depends only on the reps of the sets that have a weight: reps
   * logged beyond the last weight are ignored and missing reps count as 0.
   */
  lemma {:induction false} VolumeUsesPairedRepsOnly(weights: seq<real>, reps1: seq<int>, reps2: seq<int>)
    requires forall i :: 0 <= i < |weights| ==> RepsAt(reps1, i) == RepsAt(reps2, i)
    ensures Volume(weights, reps1) == Volume(weights, reps2)
    decreases |weights|
  {
    if weights != [] {
      VolumeUsesPairedRepsOnly(weights[..|weights| - 1], reps1, reps2);
    }
  }

  /** Extra reps beyond the weights change nothing. */
  lemma ExtraRepsIgnored(weights: seq<real>, reps: seq<int>, extra: seq<int>)
    requires |reps| >= |weights|
    ensures Volume(weights, reps + extra) == Volume(weights, reps)
  {
    VolumeUsesPairedRepsOnly(weights, reps + extra, reps);
  }

  /** A session with no weights has volume 0, whatever its reps. */
  lemma NoWeightsNoVolume(reps: seq<int>)
    ensures Volume([], reps) == 0.0
  {
  }

  /** With non-negative weights and reps the volume is non-negative. */
  lemma {:induction false} VolumeNonNegative(weights: seq<real>, reps: seq<int>)
    requires forall i :: 0 <= i < |weights| ==> weights[i] >= 0.0
    requires forall i :: 0 <= i < |reps| ==> reps[i] >= 0
    ensures Volume(weights, reps) >= 0.0
    decreases |weights|
  {
    if weights != [] {
      var n := |weights| - 1;
      VolumeNonNegative(weights[..n], reps);
      assert RepsAt(reps, n) >= 0;
      assert weights[n] * RepsAt(reps, n) as real >= 0.0;
    }
  }

  /** The heaviest set of a session, with 0 as the floor (`Math.max(...weights, 0)`). */
  function MaxWeight(weights: seq<real>): (r: real)
    ensures r >= 0.0
    ensures forall i :: 0 <= i < |weights| ==> weights[i] <= r
    ensures r == 0.0 || exists i :: 0 <= i < |weights| && weights[i] == r
    decreases |weights|
  {
    if weights == [] then 0.0
    else
      var m := MaxWeight(weights[..|weights| - 1]);
      assert forall i :: 0 <= i < |weights| - 1 ==> weights[..|weights| - 1][i] == weights[i];
      if weights[|weights| - 1] > m then weights[|weights| - 1] else m
  }

  /** Total volume of one logged session. */
  function SessionVolume(row: ProgressRow): (r: real)
    ensures r == SumOfSets(AsList(row.weights), AsList(row.reps))
  {
    Volume(AsList(row.weights), AsList(row.reps))
  }

  /** Heaviest set of one logged session. */
  function SessionMaxWeight(row: ProgressRow): (r: real)
    ensures r >= 0.0 && forall w :: w in AsList(row.weights) ==> w <= r
    ensures r == 0.0 || r in AsList(row.weights)
  {
    MaxWeight(AsList(row.weights))
  }

  /** A legacy row with one weight and one rep count has volume weight times reps. */
  lemma ScalarSessionVolume(w: real, r: int, at: Option<int>)
    ensures SessionVolume(ProgressRow(Scalar(w), Scalar(r), at)) == w * r as real
  {
    assert AsList(Scalar(w)) == [w] && AsList(Scalar(r)) == [r];
    assert [w][..0] == [];
    assert Volume([w], [r]) == Volume([], [r]) + w * RepsAt([r], 0) as real;
  }

  /** Three sets of 5 reps at 100, 110 and 120: volume 1650, heaviest set 120. */
  lemma ThreeSetExample(at: Option<int>)
    ensures SessionVolume(ProgressRow(List([100.0, 110.0, 120.0]), List([5, 5, 5]), at)) == 1650.0
    ensures SessionMaxWeight(ProgressRow(List([100.0, 110.0, 120.0]), List([5, 5, 5]), at)) == 120.0
  {
    var ws, rs := [100.0, 110.0, 120.0], [5, 5, 5];
    assert ws[..2] == [100.0, 110.0];
    assert ws[..2][..1] == [100.0];
    assert ws[..2][..1][..0] == [];
    assert Volume([100.0], rs) == 500.0;
    assert Volume([100.0, 110.0], rs) == 1050.0;
    assert Volume(ws, rs) == 1650.0;
  }

  /** A chart point: the session's timestamp and its value. */
  datatype Point = Point(x: Option<int>, y: real)

  /** The padded time-axis range: from a day before the earliest session to two days after the latest. */
  datatype AxisRange = AxisRange(min: int, max: int)

  /** The timestamps that are present and valid. */
  function ValidDates(dates: seq<Option<int>>): (r: seq<int>)
    ensures forall d :: d in r <==> Some(d) in dates
    ensures |r| <= |dates|
    decreases |dates|
  {
    if dates == [] then []
    else
      var rest := ValidDates(dates[1..]);
      assert forall o :: o in dates <==> o == dates[0] || o in dates[1..];
      if dates[0].Some? then [dates[0].value] + rest else rest
  }

  /** The earliest of a non-empty list of days (`Math.min`). */
  function Earliest(days: seq<int>): (r: int)
    requires days != []
    ensures r in days && forall d :: d in days ==> r <= d
    decreases |days|
  {
    if |days| == 1 then days[0]
    else
      var m := Earliest(days[1..]);
      assert forall d :: d in days ==> d == days[0] || d in days[1..];
      if days[0] < m then days[0] else m
  }

  /** The latest of a non-empty list of days (`Math.max`). */
  function Latest(days: seq<int>): (r: int)
    requires days != []
    ensures r in days && forall d :: d in days ==> d <= r
    decreases |days|
  {
    if |days| == 1 then days[0]
    else
      var m := Latest(days[1..]);
      assert forall d :: d in days ==> d == days[0] || d in days[1..];
      if days[0] > m then days[0] else m
  }

  /**
   * The time-axis range for the given timestamps: `None` when no timestamp is
   * valid (the page then gets an invalid date); otherwise the earliest day
   * minus one and the latest day plus two, so every session lies strictly
   * inside the range.
   */
  function PaddedRange(dates: seq<Option<int>>): (r: Option<AxisRange>)
    ensures r.None? <==> forall o :: o in dates ==> o.None?
    ensures r.Some? ==> Some(r.value.min + 1) in dates && Some(r.value.max - 2) in dates
    ensures r.Some? ==> forall d :: Some(d) in dates ==> r.value.min < d && d + 2 <= r.value.max
  {
    var valid := ValidDates(dates);
    if valid == [] then None
    else
      Some(AxisRange(Earliest(valid) - 1, Latest(valid) + 2))
  }

  /** Each row's timestamp, in row order. */
  function Timestamps(rows: seq<ProgressRow>): (r: seq<Option<int>>)
    ensures |r| == |rows| && forall i :: 0 <= i < |rows| ==> r[i] == rows[i].createdAt
  {
    seq(|rows|, i requires 0 <= i < |rows| => rows[i].createdAt)
  }

  class ExerciseProgressView {
    var exerciseProgress: seq<ProgressRow>
    var exerciseHasProgress: bool
    var volumePoints: seq<Point>
    var maxWeightPoints: seq<Point>
    var axis: Option<AxisRange>

    constructor ()
      ensures exerciseProgress == [] && !exerciseHasProgress
      ensures volumePoints == [] && maxWeightPoints == [] && axis == None
    {
      exerciseProgress := [];
      exerciseHasProgress := false;
      volumePoints := [];
      maxWeightPoints := [];
      axis := None;
    }

    /**
     * Derive the page's chart data from the loaded rows: whether there is any
     * progress, one volume point and one heaviest-set point per row, in row
     * order and stamped with that row's timestamp, and the padded axis range.
     */
    method PrepareChartData()
      modifies this`exerciseHasProgress, this`volumePoints, this`maxWeightPoints, this`axis
      ensures exerciseHasProgress <==> exerciseProgress != []
      ensures |volumePoints| == |exerciseProgress| && |maxWeightPoints| == |exerciseProgress|
      ensures forall i :: 0 <= i < |exerciseProgress| ==>
                && volumePoints[i] == Point(exerciseProgress[i].createdAt, SessionVolume(exerciseProgress[i]))
                && maxWeightPoints[i] == Point(exerciseProgress[i].createdAt, SessionMaxWeight(exerciseProgress[i]))
      ensures axis == PaddedRange(Timestamps(exerciseProgress))
    {
      var rows := exerciseProgress;
      exerciseHasProgress := |rows| > 0;
      var totalVolume := seq(|rows|, i requires 0 <= i < |rows| => SessionVolume(rows[i]));
      volumePoints := seq(|rows|, i requires 0 <= i < |rows| => Point(rows[i].createdAt, totalVolume[i]));
      axis := PaddedRange(Timestamps(rows));
      var maxWeightPerSession := seq(|rows|, i requires 0 <= i < |rows| => SessionMaxWeight(rows[i]));
      maxWeightPoints := seq(|rows|, i requires 0 <= i < |rows| => Point(rows[i].createdAt, maxWeightPerSession[i]));
    }

    /** New rows for the exercise have been published: keep them and derive the chart data. */
    method OnProgressChanged(progress: seq<ProgressRow>)
      modifies this
      ensures exerciseProgress == progress
      ensures exerciseHasProgress <==> progress != []
      ensures |volumePoints| == |progress| && |maxWeightPoints| == |progress|
      ensures forall i :: 0 <= i < |progress| ==>
                && volumePoints[i] == Point(progress[i].createdAt, SessionVolume(progress[i]))
                && maxWeightPoints[i] == Point(progress[i].createdAt, SessionMaxWeight(progress[i]))
      ensures axis == PaddedRange(Timestamps(progress))
    {
      exerciseProgress := progress;
      PrepareChartData();
    }
  }
}
