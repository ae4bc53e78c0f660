/**
 * Snapping a time to the nearest keyframe and fetching the keyframe at a
 * time.  Both look only at the two neighbours of the left binary-search
 * position, take the closer one (the earlier on a tie) and accept it only
 * within the tolerance.
 */
module FrameLookup {
  import opened Common
  import opened Keyframes

  const DefaultTolerance: real := 50.0

  /**
   * The candidate the lookups settle on: of the keyframes just before and at
   * the left insertion position of t, the closer one, the earlier on a tie.
   */
  function Candidate(times: seq<real>, t: real): (i: nat)
    requires times != []
    ensures i < |times|
    ensures var k := SearchLeft(times, t); i == k - 1 || i == k
  {
    var k := SearchLeft(times, t);
    if k == 0 then 0
    else if k == |times| then k - 1
    else if Abs(times[k - 1] - t) <= Abs(times[k] - t) then k - 1
    else k
  }

  /** `snap_to_nearest_frame`: the candidate's time if within tolerance, else t. */
  function Snap(times: seq<real>, t: real, tolerance: real): (r: real)
    ensures r == t || Abs(r - t) <= tolerance
    ensures times == [] ==> r == t
    ensures r != t ==> exists j :: 0 <= j < |times| && times[j] == r
  {
    if times == [] then t
    else
      var i := Candidate(times, t);
      if Abs(times[i] - t) <= tolerance then times[i] else t
  }

  /** `get_frame_at_time`: the candidate row and its time, or None. */
  function FrameAt(df: seq<Keyframe>, t: real, tolerance: real): (r: Option<(Keyframe, real)>)
    ensures r.Some? ==> r.value.0 in df && r.value.1 == r.value.0.time && Abs(r.value.1 - t) <= tolerance
    ensures df == [] ==> r.None?
  {
    if df == [] then None
    else
      var i := Candidate(Times(df), t);
      if Abs(df[i].time - t) <= tolerance then Some((df[i], df[i].time)) else None
  }

  /**
   * On sorted times the two neighbours suffice: no keyframe is closer to t
   * than the candidate.
   */
  lemma CandidateIsNearest(times: seq<real>, t: real, j: nat)
    requires times != [] && Sorted(times) && j < |times|
    ensures Abs(times[Candidate(times, t)] - t) <= Abs(times[j] - t)
  {
    var k := SearchLeft(times, t);
    if j < k {
      assert times[j] <= times[k - 1] < t;
    } else {
      assert t <= times[k] <= times[j];
    }
  }

  /**
   * Of equally near keyframes the earlier is taken: when the candidate is
   * the keyframe at the insertion position, the one before it is strictly
   * farther.
   */
  lemma CandidateTieGoesEarlier(times: seq<real>, t: real)
    requires times != []
    requires var k := SearchLeft(times, t); 0 < k < |times| && Abs(times[k - 1] - t) == Abs(times[k] - t)
    ensures Candidate(times, t) == SearchLeft(times, t) - 1
  {
  }

  /**
   * On sorted times snapping moves t exactly when some keyframe lies within
   * the tolerance, and then it moves to a nearest one.
   */
  lemma SnapIffWithin(times: seq<real>, t: real, tolerance: real)
    requires Sorted(times)
    ensures (exists j :: 0 <= j < |times| && Abs(times[j] - t) <= tolerance) ==>
      Abs(Snap(times, t, tolerance) - t) <= tolerance &&
      (exists j :: 0 <= j < |times| && times[j] == Snap(times, t, tolerance)) &&
      forall j :: 0 <= j < |times| ==> Abs(Snap(times, t, tolerance) - t) <= Abs(times[j] - t)
    ensures (forall j :: 0 <= j < |times| ==> Abs(times[j] - t) > tolerance) ==> Snap(times, t, tolerance) == t
  {
    if times != [] {
      var i := Candidate(times, t);
      forall j | 0 <= j < |times| ensures Abs(times[i] - t) <= Abs(times[j] - t) {
        CandidateIsNearest(times, t, j);
      }
    }
  }

  /**
   * `get_frame_at_time` finds a frame exactly when `snap_to_nearest_frame`
   * would move to a keyframe, and the two agree on its time; on sorted data
   * it finds none exactly when no keyframe is within the tolerance.
   */
  lemma FrameAtAgreesWithSnap(df: seq<Keyframe>, t: real, tolerance: real)
    requires SortedByTime(df)
    ensures FrameAt(df, t, tolerance).Some? ==> Snap(Times(df), t, tolerance) == FrameAt(df, t, tolerance).value.1
    ensures FrameAt(df, t, tolerance).None? <==> forall j :: 0 <= j < |df| ==> Abs(df[j].time - t) > tolerance
  {
    var times := Times(df);
    SortedTimes(df);
    if df != [] {
      var i := Candidate(times, t);
      forall j | 0 <= j < |df| ensures Abs(df[i].time - t) <= Abs(df[j].time - t) {
        CandidateIsNearest(times, t, j);
      }
    }
  }
}
