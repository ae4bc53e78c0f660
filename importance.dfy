/**
 * The importance score the timeline renderer uses to choose one keyframe per
 * bin.  A frame scores from three terms:
 *   - a base term: 1000 for a blackout frame (all 30 colour values sum to 0),
 *     otherwise min(99, brightness / 4.5);
 *   - a jump term: min(100, largest brightness change to either neighbour / 4.5);
 *   - a colour term: min(500, 2 * the larger of the summed per-channel RGB
 *     distances to the previous and to the next frame).
 * The square root of the distance is the `root` parameter; only its being
 * non-negative is used.
 */
module Importance {
  import opened Common
  import opened Keyframes

  const BlackoutScore: real := 1000.0
  const BaseCap: real := 99.0
  const JumpCap: real := 100.0
  const ColourCap: real := 500.0

  function AbsInt(x: int): (r: nat)
    ensures r == x || r == -x
  {
    if x < 0 then -x else x
  }

  /** The square root handed to the score never yields a negative value. */
  ghost predicate RootNonNeg(root: int -> real)
  {
    forall x :: x >= 0 ==> root(x) >= 0.0
  }

  function Brightnesses(s: seq<Keyframe>): (b: seq<int>)
    ensures |b| == |s|
    ensures forall i :: 0 <= i < |s| ==> b[i] == Brightness(s[i])
  {
    seq(|s|, i requires 0 <= i < |s| => Brightness(s[i]))
  }

  /** A blackout frame is worth 1000; any other frame at most 99 from brightness. */
  function BaseScore(b: int): (r: real)
    ensures b == 0 <==> r == BlackoutScore
    ensures b != 0 ==> r <= BaseCap
  {
    if b == 0 then BlackoutScore else Min(BaseCap, b as real / 4.5)
  }

  /**
   * The brightness jump to the neighbours; a missing neighbour is filled with
   * the frame itself, so the first and last frames only look inwards.
   */
  function JumpScore(bs: seq<int>, i: nat): (r: real)
    requires i < |bs|
    ensures 0.0 <= r <= JumpCap
    ensures |bs| == 1 ==> r == 0.0
  {
    var prev := if i > 0 then bs[i - 1] else bs[i];
    var next := if i + 1 < |bs| then bs[i + 1] else bs[i];
    var jump := if AbsInt(bs[i] - prev) >= AbsInt(bs[i] - next) then AbsInt(bs[i] - prev) else AbsInt(bs[i] - next);
    Min(JumpCap, jump as real / 4.5)
  }

  function Sq(x: int): (r: nat)
  {
    x * x
  }

  /** Euclidean distance of one channel's RGB triple. */
  function ChannelDistance(root: int -> real, a: Channel, b: Channel): real
  {
    root(Sq(a.red - b.red) + Sq(a.green - b.green) + Sq(a.blue - b.blue))
  }

  /** The distance summed over channels 0 .. n-1. */
  function FrameDistance(root: int -> real, a: seq<Channel>, b: seq<Channel>, n: nat): (r: real)
    requires n <= |a| && n <= |b|
    ensures RootNonNeg(root) ==> r >= 0.0
  {
    if n == 0 then 0.0 else FrameDistance(root, a, b, n - 1) + ChannelDistance(root, a[n - 1], b[n - 1])
  }

  /** Distance to the previous frame over channels 0 .. n-1; the first frame has none (0). */
  function PrevDistance(root: int -> real, s: seq<Keyframe>, i: nat, n: nat): (r: real)
    requires AllWellFormed(s) && i < |s| && n <= NumChannels
    ensures i == 0 ==> r == 0.0
    ensures RootNonNeg(root) ==> r >= 0.0
  {
    if i == 0 then 0.0 else FrameDistance(root, s[i].channels, s[i - 1].channels, n)
  }

  /** Distance to the next frame over channels 0 .. n-1; the last frame has none (0). */
  function NextDistance(root: int -> real, s: seq<Keyframe>, i: nat, n: nat): (r: real)
    requires AllWellFormed(s) && i < |s| && n <= NumChannels
    ensures i == |s| - 1 ==> r == 0.0
    ensures RootNonNeg(root) ==> r >= 0.0
  {
    if i == |s| - 1 then 0.0 else FrameDistance(root, s[i].channels, s[i + 1].channels, n)
  }

  function ColourScore(prev: real, next: real): (r: real)
    ensures r <= ColourCap
    ensures prev >= 0.0 && next >= 0.0 ==> r >= 0.0
  {
    Min(ColourCap, 2.0 * Max(prev, next))
  }

  function Score(root: int -> real, s: seq<Keyframe>, i: nat): real
    requires AllWellFormed(s) && i < |s|
  {
    BaseScore(Brightness(s[i])) + JumpScore(Brightnesses(s), i)
      + ColourScore(PrevDistance(root, s, i, NumChannels), NextDistance(root, s, i, NumChannels))
  }

  function Scores(root: int -> real, s: seq<Keyframe>): (r: seq<real>)
    requires AllWellFormed(s)
    ensures |r| == |s|
    ensures forall i :: 0 <= i < |s| ==> r[i] == Score(root, s, i)
  {
    seq(|s|, i requires 0 <= i < |s| => Score(root, s, i))
  }

  /**
   * A blackout frame scores at least 1000 and any other frame at most
   * 99 + 100 + 500 = 699.
   */
  lemma ScoreBands(root: int -> real, s: seq<Keyframe>, i: nat)
    requires RootNonNeg(root) && AllWellFormed(s) && i < |s|
    ensures Brightness(s[i]) == 0 ==> Score(root, s, i) >= BlackoutScore
    ensures Brightness(s[i]) != 0 ==> Score(root, s, i) <= BaseCap + JumpCap + ColourCap
  {
    var p := PrevDistance(root, s, i, NumChannels);
    var q := NextDistance(root, s, i, NumChannels);
    assert ColourScore(p, q) >= 0.0;
  }

  /** So within any bin a blackout frame always outranks a non-blackout one. */
  lemma BlackoutOutranks(root: int -> real, s: seq<Keyframe>, i: nat, j: nat)
    requires RootNonNeg(root) && AllWellFormed(s) && i < |s| && j < |s|
    requires Brightness(s[i]) == 0 && Brightness(s[j]) != 0
    ensures Score(root, s, i) > Score(root, s, j)
  {
    ScoreBands(root, s, i);
    ScoreBands(root, s, j);
  }

  /**
   * The vectorised computation: the distance series to the previous and the
   * next frame are accumulated over the ten channels in a loop, then the
   * three terms are added.
   */
  method ImportanceScores(root: int -> real, s: seq<Keyframe>) returns (scores: seq<real>)
    requires AllWellFormed(s)
    ensures scores == Scores(root, s)
  {
    var n := |s|;
    var prev: seq<real> := seq(n, _ => 0.0);
    var next: seq<real> := seq(n, _ => 0.0);
    for c := 0 to NumChannels
      invariant |prev| == n && |next| == n
      invariant forall r :: 0 <= r < n ==> prev[r] == PrevDistance(root, s, r, c)
      invariant forall r :: 0 <= r < n ==> next[r] == NextDistance(root, s, r, c)
    {
      prev := AddPrevChannel(root, s, c, prev);
      next := AddNextChannel(root, s, c, next);
    }
    scores := CombineScores(root, s, prev, next);
  }

  /** Adds channel c's distance to the previous frame to every row but the first. */
  method AddPrevChannel(root: int -> real, s: seq<Keyframe>, c: nat, prev: seq<real>) returns (prev': seq<real>)
    requires AllWellFormed(s) && c < NumChannels && |prev| == |s|
    requires forall r :: 0 <= r < |s| ==> prev[r] == PrevDistance(root, s, r, c)
    ensures |prev'| == |s| && forall r :: 0 <= r < |s| ==> prev'[r] == PrevDistance(root, s, r, c + 1)
  {
    var n := |s|;
    prev' := seq(n, r requires 0 <= r < n =>
      if r == 0 then 0.0 else prev[r] + ChannelDistance(root, s[r].channels[c], s[r - 1].channels[c]));
    forall r | 0 <= r < n ensures prev'[r] == PrevDistance(root, s, r, c + 1) {
      DistanceStep(root, s, r, c);
    }
  }

  /** Adds channel c's distance to the next frame to every row but the last. */
  method AddNextChannel(root: int -> real, s: seq<Keyframe>, c: nat, next: seq<real>) returns (next': seq<real>)
    requires AllWellFormed(s) && c < NumChannels && |next| == |s|
    requires forall r :: 0 <= r < |s| ==> next[r] == NextDistance(root, s, r, c)
    ensures |next'| == |s| && forall r :: 0 <= r < |s| ==> next'[r] == NextDistance(root, s, r, c + 1)
  {
    var n := |s|;
    next' := seq(n, r requires 0 <= r < n =>
      if r == n - 1 then 0.0 else next[r] + ChannelDistance(root, s[r].channels[c], s[r + 1].channels[c]));
    forall r | 0 <= r < n ensures next'[r] == NextDistance(root, s, r, c + 1) {
      DistanceStep(root, s, r, c);
    }
  }

  /** The three terms added row by row, from the two distance series. */
  method CombineScores(root: int -> real, s: seq<Keyframe>, prev: seq<real>, next: seq<real>) returns (scores: seq<real>)
    requires AllWellFormed(s) && |prev| == |s| && |next| == |s|
    requires forall r :: 0 <= r < |s| ==> prev[r] == PrevDistance(root, s, r, NumChannels)
    requires forall r :: 0 <= r < |s| ==> next[r] == NextDistance(root, s, r, NumChannels)
    ensures scores == Scores(root, s)
  {
    var n := |s|;
    var bs := Brightnesses(s);
    scores := seq(n, i requires 0 <= i < n =>
      BaseScore(bs[i]) + JumpScore(bs, i) + ColourScore(prev[i], next[i]));
    assert forall i :: 0 <= i < n ==> scores[i] == Score(root, s, i);
  }

  lemma DistanceStep(root: int -> real, s: seq<Keyframe>, r: nat, c: nat)
    requires AllWellFormed(s) && r < |s| && c < NumChannels
    ensures r > 0 ==>
      PrevDistance(root, s, r, c + 1) ==
      PrevDistance(root, s, r, c) + ChannelDistance(root, s[r].channels[c], s[r - 1].channels[c])
    ensures r < |s| - 1 ==>
      NextDistance(root, s, r, c + 1) ==
      NextDistance(root, s, r, c) + ChannelDistance(root, s[r].channels[c], s[r + 1].channels[c])
  {
    assert WellFormed(s[r]);
    if r > 0 { assert WellFormed(s[r - 1]); }
    if r < |s| - 1 { assert WellFormed(s[r + 1]); }
  }
}
