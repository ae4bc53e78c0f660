/**
 * The flat point arrays the timeline's scatter plot is drawn from: one
 * point per (frame, channel), in row-major order, at the frame's time and
 * the channel's row, coloured with the channel's 4-bit values scaled to
 * 8 bits.
 */
module Scatter {
  import opened Common

  /** Every frame has a colour for each of the first n channels. */
  predicate Shaped(colors: seq<seq<Rgb>>, frames: nat, n: nat)
  {
    |colors| == frames && forall f :: 0 <= f < frames ==> |colors[f]| >= n
  }

  /** `int(v * 17)`, which maps 0..15 onto 0, 17, ..., 255. */
  function Scale(v: int): int
  {
    17 * v
  }

  lemma ScaleInByte(v: int)
    requires 0 <= v <= 15
    ensures 0 <= Scale(v) <= 255
    ensures v == 15 ==> Scale(v) == 255
  {
  }

  /** Entry k holds frame k / n and channel k % n. */
  predicate Filled(times: seq<real>, colors: seq<seq<Rgb>>, n: nat, k: nat,
                   posX: real, posY: real, r: int, g: int, b: int)
    requires n > 0 && Shaped(colors, |times|, n) && k < |times| * n
  {
    FlatBounds(k, |times|, n);
    var f := k / n;
    var c := k % n;
    posX == times[f] && posY == c as real &&
    r == Scale(colors[f][c].r) && g == Scale(colors[f][c].g) && b == Scale(colors[f][c].b)
  }

  /**
   * `create_scatter_data_optimized`: five arrays of n_frames · n entries,
   * filled by a running index that advances once per (frame, channel).
   */
  method CreateScatterData(times: seq<real>, colors: seq<seq<Rgb>>, n: nat)
    returns (posX: array<real>, posY: array<real>, rs: array<int>, gs: array<int>, bs: array<int>)
    requires Shaped(colors, |times|, n)
    ensures fresh(posX) && fresh(posY) && fresh(rs) && fresh(gs) && fresh(bs)
    ensures posX.Length == |times| * n && posY.Length == |times| * n
    ensures rs.Length == |times| * n && gs.Length == |times| * n && bs.Length == |times| * n
    ensures n > 0 ==> forall k :: 0 <= k < |times| * n ==>
      Filled(times, colors, n, k, posX[k], posY[k], rs[k], gs[k], bs[k])
  {
    var points := |times| * n;
    posX := new real[points];
    posY := new real[points];
    rs := new int[points];
    gs := new int[points];
    bs := new int[points];
    if n == 0 {
      return;
    }
    var idx := 0;
    for f := 0 to |times|
      invariant idx == f * n && idx <= points
      invariant forall k :: 0 <= k < idx ==> Filled(times, colors, n, k, posX[k], posY[k], rs[k], gs[k], bs[k])
    {
      for c := 0 to n
        invariant idx == f * n + c && idx <= points
        invariant forall k :: 0 <= k < idx ==> Filled(times, colors, n, k, posX[k], posY[k], rs[k], gs[k], bs[k])
      {
        MulAtLeast(|times| - f, n);
        assert idx < points by {
          assert (|times| - f) * n == points - f * n;
        }
        WriteEntry(times, colors, n, f, c, idx, posX, posY, rs, gs, bs);
        idx := idx + 1;
      }
    }
  }

  /** One step of the fill: entry idx = f · n + c gets frame f, channel c; the entries before it stay. */
  method WriteEntry(times: seq<real>, colors: seq<seq<Rgb>>, n: nat, f: nat, c: nat, idx: nat,
                    posX: array<real>, posY: array<real>, rs: array<int>, gs: array<int>, bs: array<int>)
    requires Shaped(colors, |times|, n) && f < |times| && c < n && idx == f * n + c
    requires posX.Length == |times| * n && posY.Length == |times| * n
    requires rs.Length == |times| * n && gs.Length == |times| * n && bs.Length == |times| * n
    requires idx < |times| * n
    requires posX != posY && rs != gs && rs != bs && gs != bs
    requires forall k :: 0 <= k < idx ==> Filled(times, colors, n, k, posX[k], posY[k], rs[k], gs[k], bs[k])
    modifies posX, posY, rs, gs, bs
    ensures forall k :: 0 <= k <= idx ==> Filled(times, colors, n, k, posX[k], posY[k], rs[k], gs[k], bs[k])
  {
    FlatIndex(f, c, n);
    posX[idx] := times[f];
    posY[idx] := c as real;
    rs[idx] := Scale(colors[f][c].r);
    gs[idx] := Scale(colors[f][c].g);
    bs[idx] := Scale(colors[f][c].b);
  }

  /** The entry for frame f and channel c sits at f · n + c. */
  lemma EntryOf(times: seq<real>, colors: seq<seq<Rgb>>, n: nat, f: nat, c: nat,
                posX: real, posY: real, r: int, g: int, b: int)
    requires Shaped(colors, |times|, n) && f < |times| && c < n
    requires f * n + c < |times| * n
    requires Filled(times, colors, n, f * n + c, posX, posY, r, g, b)
    ensures posX == times[f] && posY == c as real
    ensures r == Scale(colors[f][c].r) && g == Scale(colors[f][c].g) && b == Scale(colors[f][c].b)
  {
    FlatIndex(f, c, n);
  }

  /** Frame f's block ends before frame f + 1's starts: every (frame, channel) has its own slot. */
  lemma SlotsDistinct(f1: nat, c1: nat, f2: nat, c2: nat, n: nat)
    requires c1 < n && c2 < n && f1 * n + c1 == f2 * n + c2
    ensures f1 == f2 && c1 == c2
  {
    DivModUnique(f1, c1, f2, c2, n);
  }
}
