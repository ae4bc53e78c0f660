/**
 * Level-of-detail aggregation of the keyframe table for the timeline.
 *
 * The renderer takes the keyframes that can be seen (plus one of lead-in and
 * one of lead-out), and either shows each of them as a block (raw mode, when
 * there are no more keyframes than bins) or splits [min, max] of their times
 * into equal half-open bins, keeps the highest-scoring keyframe of each bin
 * and starts its block at the bin's left edge (binned mode).  A block's width
 * runs to the start of the next block.
 */
module LodAggregation {
  import opened Common
  import opened Keyframes
  import opened Importance

  /** Width given to a lone last block when nothing else measures it. */
  const DefaultWidth: real := 50.0

  /** One bin per six pixels of view width. */
  const PixelsPerBin: real := 6.0

  // ---------------------------------------------------------------------
  // The visible slice
  // ---------------------------------------------------------------------

  /** `searchsorted(x_min, 'right') - 1`, clamped to 0: the last keyframe at or before x_min. */
  function SliceStart(times: seq<real>, xMin: real): nat
  {
    var k := SearchRight(times, xMin);
    if k == 0 then 0 else k - 1
  }

  /** `searchsorted(x_max, 'right') + 1`, clamped to the length: one past the first keyframe after x_max. */
  function SliceEnd(times: seq<real>, xMax: real): nat
  {
    var k := SearchRight(times, xMax) + 1;
    if k > |times| then |times| else k
  }

  /** The copied slice, whose first time is moved up to x_min if it lies before it. */
  function ClampLeadIn(v: seq<Keyframe>, xMin: real): (r: seq<Keyframe>)
    requires v != []
    ensures |r| == |v| && r[1..] == v[1..]
    ensures r[0] == v[0].(time := r[0].time)
    ensures r[0].time == Max(v[0].time, xMin)
    ensures forall i :: 0 <= i < |r| ==> r[i].channels == v[i].channels
  {
    if v[0].time < xMin then [v[0].(time := xMin)] + v[1..] else v
  }

  function Visible(df: seq<Keyframe>, xMin: real, xMax: real): (v: seq<Keyframe>)
    ensures |v| <= |df|
    ensures AllWellFormed(df) ==> AllWellFormed(v)
  {
    var times := Times(df);
    var s, e := SliceStart(times, xMin), SliceEnd(times, xMax);
    if e <= s then [] else ClampLeadIn(df[s..e], xMin)
  }

  /** Where the two ends of the slice fall in a sorted time column. */
  lemma SliceEnds(times: seq<real>, xMin: real, xMax: real)
    requires Sorted(times) && times != [] && xMin <= xMax
    ensures var s, e := SliceStart(times, xMin), SliceEnd(times, xMax);
      s < e <= |times| &&
      (s == 0 || times[s] <= xMin) &&
      (forall i :: s < i < |times| ==> times[i] > xMin) &&
      (e == |times| || times[e - 1] > xMax) &&
      (forall i :: 0 <= i < e - 1 ==> times[i] <= xMax)
  {
  }

  /**
   * On sorted data and a non-inverted view the slice is never empty: it
   * starts at the last keyframe at or before x_min (or the first keyframe),
   * ends one past the first keyframe after x_max (or at the end), only its
   * first time is changed, and it stays sorted.
   */
  lemma VisibleWindow(df: seq<Keyframe>, xMin: real, xMax: real)
    requires SortedByTime(df) && df != [] && xMin <= xMax
    ensures var s, e := SliceStart(Times(df), xMin), SliceEnd(Times(df), xMax);
      var v := Visible(df, xMin, xMax);
      s < e <= |df| && |v| == e - s &&
      (s == 0 || df[s].time <= xMin) &&
      (forall i :: s < i < |df| ==> df[i].time > xMin) &&
      (e == |df| || df[e - 1].time > xMax) &&
      (forall i :: 0 <= i < e - 1 ==> df[i].time <= xMax) &&
      v[0] == df[s].(time := Max(df[s].time, xMin)) &&
      (forall i :: 1 <= i < |v| ==> v[i] == df[s + i])
  {
    WindowEnds(df, xMin, xMax);
    WindowContents(df, xMin, xMax);
  }

  lemma WindowEnds(df: seq<Keyframe>, xMin: real, xMax: real)
    requires SortedByTime(df) && df != [] && xMin <= xMax
    ensures var s, e := SliceStart(Times(df), xMin), SliceEnd(Times(df), xMax);
      s < e <= |df| &&
      (s == 0 || df[s].time <= xMin) &&
      (forall i :: s < i < |df| ==> df[i].time > xMin) &&
      (e == |df| || df[e - 1].time > xMax) &&
      (forall i :: 0 <= i < e - 1 ==> df[i].time <= xMax)
  {
    SortedTimes(df);
    SliceEnds(Times(df), xMin, xMax);
  }

  lemma WindowContents(df: seq<Keyframe>, xMin: real, xMax: real)
    requires SliceStart(Times(df), xMin) < SliceEnd(Times(df), xMax) <= |df|
    ensures var s, e := SliceStart(Times(df), xMin), SliceEnd(Times(df), xMax);
      var v := Visible(df, xMin, xMax);
      |v| == e - s && v[0] == df[s].(time := Max(df[s].time, xMin)) &&
      (forall i :: 1 <= i < |v| ==> v[i] == df[s + i])
  {
    var s, e := SliceStart(Times(df), xMin), SliceEnd(Times(df), xMax);
    assert Visible(df, xMin, xMax) == ClampLeadIn(df[s..e], xMin);
    LeadInContents(df, s, e, xMin);
  }

  /** The clamped slice df[s..e]: only its first time can differ from df's rows. */
  lemma LeadInContents(df: seq<Keyframe>, s: nat, e: nat, xMin: real)
    requires s < e <= |df|
    ensures var v := ClampLeadIn(df[s..e], xMin);
      |v| == e - s && v[0] == df[s].(time := Max(df[s].time, xMin)) &&
      (forall i :: 1 <= i < |v| ==> v[i] == df[s + i])
  {
    var v := ClampLeadIn(df[s..e], xMin);
    forall i | 1 <= i < |v| ensures v[i] == df[s + i] {
      assert v[i] == v[1..][i - 1];
    }
  }

  /** The slice of sorted data stays sorted after its first time is clamped. */
  lemma VisibleSorted(df: seq<Keyframe>, xMin: real, xMax: real)
    requires SortedByTime(df) && df != [] && xMin <= xMax
    ensures SortedByTime(Visible(df, xMin, xMax))
  {
    WindowEnds(df, xMin, xMax);
    var s, e := SliceStart(Times(df), xMin), SliceEnd(Times(df), xMax);
    var w := df[s..e];
    assert Visible(df, xMin, xMax) == ClampLeadIn(w, xMin);
    assert |w| > 1 ==> w[1] == df[s + 1];
    ClampLeadInSorted(w, xMin);
  }

  lemma ClampLeadInSorted(w: seq<Keyframe>, xMin: real)
    requires w != [] && SortedByTime(w) && (|w| > 1 ==> w[1].time > xMin)
    ensures SortedByTime(ClampLeadIn(w, xMin))
  {
    if w[0].time < xMin {
      SortedTail(w);
      SortedCons(w[0].(time := xMin), w[1..]);
    }
  }

  // ---------------------------------------------------------------------
  // Raw mode
  // ---------------------------------------------------------------------

  /** `diff().shift(-1)` without its trailing gap: the distance to the next entry. */
  function Gaps(t: seq<real>): (g: seq<real>)
    ensures |g| == if |t| == 0 then 0 else |t| - 1
    ensures forall i :: 0 <= i < |g| ==> t[i] + g[i] == t[i + 1]
  {
    if |t| <= 1 then [] else seq(|t| - 1, i requires 0 <= i < |t| - 1 => t[i + 1] - t[i])
  }

  /** The first row, in table order, whose time is later than t. */
  function FirstAfter(full: seq<Keyframe>, t: real): (r: Option<nat>)
    ensures r.None? <==> forall i :: 0 <= i < |full| ==> full[i].time <= t
    ensures r.Some? ==> r.value < |full| && full[r.value].time > t
    ensures r.Some? ==> forall i :: 0 <= i < r.value ==> full[i].time <= t
  {
    if full == [] then None
    else if full[0].time > t then Some(0)
    else match FirstAfter(full[1..], t)
      case None => None
      case Some(k) => Some(k + 1)
  }

  lemma SortedConsReal(x: real, t: seq<real>)
    requires Sorted(t) && (t == [] || x <= t[0])
    ensures Sorted([x] + t)
  {
    var r := [x] + t;
    forall i, j | 0 <= i < j < |r| ensures r[i] <= r[j] {
      if i == 0 {
        assert r[j] == t[j - 1] && t[0] <= t[j - 1];
      } else {
        assert r[i] == t[i - 1] && r[j] == t[j - 1];
      }
    }
  }

  function InsertReal(x: real, s: seq<real>): (r: seq<real>)
    ensures |r| == |s| + 1 && multiset(r) == multiset(s) + multiset{x}
    ensures r[0] == x || (s != [] && r[0] == s[0])
    ensures Sorted(s) ==> Sorted(r)
  {
    if s == [] || x <= s[0] then
      assert Sorted(s) ==> Sorted([x] + s) by {
        if Sorted(s) { SortedConsReal(x, s); }
      }
      [x] + s
    else
      var rest := InsertReal(x, s[1..]);
      assert s == [s[0]] + s[1..];
      assert Sorted(s) ==> Sorted([s[0]] + rest) by {
        if Sorted(s) { SortedBehindHead(s, rest); }
      }
      [s[0]] + rest
  }

  /** The head of a sorted list can go back in front of a sorted list that starts with its tail's head or a later value. */
  lemma SortedBehindHead(s: seq<real>, rest: seq<real>)
    requires Sorted(s) && s != [] && Sorted(rest)
    requires rest != [] && (rest[0] >= s[0])
    ensures Sorted([s[0]] + rest)
  {
    SortedConsReal(s[0], rest);
  }

  function SortReals(s: seq<real>): (r: seq<real>)
    ensures |r| == |s| && multiset(r) == multiset(s) && Sorted(r)
  {
    if s == [] then []
    else
      assert s == [s[0]] + s[1..];
      InsertReal(s[0], SortReals(s[1..]))
  }

  /** pandas `median()`: the middle value, or the mean of the two middle values. */
  function Median(s: seq<real>): real
    requires |s| > 0
  {
    var t := SortReals(s);
    var h := |t| / 2;
    if |t| % 2 == 1 then t[h] else (t[h - 1] + t[h]) / 2.0
  }

  /** The median lies within any bounds that hold for all the values. */
  lemma MedianWithin(s: seq<real>, lo: real, hi: real)
    requires |s| > 0
    requires forall i :: 0 <= i < |s| ==> lo <= s[i] <= hi
    ensures lo <= Median(s) <= hi
  {
    var t := SortReals(s);
    forall k | 0 <= k < |t| ensures lo <= t[k] <= hi {
      assert t[k] in multiset(s);
      var j :| 0 <= j < |s| && s[j] == t[k];
    }
  }

  /**
   * The width of the last raw block: the gap to the next keyframe of the
   * whole table, else the median interval of the whole table, else 50.
   */
  function RawLastWidth(full: seq<Keyframe>, last: real): real
  {
    match FirstAfter(full, last)
    case Some(k) => full[k].time - last
    case None => if |full| >= 2 then Median(Gaps(Times(full))) else DefaultWidth
  }

  /** Raw mode: each keyframe's block reaches the next keyframe. */
  function RawWidths(v: seq<Keyframe>, full: seq<Keyframe>): (w: seq<real>)
    requires v != []
    ensures |w| == |v|
    ensures forall i :: 0 <= i < |v| - 1 ==> v[i].time + w[i] == v[i + 1].time
    ensures w[|v| - 1] == RawLastWidth(full, v[|v| - 1].time)
  {
    Gaps(Times(v)) + [RawLastWidth(full, v[|v| - 1].time)]
  }

  /** On sorted data no raw block has a negative width, and the last one is positive when a later keyframe exists. */
  lemma RawWidthsNonNegative(v: seq<Keyframe>, full: seq<Keyframe>)
    requires v != [] && SortedByTime(v) && SortedByTime(full)
    ensures forall i :: 0 <= i < |v| ==> RawWidths(v, full)[i] >= 0.0
    ensures FirstAfter(full, v[|v| - 1].time).Some? ==> RawWidths(v, full)[|v| - 1] > 0.0
  {
    var w := RawWidths(v, full);
    forall i | 0 <= i < |v| - 1 ensures w[i] >= 0.0 {
      assert v[i].time <= v[i + 1].time;
    }
    MedianGapNonNegative(full);
  }

  /** On a sorted table of two rows or more the median interval is not negative. */
  lemma MedianGapNonNegative(full: seq<Keyframe>)
    requires SortedByTime(full)
    ensures |full| >= 2 ==> Median(Gaps(Times(full))) >= 0.0
  {
    if |full| >= 2 {
      var g := Gaps(Times(full));
      var hi := full[|full| - 1].time - full[0].time;
      forall i | 0 <= i < |g| ensures 0.0 <= g[i] <= hi {
        assert full[i].time <= full[i + 1].time;
        assert full[0].time <= full[i].time && full[i + 1].time <= full[|full| - 1].time;
      }
      MedianWithin(g, 0.0, hi);
    }
  }

  // ---------------------------------------------------------------------
  // Binned mode: edges and bins
  // ---------------------------------------------------------------------

  /** `np.linspace(lo, hi, n + 1)`: n equal steps from lo to hi. */
  function Edges(lo: real, hi: real, n: nat): (e: seq<real>)
    requires n >= 1
    ensures |e| == n + 1 && e[0] == lo && e[n] == hi
    ensures forall k :: 0 <= k <= n ==> e[k] == lo + (k as real) * ((hi - lo) / (n as real))
  {
    var step := (hi - lo) / (n as real);
    assert (n as real) * step == hi - lo;
    seq(n + 1, k requires 0 <= k <= n => if k == n then hi else lo + (k as real) * step)
  }

  ghost predicate StrictlyIncreasing(e: seq<real>)
  {
    forall i, j :: 0 <= i < j < |e| ==> e[i] < e[j]
  }

  lemma EdgesIncrease(lo: real, hi: real, n: nat)
    requires n >= 1 && lo < hi
    ensures StrictlyIncreasing(Edges(lo, hi, n)) && Sorted(Edges(lo, hi, n))
  {
    var e := Edges(lo, hi, n);
    var step := (hi - lo) / (n as real);
    assert step > 0.0;
    forall i, j | 0 <= i < j < |e| ensures e[i] < e[j] {
      assert (j as real) * step - (i as real) * step == ((j - i) as real) * step;
      assert ((j - i) as real) * step > 0.0;
    }
  }

  /**
   * `pd.cut(x, edges, right=False)`: bin k holds edges[k] <= x < edges[k+1];
   * a value below the first edge or at or above the last is NA (None).
   */
  function BinOf(edges: seq<real>, x: real): Option<nat>
  {
    var c := SearchRight(edges, x);
    if c == 0 || c >= |edges| then None else Some(c - 1)
  }

  /** The bins are half-open: the last edge itself falls in no bin. */
  lemma BinOfHalfOpen(edges: seq<real>, x: real, k: nat)
    requires StrictlyIncreasing(edges) && |edges| >= 2
    ensures BinOf(edges, x) == Some(k) <==> k + 1 < |edges| && edges[k] <= x < edges[k + 1]
    ensures BinOf(edges, edges[|edges| - 1]) == None
    ensures edges[0] <= x < edges[|edges| - 1] ==> BinOf(edges, x).Some?
  {
    assert Sorted(edges);
    var c := SearchRight(edges, x);
    if k + 1 < |edges| && edges[k] <= x < edges[k + 1] {
      assert c > k;
      assert c <= k + 1;
    }
    var last := edges[|edges| - 1];
    assert SearchRight(edges, last) == |edges|;
    if edges[0] <= x < last {
      assert c >= 1;
      assert c < |edges|;
    }
  }

  function Bins(v: seq<Keyframe>, edges: seq<real>): (b: seq<Option<nat>>)
    ensures |b| == |v|
    ensures forall i :: 0 <= i < |v| ==> b[i] == BinOf(edges, v[i].time)
  {
    seq(|v|, i requires 0 <= i < |v| => BinOf(edges, v[i].time))
  }

  /**
   * `groupby(bin).idxmax()` over rows 0 .. n-1: the first row of bin k with
   * the highest score, or None when bin k is empty.
   */
  function BestInBin(bins: seq<Option<nat>>, scores: seq<real>, k: nat, n: nat): (r: Option<nat>)
    requires n <= |bins| && |bins| == |scores|
    ensures r.None? <==> forall i :: 0 <= i < n ==> bins[i] != Some(k)
    ensures r.Some? ==> r.value < n && bins[r.value] == Some(k)
    ensures r.Some? ==> forall i :: 0 <= i < n && bins[i] == Some(k) ==> scores[i] <= scores[r.value]
    ensures r.Some? ==> forall i :: 0 <= i < r.value && bins[i] == Some(k) ==> scores[i] < scores[r.value]
  {
    if n == 0 then None
    else
      var prev := BestInBin(bins, scores, k, n - 1);
      if bins[n - 1] != Some(k) then prev
      else if prev.None? || scores[n - 1] > scores[prev.value] then Some(n - 1)
      else prev
  }

  /** The pick of every bin (None where the bin is empty). */
  function Picks(bins: seq<Option<nat>>, scores: seq<real>, numBins: nat): (p: seq<Option<nat>>)
    requires |bins| == |scores|
    ensures |p| == numBins
    ensures forall k :: 0 <= k < numBins ==> p[k] == BestInBin(bins, scores, k, |bins|)
  {
    seq(numBins, k requires 0 <= k < numBins => BestInBin(bins, scores, k, |bins|))
  }

  /** Every pick is a row of its own bin. */
  ghost predicate PicksInBins(picks: seq<Option<nat>>, bins: seq<Option<nat>>)
  {
    forall k :: 0 <= k < |picks| && picks[k].Some? ==> picks[k].value < |bins| && bins[picks[k].value] == Some(k)
  }

  lemma PicksAreInBins(bins: seq<Option<nat>>, scores: seq<real>, numBins: nat)
    requires |bins| == |scores|
    ensures PicksInBins(Picks(bins, scores, numBins), bins)
  {
  }

  // ---------------------------------------------------------------------
  // Binned mode: the loop over bins
  // ---------------------------------------------------------------------

  /** The blocks collected so far and the row index of the last one (-1 before any). */
  datatype Collected = Collected(blocks: seq<Keyframe>, last: int)

  ghost predicate PicksBelow(picks: seq<Option<nat>>, n: nat)
  {
    forall k :: 0 <= k < |picks| && picks[k].Some? ==> picks[k].value < n
  }

  /**
   * Bins 0 .. i-1 in order: a bin whose pick differs from the last block's
   * row adds a copy of that row starting at the bin's left edge.
   */
  function Collect(v: seq<Keyframe>, edges: seq<real>, picks: seq<Option<nat>>, i: nat): (c: Collected)
    requires i <= |picks| < |edges| && PicksBelow(picks, |v|)
    ensures |c.blocks| <= i
    ensures AllWellFormed(v) ==> AllWellFormed(c.blocks)
  {
    if i == 0 then Collected([], -1)
    else
      var st := Collect(v, edges, picks, i - 1);
      var p := picks[i - 1];
      if p.Some? && p.value != st.last then Collected(st.blocks + [v[p.value].(time := edges[i - 1])], p.value)
      else st
  }

  /** The blocks of bins 0 .. i-1, one per non-empty bin. */
  function BinBlocks(v: seq<Keyframe>, edges: seq<real>, picks: seq<Option<nat>>, i: nat): seq<Keyframe>
    requires i <= |picks| < |edges| && PicksBelow(picks, |v|)
  {
    if i == 0 then []
    else
      var p := picks[i - 1];
      BinBlocks(v, edges, picks, i - 1) + (if p.Some? then [v[p.value].(time := edges[i - 1])] else [])
  }

  /**
   * A keyframe lies in one bin only, so two bins never share a pick and the
   * "same pick as the last block" test never fires: every non-empty bin
   * gives exactly one block.
   */
  lemma {:induction false} CollectOneBlockPerBin(v: seq<Keyframe>, edges: seq<real>, picks: seq<Option<nat>>,
                                                 bins: seq<Option<nat>>, i: nat)
    requires i <= |picks| < |edges| && PicksBelow(picks, |v|) && PicksInBins(picks, bins)
    ensures Collect(v, edges, picks, i).blocks == BinBlocks(v, edges, picks, i)
    ensures var last := Collect(v, edges, picks, i).last;
      last == -1 || (0 <= last < |bins| && bins[last].Some? && bins[last].value < i)
  {
    if i > 0 {
      CollectOneBlockPerBin(v, edges, picks, bins, i - 1);
      var st := Collect(v, edges, picks, i - 1);
      var p := picks[i - 1];
      if p.Some? {
        assert bins[p.value] == Some(i - 1);
        assert p.value != st.last;
      }
    }
  }

  ghost predicate StartsBelow(b: seq<Keyframe>, bound: real)
  {
    forall j :: 0 <= j < |b| ==> b[j].time < bound
  }

  ghost predicate StartsIncrease(b: seq<Keyframe>)
  {
    forall j, l :: 0 <= j < l < |b| ==> b[j].time < b[l].time
  }

  /** Block starts are left edges of successive bins, so they strictly increase and stay below edge i. */
  lemma {:induction false} BinBlocksIncrease(v: seq<Keyframe>, edges: seq<real>, picks: seq<Option<nat>>, i: nat)
    requires i <= |picks| < |edges| && PicksBelow(picks, |v|) && StrictlyIncreasing(edges)
    ensures StartsBelow(BinBlocks(v, edges, picks, i), edges[i])
    ensures StartsIncrease(BinBlocks(v, edges, picks, i))
  {
    if i > 0 {
      BinBlocksIncrease(v, edges, picks, i - 1);
      var b0 := BinBlocks(v, edges, picks, i - 1);
      var b := BinBlocks(v, edges, picks, i);
      assert StartsBelow(b0, edges[i - 1]);
      assert edges[i - 1] < edges[i];
      if picks[i - 1].Some? {
        assert b == b0 + [v[picks[i - 1].value].(time := edges[i - 1])];
        forall j | 0 <= j < |b| ensures b[j].time < edges[i] && (j < |b| - 1 ==> b[j].time < edges[i - 1]) {
          if j < |b| - 1 { assert b[j] == b0[j]; }
        }
      } else {
        assert b == b0;
        assert StartsBelow(b, edges[i - 1]);
      }
    }
  }

  /** The loop of `_aggregate_data` over the bins, tracking the last row used. */
  method CollectBlocks(v: seq<Keyframe>, edges: seq<real>, picks: seq<Option<nat>>) returns (blocks: seq<Keyframe>)
    requires |picks| < |edges| && PicksBelow(picks, |v|)
    ensures blocks == Collect(v, edges, picks, |picks|).blocks
  {
    blocks := [];
    var last: int := -1;
    var i := 0;
    while i < |picks|
      invariant 0 <= i <= |picks|
      invariant Collected(blocks, last) == Collect(v, edges, picks, i)
    {
      var p := picks[i];
      if p.Some? && p.value != last {
        blocks := blocks + [v[p.value].(time := edges[i])];
        last := p.value;
      }
      i := i + 1;
    }
  }

  // ---------------------------------------------------------------------
  // Widths and the whole aggregation
  // ---------------------------------------------------------------------

  /** Each block reaches the next block's start; the last reaches max_time. */
  function BlockWidths(blocks: seq<Keyframe>, maxTime: real): (w: seq<real>)
    requires blocks != []
    ensures |w| == |blocks|
    ensures forall j :: 0 <= j < |blocks| - 1 ==> blocks[j].time + w[j] == blocks[j + 1].time
    ensures blocks[|blocks| - 1].time + w[|blocks| - 1] == maxTime
  {
    Gaps(Times(blocks)) + [maxTime - blocks[|blocks| - 1].time]
  }

  /**
   * The aggregated table: its rows (each row's time is its block start), the
   * widths column, and the raw flag.  `widths` is None for the one-row table
   * of the zero-span case, which has no width column.
   */
  datatype Aggregated = Aggregated(rows: seq<Keyframe>, widths: Option<seq<real>>, isRaw: bool)

  const NothingAggregated: Aggregated := Aggregated([], Some([]), false)

  /** The rows and widths of binned mode, for bins over [lo, hi] with lo < hi. */
  function BinnedRows(v: seq<Keyframe>, edges: seq<real>, picks: seq<Option<nat>>, lo: real): (rows: seq<Keyframe>)
    requires v != [] && |picks| < |edges| && PicksBelow(picks, |v|)
    ensures rows != []
    ensures AllWellFormed(v) ==> AllWellFormed(rows)
  {
    var blocks := Collect(v, edges, picks, |picks|).blocks;
    if blocks == [] then [v[0].(time := lo)] else blocks
  }

  /** `_aggregate_data(v, num_bins, full)`. */
  function Aggregate(root: int -> real, v: seq<Keyframe>, numBins: int, full: seq<Keyframe>): (a: Aggregated)
    requires AllWellFormed(v)
    ensures a.rows != [] ==> a.widths.None? || |a.widths.value| == |a.rows|
    ensures AllWellFormed(a.rows)
  {
    if v == [] || numBins <= 0 then NothingAggregated
    else if numBins >= |v| then Aggregated(v, Some(RawWidths(v, full)), true)
    else
      var lo, hi := MinTime(v), MaxTime(v);
      if hi <= lo then Aggregated([v[0]], None, true)
      else
        var edges := Edges(lo, hi, numBins);
        var bins := Bins(v, edges);
        var picks := Picks(bins, Scores(root, v), numBins);
        var rows := BinnedRows(v, edges, picks, lo);
        Aggregated(rows, Some(BlockWidths(rows, hi)), false)
  }

  /**
   * Binned mode yields one block per non-empty bin, in bin order, each
   * starting at its bin's left edge and carrying the first highest-scoring
   * keyframe of that bin; every width is positive and the last block ends at
   * max_time.  The keyframes at max_time itself are in no bin.
   */
  lemma BinnedBlocks(root: int -> real, v: seq<Keyframe>, numBins: int, full: seq<Keyframe>)
    requires AllWellFormed(v) && 0 < numBins < |v| && MinTime(v) < MaxTime(v)
    ensures var edges := Edges(MinTime(v), MaxTime(v), numBins);
      var picks := Picks(Bins(v, edges), Scores(root, v), numBins);
      var a := Aggregate(root, v, numBins, full);
      !a.isRaw && a.widths.Some? &&
      a.rows == BinBlocks(v, edges, picks, numBins) &&
      (forall j :: 0 <= j < |a.rows| ==> a.widths.value[j] > 0.0) &&
      a.rows[|a.rows| - 1].time + a.widths.value[|a.rows| - 1] == MaxTime(v) &&
      (forall i :: 0 <= i < |v| && v[i].time == MaxTime(v) ==> Bins(v, edges)[i].None?)
  {
    var lo, hi := MinTime(v), MaxTime(v);
    var edges := Edges(lo, hi, numBins);
    var bins := Bins(v, edges);
    var scores := Scores(root, v);
    var picks := Picks(bins, scores, numBins);
    BinnedRowsOnePerBin(v, numBins, scores);
    var rows := BinnedRows(v, edges, picks, lo);
    assert Aggregate(root, v, numBins, full) == Aggregated(rows, Some(BlockWidths(rows, hi)), false);
    BlockWidthsPositive(rows, hi);
    EdgesIncrease(lo, hi, numBins);
    BinOfHalfOpen(edges, hi, 0);
  }

  /** With a non-zero span, the collected rows are one block per non-empty bin, increasing and below max_time. */
  lemma BinnedRowsOnePerBin(v: seq<Keyframe>, numBins: nat, scores: seq<real>)
    requires v != [] && numBins > 0 && |scores| == |v| && MinTime(v) < MaxTime(v)
    ensures var edges := Edges(MinTime(v), MaxTime(v), numBins);
      var picks := Picks(Bins(v, edges), scores, numBins);
      var rows := BinnedRows(v, edges, picks, MinTime(v));
      rows == BinBlocks(v, edges, picks, numBins) &&
      StartsIncrease(rows) && StartsBelow(rows, MaxTime(v))
  {
    var lo, hi := MinTime(v), MaxTime(v);
    var edges := Edges(lo, hi, numBins);
    var bins := Bins(v, edges);
    var picks := Picks(bins, scores, numBins);
    EdgesIncrease(lo, hi, numBins);
    PicksAreInBins(bins, scores, numBins);
    CollectOneBlockPerBin(v, edges, picks, bins, numBins);
    BinBlocksIncrease(v, edges, picks, numBins);
    // The keyframe at min_time lies in bin 0, so bin 0 yields a block.
    var i0 :| 0 <= i0 < |v| && v[i0].time == lo;
    BinOfHalfOpen(edges, lo, 0);
    assert bins[i0] == Some(0);
    assert picks[0].Some?;
    BinBlocksNonEmpty(v, edges, picks, 0, numBins);
  }

  lemma BlockWidthsPositive(blocks: seq<Keyframe>, maxTime: real)
    requires blocks != [] && StartsIncrease(blocks) && StartsBelow(blocks, maxTime)
    ensures forall j :: 0 <= j < |blocks| ==> BlockWidths(blocks, maxTime)[j] > 0.0
  {
    var w := BlockWidths(blocks, maxTime);
    forall j | 0 <= j < |blocks| ensures w[j] > 0.0 {
      if j < |blocks| - 1 {
        assert blocks[j].time < blocks[j + 1].time;
      }
    }
  }

  lemma {:induction false} BinBlocksNonEmpty(v: seq<Keyframe>, edges: seq<real>, picks: seq<Option<nat>>, k: nat, i: nat)
    requires i <= |picks| < |edges| && PicksBelow(picks, |v|)
    requires k < i && picks[k].Some?
    ensures BinBlocks(v, edges, picks, i) != []
    decreases i
  {
    if k < i - 1 {
      BinBlocksNonEmpty(v, edges, picks, k, i - 1);
    }
  }

  /**
   * Zero span: with more keyframes than bins but all at one time, the result
   * is the first row alone, flagged raw, without a width column.
   */
  lemma ZeroSpan(root: int -> real, v: seq<Keyframe>, numBins: int, full: seq<Keyframe>)
    requires AllWellFormed(v) && 0 < numBins < |v|
    requires forall i :: 0 <= i < |v| ==> v[i].time == v[0].time
    ensures Aggregate(root, v, numBins, full) == Aggregated([v[0]], None, true)
  {
    var lo, hi := MinTime(v), MaxTime(v);
    var i :| 0 <= i < |v| && v[i].time == lo;
    var j :| 0 <= j < |v| && v[j].time == hi;
  }

  /** Raw mode is chosen exactly when there are at least as many bins as keyframes. */
  lemma RawModeChoice(root: int -> real, v: seq<Keyframe>, numBins: int, full: seq<Keyframe>)
    requires AllWellFormed(v) && v != [] && numBins > 0
    ensures numBins >= |v| ==> Aggregate(root, v, numBins, full) == Aggregated(v, Some(RawWidths(v, full)), true)
    ensures numBins < |v| && MinTime(v) < MaxTime(v) ==> !Aggregate(root, v, numBins, full).isRaw
  {
  }

  /** The aggregation step by step: score, bin, pick, then the loop over bins. */
  method AggregateData(root: int -> real, v: seq<Keyframe>, numBins: int, full: seq<Keyframe>) returns (a: Aggregated)
    requires AllWellFormed(v)
    ensures a == Aggregate(root, v, numBins, full)
  {
    if v == [] || numBins <= 0 {
      return NothingAggregated;
    }
    if numBins >= |v| {
      return Aggregated(v, Some(RawWidths(v, full)), true);
    }
    var scores := ImportanceScores(root, v);
    var lo, hi := MinTime(v), MaxTime(v);
    if hi <= lo {
      return Aggregated([v[0]], None, true);
    }
    var edges := Edges(lo, hi, numBins);
    var bins := Bins(v, edges);
    var picks := Picks(bins, scores, numBins);
    var blocks := CollectBlocks(v, edges, picks);
    if blocks == [] {
      blocks := [v[0].(time := lo)];
    }
    a := Aggregated(blocks, Some(BlockWidths(blocks, hi)), false);
  }
}
