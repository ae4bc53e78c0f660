/**
 * The timeline's background render worker: from the keyframe table and the
 * view it produces the arrays the block painter draws (one entry per block
 * and channel, row-major by block), their bounding rectangle, and the raw
 * flag.  Every failure inside the computation is caught and turns into the
 * empty result; a call that arrives while the worker is busy is ignored.
 */
module RenderWorkerModel {
  import opened Common
  import opened Keyframes
  import opened LodAggregation

  /** A QRectF; the default-constructed one is all zeros. */
  datatype Rect = Rect(x: real, y: real, width: real, height: real)

  const NullRect: Rect := Rect(0.0, 0.0, 0.0, 0.0)

  /** The render arrays: start, channel row, width and 8-bit colour of each cell. */
  datatype RenderData = RenderData(x: seq<real>, y: seq<int>, w: seq<real>, r: seq<int>, g: seq<int>, b: seq<int>)

  /** The empty dictionary. */
  const NoRenderData: RenderData := RenderData([], [], [], [], [], [])

  /** One `finished(render_data, rect, is_raw)` signal. */
  datatype Emission = Emission(data: RenderData, rect: Rect, isRaw: bool)

  /** What the exception handler emits. */
  const Failure: Emission := Emission(NoRenderData, NullRect, false)

  /** The calibration's per-component tables from 4-bit value to display byte. */
  datatype Luts = Luts(r: seq<int>, g: seq<int>, b: seq<int>)

  function LutOf(luts: Luts, k: Component): seq<int>
  {
    match k
    case Red => luts.r
    case Green => luts.g
    case Blue => luts.b
  }

  /** `min(n_visible, int(width / 6))`. */
  function NumBins(nVisible: nat, widthPx: real): (n: int)
    ensures n <= nVisible
    ensures n == nVisible <==> Trunc(widthPx / PixelsPerBin) >= nVisible
    ensures n < nVisible ==> n == Trunc(widthPx / PixelsPerBin)
  {
    var byWidth := Trunc(widthPx / PixelsPerBin);
    if byWidth < nVisible then byWidth else nVisible
  }

  // ---------------------------------------------------------------------
  // The last block's width
  // ---------------------------------------------------------------------

  /**
   * The last block is re-measured from its start to the first keyframe of
   * the whole table after that start; without one it is stretched to x_max
   * if it ends before it.  A table without a width column fails (None).
   */
  function AdjustLastWidth(rows: seq<Keyframe>, widths: Option<seq<real>>, times: seq<real>, xMax: real): (r: Option<seq<real>>)
    requires rows != [] && (widths.Some? ==> |widths.value| == |rows|)
    ensures r.Some? <==> widths.Some?
    ensures r.Some? ==> |r.value| == |rows| && r.value[..|rows| - 1] == widths.value[..|rows| - 1]
  {
    if widths.None? then None
    else
      var w, n := widths.value, |rows|;
      var last := rows[n - 1].time;
      var k := SearchRight(times, last);
      if k < |times| then Some(w[..n - 1] + [times[k] - last])
      else if xMax > last + w[n - 1] then Some(w[..n - 1] + [xMax - last])
      else Some(w)
  }

  /**
   * On a sorted time column the last block ends exactly at the first
   * keyframe after its start, so a keyframe inside the block shortens it;
   * when there is none the block ends at the later of its old end and x_max.
   */
  lemma LastBlockEnds(rows: seq<Keyframe>, widths: seq<real>, times: seq<real>, xMax: real)
    requires rows != [] && |widths| == |rows| && Sorted(times)
    ensures var n, start := |rows|, rows[|rows| - 1].time;
      var w := AdjustLastWidth(rows, Some(widths), times, xMax).value[n - 1];
      ((exists k :: 0 <= k < |times| && times[k] > start) ==>
        start + w > start &&
        (exists k :: 0 <= k < |times| && times[k] == start + w) &&
        (forall k :: 0 <= k < |times| && times[k] > start ==> start + w <= times[k])) &&
      ((forall k :: 0 <= k < |times| ==> times[k] <= start) ==>
        start + w == Max(start + widths[n - 1], xMax))
  {
    var start := rows[|rows| - 1].time;
    var k := SearchRight(times, start);
    if k < |times| {
      assert times[k] == start + (times[k] - start);
    } else {
      assert forall i :: 0 <= i < |times| ==> times[i] <= start;
    }
  }

  /**
   * In particular, a real keyframe strictly inside the last block (before
   * its old end) shortens it.
   */
  lemma LastBlockShortened(rows: seq<Keyframe>, widths: seq<real>, times: seq<real>, xMax: real, k: nat)
    requires rows != [] && |widths| == |rows| && Sorted(times) && k < |times|
    requires rows[|rows| - 1].time < times[k] < rows[|rows| - 1].time + widths[|rows| - 1]
    ensures AdjustLastWidth(rows, Some(widths), times, xMax).value[|rows| - 1] < widths[|rows| - 1]
  {
    LastBlockEnds(rows, widths, times, xMax);
  }

  // ---------------------------------------------------------------------
  // Render arrays
  // ---------------------------------------------------------------------

  /**
   * numpy's `lut[v]`: a negative index counts from the end; one beyond either
   * end raises IndexError (None).
   */
  function LutAt(lut: seq<int>, v: int): (r: Option<int>)
    ensures r.Some? <==> -|lut| <= v < |lut|
    ensures 0 <= v < |lut| ==> r == Some(lut[v])
  {
    if 0 <= v < |lut| then Some(lut[v])
    else if -|lut| <= v < 0 then Some(lut[|lut| + v])
    else None
  }

  /** The three colour values of a channel all have table entries. */
  predicate CoveredAt(ch: Channel, luts: Luts)
  {
    LutAt(luts.r, ch.red).Some? && LutAt(luts.g, ch.green).Some? && LutAt(luts.b, ch.blue).Some?
  }

  /** Every block's channels below nc can be looked up. */
  predicate AllCovered(rows: seq<Keyframe>, nc: nat, luts: Luts)
    requires AllWellFormed(rows) && nc <= NumChannels
  {
    forall j, c :: 0 <= j < |rows| && 0 <= c < nc ==> CoveredAt(rows[j].channels[c], luts)
  }

  /** The table entry of cell idx = block * nc + channel (0 where there is none). */
  function CellValue(rows: seq<Keyframe>, nc: nat, lut: seq<int>, k: Component, idx: int): int
    requires AllWellFormed(rows) && nc <= NumChannels && 0 <= idx < |rows| * nc
  {
    assert 0 <= idx / nc < |rows| && idx % nc < nc by { FlatBounds(idx, |rows|, nc); }
    match LutAt(lut, Value(rows[idx / nc].channels[idx % nc], k))
    case Some(x) => x
    case None => 0
  }

  function FlatColours(rows: seq<Keyframe>, nc: nat, lut: seq<int>, k: Component): (cs: seq<int>)
    requires AllWellFormed(rows) && nc <= NumChannels
    ensures |cs| == |rows| * nc
  {
    seq(|rows| * nc, idx requires 0 <= idx < |rows| * nc => CellValue(rows, nc, lut, k, idx))
  }

  /**
   * The render arrays for blocks `rows` with widths `widths`, or None where
   * numpy or pandas raise: a negative channel count (np.repeat), a channel
   * count above ten (no such column), or a value outside a table.
   */
  function RenderArrays(rows: seq<Keyframe>, widths: seq<real>, nc: int, luts: Luts): (d: Option<RenderData>)
    requires AllWellFormed(rows) && |widths| == |rows|
    ensures d.Some? <==> 0 <= nc <= NumChannels && AllCovered(rows, nc, luts)
    ensures d.Some? ==> |d.value.x| == |d.value.y| == |d.value.w| == |d.value.r| == |d.value.g| == |d.value.b| == |rows| * nc
  {
    if nc < 0 || nc > NumChannels || !AllCovered(rows, nc, luts) then None
    else
      var n := |rows| * nc;
      Some(RenderData(
        seq(n, idx requires 0 <= idx < n =>
          assert 0 <= idx / nc < |rows| by { FlatBounds(idx, |rows|, nc); }
          rows[idx / nc].time),
        seq(n, idx requires 0 <= idx < n => assert nc > 0 by { FlatBounds(idx, |rows|, nc); } idx % nc),
        seq(n, idx requires 0 <= idx < n =>
          assert 0 <= idx / nc < |rows| by { FlatBounds(idx, |rows|, nc); }
          widths[idx / nc]),
        FlatColours(rows, nc, luts.r, Red),
        FlatColours(rows, nc, luts.g, Green),
        FlatColours(rows, nc, luts.b, Blue)))
  }

  /** A table entry that exists is the one the render arrays hold. */
  lemma CellValueFound(rows: seq<Keyframe>, nc: nat, lut: seq<int>, k: Component, j: nat, c: nat)
    requires AllWellFormed(rows) && nc <= NumChannels && j < |rows| && c < nc
    requires LutAt(lut, Value(rows[j].channels[c], k)).Some?
    ensures j * nc + c < |rows| * nc
    ensures Some(CellValue(rows, nc, lut, k, j * nc + c)) == LutAt(lut, Value(rows[j].channels[c], k))
  {
    FlatIndex(j, c, nc);
    MulAtLeast(|rows| - j, nc);
    assert (|rows| - j) * nc == |rows| * nc - j * nc;
  }

  /**
   * Cell j * nc + c describes block j on channel c: its start, its row c,
   * its width and the table entries of its colour values.
   */
  lemma RenderLayout(rows: seq<Keyframe>, widths: seq<real>, nc: int, luts: Luts, j: nat, c: nat)
    requires AllWellFormed(rows) && |widths| == |rows| && RenderArrays(rows, widths, nc, luts).Some?
    requires j < |rows| && c < nc
    ensures var d := RenderArrays(rows, widths, nc, luts).value;
      var idx := j * nc + c;
      0 <= idx < |rows| * nc &&
      d.x[idx] == rows[j].time && d.y[idx] == c && d.w[idx] == widths[j] &&
      Some(d.r[idx]) == LutAt(luts.r, rows[j].channels[c].red) &&
      Some(d.g[idx]) == LutAt(luts.g, rows[j].channels[c].green) &&
      Some(d.b[idx]) == LutAt(luts.b, rows[j].channels[c].blue)
  {
    var d := RenderArrays(rows, widths, nc, luts).value;
    var idx := j * nc + c;
    FlatIndex(j, c, nc);
    assert CoveredAt(rows[j].channels[c], luts);
    CellValueFound(rows, nc, luts.r, Red, j, c);
    CellValueFound(rows, nc, luts.g, Green, j, c);
    CellValueFound(rows, nc, luts.b, Blue, j, c);
  }

  /** Channels below i of every block are already written; the rest are still 0. */
  ghost predicate Filled(arr: seq<int>, rows: seq<Keyframe>, nc: nat, lut: seq<int>, k: Component, i: nat)
    requires AllWellFormed(rows) && nc <= NumChannels
  {
    |arr| == |rows| * nc &&
    forall idx :: 0 <= idx < |arr| ==> arr[idx] == (if idx % nc < i then CellValue(rows, nc, lut, k, idx) else 0)
  }

  /** `arr[arange(i, n, nc)] = lut[values of channel i]`. */
  function WriteChannel(arr: seq<int>, rows: seq<Keyframe>, nc: nat, lut: seq<int>, k: Component, i: nat): (r: seq<int>)
    requires AllWellFormed(rows) && nc <= NumChannels && |arr| == |rows| * nc
    ensures |r| == |arr|
    ensures forall idx :: 0 <= idx < |arr| && idx % nc != i ==> r[idx] == arr[idx]
  {
    seq(|arr|, idx requires 0 <= idx < |arr| => if idx % nc == i then CellValue(rows, nc, lut, k, idx) else arr[idx])
  }

  lemma WriteChannelFills(arr: seq<int>, rows: seq<Keyframe>, nc: nat, lut: seq<int>, k: Component, i: nat)
    requires AllWellFormed(rows) && nc <= NumChannels && Filled(arr, rows, nc, lut, k, i)
    ensures Filled(WriteChannel(arr, rows, nc, lut, k, i), rows, nc, lut, k, i + 1)
  {
  }

  lemma FilledAll(arr: seq<int>, rows: seq<Keyframe>, nc: nat, lut: seq<int>, k: Component)
    requires AllWellFormed(rows) && nc <= NumChannels && Filled(arr, rows, nc, lut, k, nc)
    ensures arr == FlatColours(rows, nc, lut, k)
  {
    forall idx | 0 <= idx < |arr| ensures arr[idx] == FlatColours(rows, nc, lut, k)[idx] {
      FlatBounds(idx, |rows|, nc);
    }
  }

  /** Whether channel i of every block can be looked up. */
  method ChannelCovered(rows: seq<Keyframe>, i: nat, luts: Luts) returns (ok: bool)
    requires AllWellFormed(rows) && i < NumChannels
    ensures ok <==> forall j :: 0 <= j < |rows| ==> CoveredAt(rows[j].channels[i], luts)
  {
    var j := 0;
    while j < |rows|
      invariant 0 <= j <= |rows|
      invariant forall l :: 0 <= l < j ==> CoveredAt(rows[l].channels[i], luts)
    {
      if !CoveredAt(rows[j].channels[i], luts) {
        return false;
      }
      j := j + 1;
    }
    return true;
  }

  /**
   * The per-channel loop: channel i's cells (every nc-th entry from i) are
   * looked up in the three tables; a value outside a table stops with
   * failure (None).
   */
  method FillColours(rows: seq<Keyframe>, nc: nat, luts: Luts) returns (res: Option<(seq<int>, seq<int>, seq<int>)>)
    requires AllWellFormed(rows) && nc <= NumChannels
    ensures res.Some? <==> AllCovered(rows, nc, luts)
    ensures res.Some? ==> res.value == (FlatColours(rows, nc, luts.r, Red), FlatColours(rows, nc, luts.g, Green),
                                        FlatColours(rows, nc, luts.b, Blue))
  {
    var n := |rows| * nc;
    var r: seq<int> := seq(n, _ => 0);
    var g: seq<int> := seq(n, _ => 0);
    var b: seq<int> := seq(n, _ => 0);
    for i := 0 to nc
      invariant forall j, c :: 0 <= j < |rows| && 0 <= c < i ==> CoveredAt(rows[j].channels[c], luts)
      invariant Filled(r, rows, nc, luts.r, Red, i)
      invariant Filled(g, rows, nc, luts.g, Green, i)
      invariant Filled(b, rows, nc, luts.b, Blue, i)
    {
      var ok := ChannelCovered(rows, i, luts);
      if !ok {
        return None;
      }
      WriteChannelFills(r, rows, nc, luts.r, Red, i);
      WriteChannelFills(g, rows, nc, luts.g, Green, i);
      WriteChannelFills(b, rows, nc, luts.b, Blue, i);
      r := WriteChannel(r, rows, nc, luts.r, Red, i);
      g := WriteChannel(g, rows, nc, luts.g, Green, i);
      b := WriteChannel(b, rows, nc, luts.b, Blue, i);
    }
    FilledAll(r, rows, nc, luts.r, Red);
    FilledAll(g, rows, nc, luts.g, Green);
    FilledAll(b, rows, nc, luts.b, Blue);
    return Some((r, g, b));
  }

  function MaxOf(s: seq<real>): (m: real)
    requires s != []
    ensures forall i :: 0 <= i < |s| ==> s[i] <= m
    ensures exists i :: 0 <= i < |s| && s[i] == m
  {
    if |s| == 1 then s[0]
    else
      var m := MaxOf(s[1..]);
      assert s[1..][0] == s[1];
      if s[0] >= m then s[0] else m
  }

  /** From the earliest block start to the latest block end, rows -0.5 .. 9.5. */
  function BoundingRect(rows: seq<Keyframe>, widths: seq<real>): (rect: Rect)
    requires rows != [] && |widths| == |rows|
    ensures rect.y == -0.5 && rect.height == 10.0
    ensures forall j :: 0 <= j < |rows| ==> rect.x <= rows[j].time && rows[j].time + widths[j] <= rect.x + rect.width
  {
    var ends := seq(|rows|, j requires 0 <= j < |rows| => rows[j].time + widths[j]);
    var lo := MinTime(rows);
    var hi := MaxOf(ends);
    assert forall j :: 0 <= j < |rows| ==> rows[j].time + widths[j] <= hi by {
      forall j | 0 <= j < |rows| ensures rows[j].time + widths[j] <= hi {
        assert ends[j] == rows[j].time + widths[j];
      }
    }
    Rect(lo, -0.5, hi - lo, 10.0)
  }

  // ---------------------------------------------------------------------
  // process_data
  // ---------------------------------------------------------------------

  /**
   * What one call of `process_data` emits, for a view [x_min, x_max] that
   * is width_px pixels wide and nc channels.  `root` is the square root the
   * importance score uses.
   */
  function Process(root: int -> real, df: seq<Keyframe>, xMin: real, xMax: real, widthPx: real, nc: int,
                   luts: Luts): Emission
    requires AllWellFormed(df)
  {
    if df == [] then Failure
    else
      var v := Visible(df, xMin, xMax);
      if v == [] then Failure
      else
        var numBins := NumBins(|v|, widthPx);
        var agg := if numBins > 0 then Aggregate(root, v, numBins, df) else NothingAggregated;
        Emit(agg, Times(df), xMax, nc, luts)
  }

  /** From the aggregated table to the emission: last-width fix, arrays, rectangle. */
  function Emit(agg: Aggregated, times: seq<real>, xMax: real, nc: int, luts: Luts): Emission
    requires AllWellFormed(agg.rows)
    requires agg.rows != [] ==> agg.widths.None? || |agg.widths.value| == |agg.rows|
  {
    if agg.rows == [] then Emission(NoRenderData, NullRect, agg.isRaw)
    else match AdjustLastWidth(agg.rows, agg.widths, times, xMax)
      case None => Failure
      case Some(w) =>
        match RenderArrays(agg.rows, w, nc, luts)
        case None => Failure
        case Some(data) => Emission(data, BoundingRect(agg.rows, w), agg.isRaw)
  }

  /**
   * No keyframes, or a view too narrow for one bin, emit the empty result
   * with the raw flag off.
   */
  lemma ProcessNothingToDraw(root: int -> real, df: seq<Keyframe>, xMin: real, xMax: real, widthPx: real, nc: int,
                             luts: Luts)
    requires AllWellFormed(df)
    requires df == [] || Visible(df, xMin, xMax) == [] || NumBins(|Visible(df, xMin, xMax)|, widthPx) <= 0
    ensures Process(root, df, xMin, xMax, widthPx, nc, luts) == Failure
  {
  }

  /**
   * The zero-span quirk: with more visible keyframes than bins, all at one
   * time, aggregation returns a single row without a width column, the width
   * lookup fails, and the empty result is emitted.
   */
  lemma ProcessZeroSpan(root: int -> real, df: seq<Keyframe>, xMin: real, xMax: real, widthPx: real, nc: int,
                        luts: Luts)
    requires AllWellFormed(df)
    requires var v := Visible(df, xMin, xMax);
      v != [] && 0 < NumBins(|v|, widthPx) < |v| && forall i :: 0 <= i < |v| ==> v[i].time == v[0].time
    ensures Process(root, df, xMin, xMax, widthPx, nc, luts) == Failure
  {
    var v := Visible(df, xMin, xMax);
    ZeroSpan(root, v, NumBins(|v|, widthPx), df);
  }

  /**
   * A non-empty emission describes |blocks| * nc cells, and it is flagged raw
   * exactly when there were at least as many bins as visible keyframes.
   */
  lemma ProcessRawFlag(root: int -> real, df: seq<Keyframe>, xMin: real, xMax: real, widthPx: real, nc: int,
                       luts: Luts)
    requires AllWellFormed(df) && df != []
    requires var v := Visible(df, xMin, xMax); v != [] && NumBins(|v|, widthPx) > 0
    requires var v := Visible(df, xMin, xMax); MinTime(v) < MaxTime(v) || NumBins(|v|, widthPx) == |v|
    ensures var v := Visible(df, xMin, xMax);
      var e := Process(root, df, xMin, xMax, widthPx, nc, luts);
      e != Failure ==> (e.isRaw <==> NumBins(|v|, widthPx) == |v|)
  {
  }

  class RenderWorker {
    var isRunning: bool

    constructor()
      ensures !isRunning
    {
      isRunning := false;
    }

    /**
     * A call while busy returns at once without emitting and leaves the flag
     * set; otherwise the flag is raised for the computation and cleared on
     * the way out, and the emission is the one `Process` describes.  The
     * time column is sorted, as the binary searches require.
     */
    method ProcessData(root: int -> real, df: seq<Keyframe>, xMin: real, xMax: real, widthPx: real, nc: int,
                       luts: Luts) returns (emitted: Option<Emission>)
      requires AllWellFormed(df) && SortedByTime(df)
      modifies this
      ensures old(isRunning) ==> emitted == None && isRunning
      ensures !old(isRunning) ==> emitted == Some(Process(root, df, xMin, xMax, widthPx, nc, luts)) && !isRunning
    {
      if isRunning {
        return None;
      }
      isRunning := true;
      var e := Compute(root, df, xMin, xMax, widthPx, nc, luts);
      emitted := Some(e);
      isRunning := false;
    }
  }

  /** The slice of the table around the view, by binary search. */
  method VisibleSlice(df: seq<Keyframe>, xMin: real, xMax: real) returns (v: seq<Keyframe>)
    requires SortedByTime(df)
    ensures v == Visible(df, xMin, xMax)
  {
    var times := Times(df);
    SortedTimes(df);
    var k1 := BisectRight(times, xMin);
    var start := if k1 == 0 then 0 else k1 - 1;
    var k2 := BisectRight(times, xMax);
    var end := if k2 + 1 > |times| then |times| else k2 + 1;
    if end <= start {
      return [];
    }
    v := ClampLeadIn(df[start..end], xMin);
  }

  /** The body of the `try`: each early `return` or exception is an emission here. */
  method Compute(root: int -> real, df: seq<Keyframe>, xMin: real, xMax: real, widthPx: real, nc: int,
                 luts: Luts) returns (e: Emission)
    requires AllWellFormed(df) && SortedByTime(df)
    ensures e == Process(root, df, xMin, xMax, widthPx, nc, luts)
  {
    if df == [] {
      return Failure;
    }
    var v := VisibleSlice(df, xMin, xMax);
    if v == [] {
      return Failure;
    }
    var numBins := NumBins(|v|, widthPx);
    var agg := NothingAggregated;
    if numBins > 0 {
      agg := AggregateData(root, v, numBins, df);
    }
    e := EmitAggregated(agg, Times(df), xMax, nc, luts);
  }

  method EmitAggregated(agg: Aggregated, times: seq<real>, xMax: real, nc: int, luts: Luts) returns (e: Emission)
    requires AllWellFormed(agg.rows)
    requires agg.rows != [] ==> agg.widths.None? || |agg.widths.value| == |agg.rows|
    ensures e == Emit(agg, times, xMax, nc, luts)
  {
    if agg.rows == [] {
      return Emission(NoRenderData, NullRect, agg.isRaw);
    }
    var widths := AdjustLastWidth(agg.rows, agg.widths, times, xMax);
    if widths.None? || nc < 0 || nc > NumChannels {
      return Failure;
    }
    var colours := FillColours(agg.rows, nc, luts);
    if colours.None? {
      return Failure;
    }
    var n := |agg.rows| * nc;
    var (r, g, b) := colours.value;
    var rows := agg.rows;
    var w := widths.value;
    var x := seq(n, idx requires 0 <= idx < n =>
      assert 0 <= idx / nc < |rows| by { FlatBounds(idx, |rows|, nc); }
      rows[idx / nc].time);
    var y := seq(n, idx requires 0 <= idx < n => assert nc > 0 by { FlatBounds(idx, |rows|, nc); } idx % nc);
    var ws := seq(n, idx requires 0 <= idx < n =>
      assert 0 <= idx / nc < |rows| by { FlatBounds(idx, |rows|, nc); }
      w[idx / nc]);
    e := Emission(RenderData(x, y, ws, r, g, b), BoundingRect(rows, w), agg.isRaw);
  }
}
