/**
 * The spectrogram track item: it picks a zoom level from the milliseconds
 * per pixel, lists the tiles that overlap the visible range, draws cached
 * tiles and asks the worker for missing ones, once each, by cache key.
 */
module TileView {
  import opened Common
  import opened AudioRecords
  import opened TextureWorker
  import opened TileCacheModel

  /** Tile length in ms per level: 5 s, 80 s and 1280 s. */
  const LevelTileDurations: seq<int> := [5000, 80000, 1280000]

  const DefaultColormap: string := "inferno"

  /** Level 0 below 50 ms per pixel, level 1 below 800, level 2 beyond. */
  function LevelForZoom(msPerPixel: real): (level: nat)
    ensures level < 3
  {
    if msPerPixel < 50.0 then 0 else if msPerPixel < 800.0 then 1 else 2
  }

  /** Zooming out never selects a finer level, and each level covers one band of scales. */
  lemma LevelForZoomBands(a: real, b: real)
    ensures a <= b ==> LevelForZoom(a) <= LevelForZoom(b)
    ensures LevelForZoom(a) == 0 <==> a < 50.0
    ensures LevelForZoom(a) == 1 <==> 50.0 <= a < 800.0
    ensures LevelForZoom(a) == 2 <==> a >= 800.0
  {
  }

  function TileDuration(level: nat): (d: real)
    requires level < 3
    ensures d >= 5000.0
  {
    LevelTileDurations[level] as real
  }

  // ---------------------------------------------------------------------
  // Cache keys
  // ---------------------------------------------------------------------

  /** `f"{path}_{mode}_{colormap}_{tile_id}_{level}"`, or "" with no audio loaded. */
  function MakeKey(audio: Option<AudioData>, colormap: string, tileId: int, level: int): (key: string)
  {
    match audio
    case None => ""
    case Some(a) =>
      a.videoPath + "_" + a.channelMode + "_" + colormap + "_" + IntToString(tileId) + "_" + IntToString(level)
  }

  /** The key is empty exactly when no audio is loaded, and its last field reads back as the level. */
  lemma MakeKeyParses(audio: Option<AudioData>, colormap: string, tileId: int, level: int)
    ensures MakeKey(audio, colormap, tileId, level) == "" <==> audio.None?
    ensures audio.Some? ==> ParseLevel(MakeKey(audio, colormap, tileId, level)) == Some(level)
  {
    if audio.Some? {
      var a := audio.value;
      ParseLevelRoundTrip(a.videoPath + "_" + a.channelMode + "_" + colormap + "_" + IntToString(tileId), level);
    }
  }

  /** Changing the colormap changes every key, so tiles of the old colormap are never reused. */
  lemma MakeKeyColormap(a: AudioData, c1: string, c2: string, tileId: int, level: int)
    requires c1 != c2
    ensures MakeKey(Some(a), c1, tileId, level) != MakeKey(Some(a), c2, tileId, level)
  {
    KeyMiddle(a.videoPath + "_" + a.channelMode + "_", c1, c2, IntToString(tileId), IntToString(level));
  }

  /** Two keys that differ only in the field after the prefix p differ. */
  lemma KeyMiddle(p: string, c1: string, c2: string, x: string, y: string)
    requires c1 != c2
    ensures p + c1 + "_" + x + "_" + y != p + c2 + "_" + x + "_" + y
  {
    var k1, k2 := p + c1 + "_" + x + "_" + y, p + c2 + "_" + x + "_" + y;
    if |c1| == |c2| {
      assert k1[|p|..|p| + |c1|] == c1;
      assert k2[|p|..|p| + |c1|] == c2;
    }
  }

  // ---------------------------------------------------------------------
  // Visible tiles
  // ---------------------------------------------------------------------

  function MaxInt(a: int, b: int): int { if a >= b then a else b }
  function MinInt(a: int, b: int): int { if a <= b then a else b }

  /** `list(range(a, b))`. */
  function Range(a: int, b: int): (r: seq<int>)
    ensures |r| == if b <= a then 0 else b - a
    ensures forall i :: 0 <= i < |r| ==> r[i] == a + i
  {
    if b <= a then [] else seq(b - a, i requires 0 <= i < b - a => a + i)
  }

  /** First and one-past-last visible tile id. */
  function FirstVisible(xMin: real, level: nat): int
    requires level < 3
  {
    MaxInt(0, (xMin / TileDuration(level)).Floor)
  }

  function EndVisible(durationMs: real, xMax: real, level: nat): int
    requires level < 3
  {
    MinInt((durationMs / TileDuration(level)).Floor + 1, (xMax / TileDuration(level)).Floor + 1)
  }

  function VisibleTileIds(audio: Option<AudioData>, xMin: real, xMax: real, level: nat): (ids: seq<int>)
    requires level < 3
  {
    match audio
    case None => []
    case Some(a) => Range(FirstVisible(xMin, level), EndVisible(a.durationMs, xMax, level))
  }

  /**
   * The visible ids are exactly the integers from max(0, floor(x_min / d)) to
   * min(floor(duration / d), floor(x_max / d)), in increasing order; none
   * without audio.
   */
  lemma VisibleTileIdsExactly(audio: Option<AudioData>, xMin: real, xMax: real, level: nat, t: int)
    requires level < 3
    ensures var d := TileDuration(level);
      t in VisibleTileIds(audio, xMin, xMax, level) <==>
        audio.Some? && 0 <= t && (xMin / d).Floor <= t &&
        t <= (audio.value.durationMs / d).Floor && t <= (xMax / d).Floor
    ensures forall i, j :: 0 <= i < j < |VisibleTileIds(audio, xMin, xMax, level)| ==>
      VisibleTileIds(audio, xMin, xMax, level)[i] < VisibleTileIds(audio, xMin, xMax, level)[j]
  {
    var ids := VisibleTileIds(audio, xMin, xMax, level);
    if audio.Some? {
      var a, b := FirstVisible(xMin, level), EndVisible(audio.value.durationMs, xMax, level);
      if a <= t < b {
        assert ids[t - a] == t;
      }
    }
  }

  lemma FloorMonotone(x: real, y: real, d: real)
    requires d > 0.0 && x <= y
    ensures (x / d).Floor <= (y / d).Floor
  {
    assert x / d <= y / d;
  }

  /** Every time in the visible part of the audio lies in a listed tile. */
  lemma VisibleTilesCover(a: AudioData, xMin: real, xMax: real, level: nat, x: real)
    requires level < 3
    requires 0.0 <= x <= a.durationMs && xMin <= x <= xMax
    ensures (x / TileDuration(level)).Floor in VisibleTileIds(Some(a), xMin, xMax, level)
    ensures TileSpan((x / TileDuration(level)).Floor, level, a.durationMs).0 <= x <= TileSpan((x / TileDuration(level)).Floor, level, a.durationMs).1
  {
    var d := TileDuration(level);
    var t := (x / d).Floor;
    FloorMonotone(xMin, x, d);
    FloorMonotone(x, a.durationMs, d);
    FloorMonotone(x, xMax, d);
    FloorMonotone(0.0, x, d);
    VisibleTileIdsExactly(Some(a), xMin, xMax, level, t);
    assert t as real <= x / d < t as real + 1.0;
    assert t as real * d <= x;
    assert x < (t + 1) as real * d;
  }

  /** `[id * d, min((id + 1) * d, duration)]`. */
  function TileSpan(tileId: int, level: nat, durationMs: real): (span: (real, real))
    requires level < 3
  {
    (tileId as real * TileDuration(level), Min((tileId + 1) as real * TileDuration(level), durationMs))
  }

  /** A listed tile lies inside the audio and is at most one tile duration long. */
  lemma TileSpanBounds(a: AudioData, xMin: real, xMax: real, level: nat, t: int)
    requires level < 3 && t in VisibleTileIds(Some(a), xMin, xMax, level)
    ensures var span := TileSpan(t, level, a.durationMs);
      0.0 <= span.0 <= span.1 <= a.durationMs && span.1 - span.0 <= TileDuration(level)
  {
    var d := TileDuration(level);
    VisibleTileIdsExactly(Some(a), xMin, xMax, level, t);
    var f := (a.durationMs / d).Floor;
    assert f as real <= a.durationMs / d;
    assert t as real <= f as real;
    assert t as real * d <= f as real * d;
    assert f as real * d <= a.durationMs;
  }

  /**
   * When the duration is a whole number k of tiles and the view reaches it,
   * tile k is still listed and its span is empty.
   */
  lemma ZeroWidthLastTile(a: AudioData, xMin: real, xMax: real, level: nat, k: nat)
    requires level < 3
    requires a.durationMs == k as real * TileDuration(level)
    requires xMin <= a.durationMs <= xMax
    ensures k in VisibleTileIds(Some(a), xMin, xMax, level)
    ensures TileSpan(k, level, a.durationMs).0 == TileSpan(k, level, a.durationMs).1
  {
    var d := TileDuration(level);
    assert a.durationMs / d == k as real;
    FloorMonotone(xMin, a.durationMs, d);
    FloorMonotone(a.durationMs, xMax, d);
    VisibleTileIdsExactly(Some(a), xMin, xMax, level, k);
  }

  // ---------------------------------------------------------------------
  // The paint loop, as a function of the state it reads and writes
  // ---------------------------------------------------------------------

  /** The `request_tile` signal's arguments. */
  datatype TileRequest = TileRequest(audio: AudioData, key: string, startMs: real, endMs: real,
                                     colormap: string, requestTime: real)

  /** What the painter does for one tile. */
  datatype PaintOp = DrawTile(startMs: real, endMs: real, tile: Texture) | Placeholder(startMs: real, endMs: real)

  /** The x range and pixel width of the view box. */
  datatype View = View(xFrom: real, xTo: real, widthPx: real)

  datatype PaintState = PaintState(entries: seq<(string, Texture)>, pending: set<string>,
                                   ops: seq<PaintOp>, requests: seq<TileRequest>)

  /** Level and tile ids to paint, or None where `paint` returns before the loop. */
  function PaintPlan(a: AudioData, view: Option<View>): (plan: Option<(nat, seq<int>)>)
    ensures plan.Some? ==> plan.value.0 < 3
  {
    match view
    case None => None
    case Some(v) =>
      var xMin := Max(0.0, v.xFrom);
      var xMax := Min(a.durationMs, v.xTo);
      if xMax <= xMin || v.widthPx <= 0.0 then None
      else
        var level := LevelForZoom((xMax - xMin) / v.widthPx);
        Some((level, VisibleTileIds(Some(a), xMin, xMax, level)))
  }

  /** One iteration of the tile loop. */
  function PaintStep(st: PaintState, a: AudioData, colormap: string, level: nat, tileId: int, now: real): PaintState
    requires level < 3
  {
    var key := MakeKey(Some(a), colormap, tileId, level);
    if key == "" then st
    else
      var span := TileSpan(tileId, level, a.durationMs);
      match Lookup(st.entries, key)
      case Some(tile) =>
        st.(entries := AfterGet(st.entries, key), ops := st.ops + [DrawTile(span.0, span.1, tile)])
      case None =>
        var drawn := st.(ops := st.ops + [Placeholder(span.0, span.1)]);
        if key in st.pending then drawn
        else drawn.(pending := st.pending + {key},
                    requests := st.requests + [TileRequest(a, key, span.0, span.1, colormap, now)])
  }

  function PaintTiles(st: PaintState, a: AudioData, colormap: string, level: nat, ids: seq<int>, now: real): PaintState
    requires level < 3
  {
    if ids == [] then st
    else PaintStep(PaintTiles(st, a, colormap, level, ids[..|ids| - 1], now), a, colormap, level, ids[|ids| - 1], now)
  }

  /** The loop only reorders the cache: every key keeps its tile, and one thing is drawn per tile. */
  lemma {:induction false} PaintTilesKeepsCache(st0: PaintState, a: AudioData, colormap: string, level: nat, ids: seq<int>, now: real)
    requires level < 3 && DistinctKeys(st0.entries)
    ensures var st := PaintTiles(st0, a, colormap, level, ids, now);
      && DistinctKeys(st.entries)
      && |st.entries| == |st0.entries|
      && (forall k :: Lookup(st.entries, k) == Lookup(st0.entries, k))
      && |st.ops| == |st0.ops| + |ids|
  {
    if ids != [] {
      var prev := PaintTiles(st0, a, colormap, level, ids[..|ids| - 1], now);
      PaintTilesKeepsCache(st0, a, colormap, level, ids[..|ids| - 1], now);
      var key := MakeKey(Some(a), colormap, ids[|ids| - 1], level);
      MakeKeyParses(Some(a), colormap, ids[|ids| - 1], level);
      forall k ensures Lookup(AfterGet(prev.entries, key), k) == Lookup(prev.entries, k) {
        AfterGetKeepsContents(prev.entries, key, k);
      }
      AfterGetKeepsContents(prev.entries, key, key);
    }
  }

  /**
   * Each request of a paint was a cache miss whose key was not pending, no key
   * is requested twice, and the pending set grows by exactly the requested keys.
   */
  ghost predicate RequestedOnce(st0: PaintState, st: PaintState, level: int)
  {
    && (forall j :: 0 <= j < |st.requests| ==>
          && st.requests[j].key !in st0.pending
          && Lookup(st0.entries, st.requests[j].key).None?
          && ParseLevel(st.requests[j].key) == Some(level))
    && (forall i, j :: 0 <= i < j < |st.requests| ==> st.requests[i].key != st.requests[j].key)
    && st.pending == st0.pending + RequestKeys(st.requests)
  }

  function RequestKeys(rs: seq<TileRequest>): (keys: set<string>)
    ensures forall j :: 0 <= j < |rs| ==> rs[j].key in keys
  {
    if rs == [] then {} else RequestKeys(rs[..|rs| - 1]) + {rs[|rs| - 1].key}
  }

  /**
   * Starting with no requests, a paint requests a tile exactly for the
   * visible tiles whose key missed the cache and was not pending: each
   * request is such a miss, no key is requested twice, every such tile is
   * requested, and the pending set grows by exactly the requested keys.
   */
  lemma PaintTilesRequests(st0: PaintState, a: AudioData, colormap: string, level: nat, ids: seq<int>, now: real)
    requires level < 3 && DistinctKeys(st0.entries) && st0.requests == []
    ensures RequestedOnce(st0, PaintTiles(st0, a, colormap, level, ids, now), level)
    ensures forall i :: 0 <= i < |ids| && Missed(st0, MakeKey(Some(a), colormap, ids[i], level)) ==>
      MakeKey(Some(a), colormap, ids[i], level) in RequestKeys(PaintTiles(st0, a, colormap, level, ids, now).requests)
  {
    PaintTilesSound(st0, a, colormap, level, ids, now);
    PaintTilesComplete(st0, a, colormap, level, ids, now);
  }

  /** Each request of a paint is a miss that was not pending, at most once per key. */
  lemma {:induction false} PaintTilesSound(st0: PaintState, a: AudioData, colormap: string, level: nat, ids: seq<int>, now: real)
    requires level < 3 && DistinctKeys(st0.entries) && st0.requests == []
    ensures RequestedOnce(st0, PaintTiles(st0, a, colormap, level, ids, now), level)
  {
    if ids != [] {
      var prev := PaintTiles(st0, a, colormap, level, ids[..|ids| - 1], now);
      PaintTilesSound(st0, a, colormap, level, ids[..|ids| - 1], now);
      PaintTilesKeepsCache(st0, a, colormap, level, ids[..|ids| - 1], now);
      PaintStepRequests(st0, prev, a, colormap, level, ids[|ids| - 1], now);
    }
  }

  /**
   * The converse: every visible tile whose key missed the cache and was not
   * pending when the paint began is requested (and so becomes pending).
   */
  lemma {:induction false} PaintTilesComplete(st0: PaintState, a: AudioData, colormap: string, level: nat, ids: seq<int>, now: real)
    requires level < 3 && DistinctKeys(st0.entries) && st0.requests == []
    ensures forall i :: 0 <= i < |ids| && Missed(st0, MakeKey(Some(a), colormap, ids[i], level)) ==>
      MakeKey(Some(a), colormap, ids[i], level) in RequestKeys(PaintTiles(st0, a, colormap, level, ids, now).requests)
  {
    if ids != [] {
      var n := |ids| - 1;
      var init := ids[..n];
      var prev := PaintTiles(st0, a, colormap, level, init, now);
      var st := PaintTiles(st0, a, colormap, level, ids, now);
      var key := MakeKey(Some(a), colormap, ids[n], level);
      PaintTilesComplete(st0, a, colormap, level, init, now);
      assert prev.pending == st0.pending + RequestKeys(prev.requests) by {
        PaintTilesSound(st0, a, colormap, level, init, now);
      }
      assert Lookup(prev.entries, key) == Lookup(st0.entries, key) by {
        PaintTilesKeepsCache(st0, a, colormap, level, init, now);
      }
      assert Missed(st0, key) ==> key in RequestKeys(st.requests) by {
        RequestKeysGrow(prev, st, a, colormap, level, ids[n], now);
      }
      assert RequestKeys(prev.requests) <= RequestKeys(st.requests) by {
        RequestKeysGrow(prev, st, a, colormap, level, ids[n], now);
      }
      assert forall i :: 0 <= i < n ==> init[i] == ids[i];
      CompleteLast(st0, prev.requests, st.requests, a, colormap, level, ids);
    }
  }

  /** The induction step: what the first tiles requested is kept, and the last tile's key is added. */
  lemma CompleteLast(st0: PaintState, before: seq<TileRequest>, after: seq<TileRequest>,
                     a: AudioData, colormap: string, level: nat, ids: seq<int>)
    requires ids != []
    requires forall i :: 0 <= i < |ids| - 1 && Missed(st0, MakeKey(Some(a), colormap, ids[i], level)) ==>
      MakeKey(Some(a), colormap, ids[i], level) in RequestKeys(before)
    requires RequestKeys(before) <= RequestKeys(after)
    requires Missed(st0, MakeKey(Some(a), colormap, ids[|ids| - 1], level)) ==>
      MakeKey(Some(a), colormap, ids[|ids| - 1], level) in RequestKeys(after)
    ensures forall i :: 0 <= i < |ids| && Missed(st0, MakeKey(Some(a), colormap, ids[i], level)) ==>
      MakeKey(Some(a), colormap, ids[i], level) in RequestKeys(after)
  {
    forall i | 0 <= i < |ids| && Missed(st0, MakeKey(Some(a), colormap, ids[i], level))
      ensures MakeKey(Some(a), colormap, ids[i], level) in RequestKeys(after)
    {
    }
  }

  /** A key the paint should fetch: a real key, not cached and not pending when the paint began. */
  ghost predicate Missed(st0: PaintState, key: string)
  {
    key != "" && key !in st0.pending && Lookup(st0.entries, key).None?
  }

  /** One tile keeps every request made so far and, on a miss that is not pending, requests its key. */
  lemma RequestKeysGrow(prev: PaintState, st: PaintState, a: AudioData, colormap: string, level: nat, tileId: int, now: real)
    requires level < 3 && st == PaintStep(prev, a, colormap, level, tileId, now)
    ensures RequestKeys(prev.requests) <= RequestKeys(st.requests)
    ensures var key := MakeKey(Some(a), colormap, tileId, level);
      key != "" && Lookup(prev.entries, key).None? ==>
      key in prev.pending || key in RequestKeys(st.requests)
  {
    if st.requests != prev.requests {
      var r := st.requests[|st.requests| - 1];
      assert st.requests == prev.requests + [r];
      assert st.requests[..|st.requests| - 1] == prev.requests;
    }
  }

  /** One tile keeps `RequestedOnce`, given that the loop so far left every key's tile as it was. */
  lemma PaintStepRequests(st0: PaintState, prev: PaintState, a: AudioData, colormap: string, level: nat, tileId: int, now: real)
    requires level < 3 && RequestedOnce(st0, prev, level)
    requires forall k :: Lookup(prev.entries, k) == Lookup(st0.entries, k)
    ensures RequestedOnce(st0, PaintStep(prev, a, colormap, level, tileId, now), level)
  {
    var st := PaintStep(prev, a, colormap, level, tileId, now);
    var key := MakeKey(Some(a), colormap, tileId, level);
    MakeKeyParses(Some(a), colormap, tileId, level);
    if key == "" || Lookup(prev.entries, key).Some? || key in prev.pending {
      assert st.requests == prev.requests && st.pending == prev.pending;
    } else {
      var span := TileSpan(tileId, level, a.durationMs);
      var r := TileRequest(a, key, span.0, span.1, colormap, now);
      assert st.requests == prev.requests + [r] && st.pending == prev.pending + {key};
      RequestedOnceAppend(st0, prev, st, r, level);
    }
  }

  /** Appending a request for a missed, not yet pending key keeps `RequestedOnce`. */
  lemma RequestedOnceAppend(st0: PaintState, prev: PaintState, st: PaintState, r: TileRequest, level: int)
    requires RequestedOnce(st0, prev, level)
    requires st.requests == prev.requests + [r] && st.pending == prev.pending + {r.key}
    requires r.key !in prev.pending && Lookup(st0.entries, r.key).None? && ParseLevel(r.key) == Some(level)
    ensures RequestedOnce(st0, st, level)
  {
    RequestKeysSnoc(prev.requests, r);
    forall j | 0 <= j < |st.requests|
      ensures st.requests[j].key !in st0.pending && Lookup(st0.entries, st.requests[j].key).None?
      ensures ParseLevel(st.requests[j].key) == Some(level)
    {
      if j < |prev.requests| {
        assert st.requests[j] == prev.requests[j];
      }
    }
    forall i, j | 0 <= i < j < |st.requests| ensures st.requests[i].key != st.requests[j].key {
      if j < |prev.requests| {
        assert st.requests[i] == prev.requests[i] && st.requests[j] == prev.requests[j];
      } else {
        assert st.requests[i] == prev.requests[i] && prev.requests[i].key in RequestKeys(prev.requests);
      }
    }
  }

  lemma RequestKeysSnoc(rs: seq<TileRequest>, r: TileRequest)
    ensures RequestKeys(rs + [r]) == RequestKeys(rs) + {r.key}
  {
    assert (rs + [r])[..|rs|] == rs;
  }

  // ---------------------------------------------------------------------
  // The item
  // ---------------------------------------------------------------------

  class AudioVisualizationItem {
    var audio: Option<AudioData>
    var colormap: string
    var cache: TileCache?<Texture>
    var pending: set<string>

    constructor()
      ensures audio.None? && colormap == DefaultColormap && cache == null && pending == {}
    {
      audio := None;
      colormap := DefaultColormap;
      cache := null;
      pending := {};
    }

    /** The cache is injected from outside (the audio manager owns it). */
    method SetTileCache(c: TileCache<Texture>)
      modifies this
      ensures cache == c && audio == old(audio) && colormap == old(colormap) && pending == old(pending)
    {
      cache := c;
    }

    /** New audio forgets which tiles were pending. */
    method SetAudioData(a: Option<AudioData>)
      modifies this
      ensures audio == a && pending == {}
      ensures colormap == old(colormap) && cache == old(cache)
    {
      audio := a;
      pending := {};
    }

    /** A new colormap forgets which tiles were pending; the colormap is part of every key. */
    method SetColormap(name: string)
      modifies this
      ensures colormap == name && pending == {}
      ensures audio == old(audio) && cache == old(cache)
    {
      colormap := name;
      pending := {};
    }

    /** One pass of the tile loop for tile `tileId` at `level`. */
    method PaintTile(a: AudioData, level: nat, tileId: int, now: real, ops: seq<PaintOp>, requests: seq<TileRequest>)
      returns (ops': seq<PaintOp>, requests': seq<TileRequest>)
      requires level < 3 && cache != null && cache.Valid()
      modifies this, cache
      ensures audio == old(audio) && colormap == old(colormap) && cache == old(cache)
      ensures cache.Valid()
      ensures PaintState(cache.entries, pending, ops', requests')
        == PaintStep(PaintState(old(cache.entries), old(pending), ops, requests), a, colormap, level, tileId, now)
    {
      ops', requests' := ops, requests;
      var key := MakeKey(Some(a), colormap, tileId, level);
      if key != "" {
        var span := TileSpan(tileId, level, a.durationMs);
        var hit := cache.Get(key);
        match hit
        case Some(tile) =>
          ops' := ops + [DrawTile(span.0, span.1, tile)];
        case None =>
          ops' := ops + [Placeholder(span.0, span.1)];
          if key !in pending {
            pending := pending + {key};
            requests' := requests + [TileRequest(a, key, span.0, span.1, colormap, now)];
          }
      }
    }

    /**
     * Paints the visible tiles: draws cache hits, draws a placeholder for each
     * miss and returns the tile requests to send.  `now` is the request
     * timestamp.
     */
    method Paint(view: Option<View>, now: real) returns (ops: seq<PaintOp>, requests: seq<TileRequest>)
      requires cache != null ==> cache.Valid()
      modifies this, cache
      ensures audio == old(audio) && colormap == old(colormap) && cache == old(cache)
      ensures cache != null ==> cache.Valid()
      ensures old(audio).None? || cache == null || PaintPlan(audio.value, view).None? ==>
        ops == [] && requests == [] && pending == old(pending) && (cache != null ==> cache.entries == old(cache.entries))
      ensures audio.Some? && cache != null && PaintPlan(audio.value, view).Some? ==>
        var plan := PaintPlan(audio.value, view).value;
        PaintTiles(PaintState(old(cache.entries), old(pending), [], []), audio.value, colormap, plan.0, plan.1, now)
          == PaintState(cache.entries, pending, ops, requests)
    {
      ops, requests := [], [];
      if audio.None? || cache == null {
        return;
      }
      var a := audio.value;
      var plan := PaintPlan(a, view);
      if plan.None? {
        return;
      }
      var level, ids := plan.value.0, plan.value.1;
      ghost var st0 := PaintState(cache.entries, pending, [], []);
      var i := 0;
      while i < |ids|
        invariant 0 <= i <= |ids|
        invariant audio == old(audio) && colormap == old(colormap) && cache == old(cache)
        invariant cache.Valid()
        invariant PaintTiles(st0, a, colormap, level, ids[..i], now) == PaintState(cache.entries, pending, ops, requests)
      {
        assert ids[..i + 1][..i] == ids[..i];
        ops, requests := PaintTile(a, level, ids[i], now, ops, requests);
        i := i + 1;
      }
      assert ids[..|ids|] == ids;
    }

    /**
     * A finished tile goes into the cache and its key stops being pending.
     * Without a cache nothing happens; if `put` raises, the key stays pending.
     */
    method OnTileReady(key: string, tile: Texture)
      requires cache != null ==> cache.Valid()
      modifies this, cache
      ensures audio == old(audio) && colormap == old(colormap) && cache == old(cache)
      ensures cache != null ==> cache.Valid()
      ensures cache == null ==> pending == old(pending)
      ensures cache != null ==>
        var put := AfterPut(old(cache.entries), cache.maxSize, key, tile);
        if put.Some? then cache.entries == put.value && pending == old(pending) - {key}
        else cache.entries == old(cache.entries) && pending == old(pending)
    {
      if cache == null {
        return;
      }
      var ok := cache.Put(key, tile);
      if ok {
        pending := pending - {key};
      }
    }
  }
}
