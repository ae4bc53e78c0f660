/**
 * The background tile renderer: it turns a tile request into the
 * normalised block of the spectrogram that the colormap is applied to.
 * Requests older than five seconds are dropped, the zoom level is read back
 * from the end of the cache key, the time axis is binary-searched, and every
 * first, 16th or 128th column is kept.
 */
module TextureWorker {
  import opened Common
  import opened AudioRecords

  const LevelsDownsample: seq<int> := [1, 16, 128]

  /** Seconds after which a request is considered stale. */
  const MaxRequestAge: real := 5.0

  /**
   * A rendered tile.  The colormap named here is applied to `levels` (values
   * in [0, 1]) to give the RGB image of `width` x `height` pixels.
   */
  datatype Texture = Texture(colormap: string, width: nat, height: nat, levels: seq<seq<real>>)

  // ---------------------------------------------------------------------
  // Level from the cache key
  // ---------------------------------------------------------------------

  predicate NoUnderscore(s: string) { forall i :: 0 <= i < |s| ==> s[i] != '_' }

  /** `s.split('_')[-1]`: the text after the last underscore, or all of s. */
  function LastField(s: string): (f: string)
    ensures NoUnderscore(f)
    ensures |f| <= |s| && f == s[|s| - |f|..]
  {
    if s == [] then []
    else if s[|s| - 1] == '_' then []
    else
      var f := LastField(s[..|s| - 1]);
      assert s[..|s| - 1][|s| - 1 - |f|..] + [s[|s| - 1]] == s[|s| - |f| - 1..];
      f + [s[|s| - 1]]
  }

  lemma {:induction false} LastFieldAfterUnderscore(p: string, d: string)
    requires NoUnderscore(d)
    ensures LastField(p + "_" + d) == d
    decreases |d|
  {
    var s := p + "_" + d;
    if d == [] {
      assert s[|s| - 1] == '_';
    } else {
      var d' := d[..|d| - 1];
      assert s[..|s| - 1] == p + "_" + d';
      LastFieldAfterUnderscore(p, d');
      assert d == d' + [d[|d| - 1]];
    }
  }

  lemma DecimalHasNoUnderscore(i: int)
    ensures NoUnderscore(IntToString(i))
  {
    var n := if i < 0 then -i else i;
    assert AllDigits(NatToString(n));
  }

  /** `int(cache_key.split('_')[-1])`; None where Python raises ValueError. */
  function ParseLevel(key: string): Option<int>
  {
    ParseInt(LastField(key))
  }

  /** A key that ends in `_<level>` gives that level back, whatever comes before. */
  lemma ParseLevelRoundTrip(prefix: string, level: int)
    ensures ParseLevel(prefix + "_" + IntToString(level)) == Some(level)
  {
    DecimalHasNoUnderscore(level);
    LastFieldAfterUnderscore(prefix, IntToString(level));
    IntStringRoundTrip(level);
  }

  /**
   * `LEVELS_DOWNSAMPLE[level] if level < 3 else 1`.  Python indexes negative
   * levels from the end; below -3 the lookup raises IndexError (None).
   */
  function DownsampleFactor(level: int): (ds: Option<nat>)
    ensures ds.Some? <==> level >= -3
    ensures ds.Some? ==> ds.value >= 1
  {
    if level >= |LevelsDownsample| then Some(1)
    else if level >= 0 then Some(LevelsDownsample[level])
    else if level >= -|LevelsDownsample| then Some(LevelsDownsample[|LevelsDownsample| + level])
    else None
  }

  lemma DownsampleFactorValues()
    ensures DownsampleFactor(0) == Some(1)
    ensures DownsampleFactor(1) == Some(16)
    ensures DownsampleFactor(2) == Some(128)
    ensures forall level :: level >= 3 ==> DownsampleFactor(level) == Some(1)
    ensures DownsampleFactor(-1) == Some(128) && DownsampleFactor(-3) == Some(1)
  {
  }

  // ---------------------------------------------------------------------
  // Slicing and normalisation
  // ---------------------------------------------------------------------

  /** The number of steps of size d that start below n: the ceiling of n / d. */
  function CeilDiv(n: nat, d: nat): (q: nat)
    requires d >= 1
    decreases n
  {
    if n == 0 then 0 else if n <= d then 1 else 1 + CeilDiv(n - d, d)
  }

  lemma {:induction false} CeilDivIsCeiling(n: nat, d: nat)
    requires d >= 1
    ensures CeilDiv(n, d) * d >= n
    ensures n > 0 ==> (CeilDiv(n, d) - 1) * d < n
    decreases n
  {
    if n > d {
      CeilDivIsCeiling(n - d, d);
      var c := CeilDiv(n - d, d);
      assert (1 + c) * d == d + c * d;
      assert (1 + c - 1) * d == c * d;
    }
  }

  function MinNat(a: nat, b: nat): (m: nat)
    ensures m <= a && m <= b && (m == a || m == b)
  {
    if a <= b then a else b
  }

  /**
   * `row[s:e:ds]`: the entries at s, s + ds, s + 2ds, ... below e, with e
   * clipped to the row length as numpy does.
   */
  function StepSlice(row: seq<real>, s: nat, e: nat, ds: nat): (r: seq<real>)
    requires ds >= 1
    ensures |r| == if s >= MinNat(e, |row|) then 0 else CeilDiv(MinNat(e, |row|) - s, ds)
    ensures forall j :: 0 <= j < |r| ==> s + j * ds < MinNat(e, |row|) && r[j] == row[s + j * ds]
    decreases |row| - s
  {
    if s >= e || s >= |row| then []
    else
      var rest := StepSlice(row, s + ds, e, ds);
      var r := [row[s]] + rest;
      forall j | 1 <= j < |r| ensures s + j * ds < MinNat(e, |row|) && r[j] == row[s + j * ds] {
        assert (j - 1) * ds == j * ds - ds;
      }
      r
  }

  /** `np.clip((db + 80) / 80, 0, 1)`: -80 dB and below is 0, 0 dB and above is 1. */
  function Normalise(db: real): (v: real)
    ensures 0.0 <= v <= 1.0
    ensures db <= -80.0 ==> v == 0.0
    ensures db >= 0.0 ==> v == 1.0
    ensures -80.0 <= db <= 0.0 ==> v == (db + 80.0) / 80.0
  {
    Clip((db + 80.0) / 80.0, 0.0, 1.0)
  }

  function NormaliseRow(row: seq<real>): (r: seq<real>)
    ensures |r| == |row|
    ensures forall j :: 0 <= j < |r| ==> r[j] == Normalise(row[j])
  {
    seq(|row|, j requires 0 <= j < |row| => Normalise(row[j]))
  }

  // ---------------------------------------------------------------------
  // render_tile
  // ---------------------------------------------------------------------

  /**
   * The texture emitted for a request, or None when nothing is emitted: a
   * stale request, a key whose last field is not an integer, a level below
   * -3, an empty time window or an empty slice.  `now` is the clock reading
   * when the worker picks the request up.
   */
  function RenderTile(audio: AudioData, key: string, startMs: real, endMs: real,
                      colormap: string, requestTime: real, now: real): (r: Option<Texture>)
    requires Rectangular(audio.spectrogram)
    ensures now - requestTime > MaxRequestAge ==> r.None?
    ensures r.Some? ==> ParseLevel(key).Some? && DownsampleFactor(ParseLevel(key).value).Some?
    ensures r.Some? ==> SearchLeft(audio.timesMs, startMs) < SearchRight(audio.timesMs, endMs)
    ensures r.Some? ==> r.value.colormap == colormap && r.value.width >= 1
    ensures r.Some? ==> r.value.height == |r.value.levels| == |audio.spectrogram|
    ensures r.Some? ==> forall i, j :: 0 <= i < |r.value.levels| && 0 <= j < |r.value.levels[i]| ==>
      0.0 <= r.value.levels[i][j] <= 1.0
  {
    if now - requestTime > MaxRequestAge then None
    else match ParseLevel(key)
      case None => None
      case Some(level) =>
        match DownsampleFactor(level)
        case None => None
        case Some(ds) =>
          var spec := audio.spectrogram;
          var s := SearchLeft(audio.timesMs, startMs);
          var e := SearchRight(audio.timesMs, endMs);
          if e <= s then None
          else
            var tile := seq(|spec|, i requires 0 <= i < |spec| => StepSlice(spec[i], s, e, ds));
            if |tile| == 0 || |tile[0]| == 0 then None
            else
              var levels := seq(|tile|, i requires 0 <= i < |tile| => NormaliseRow(tile[i]));
              Some(Texture(colormap, |tile[0]|, |tile|, levels))
  }

  /**
   * A fresh request for a key ending in a level 0..2, on a spectrogram with
   * rows and at least as many columns as time stamps, renders exactly the
   * columns s, s + ds, ... below e: width ceil((e - s) / ds) for the level's
   * factor, one row per mel bin, each value the clipped dB level.
   */
  lemma RenderTileShape(audio: AudioData, prefix: string, level: int, startMs: real, endMs: real,
                        colormap: string, requestTime: real, now: real)
    requires Rectangular(audio.spectrogram) && |audio.spectrogram| > 0
    requires Columns(audio.spectrogram) >= |audio.timesMs|
    requires 0 <= level < 3 && now - requestTime <= MaxRequestAge
    requires SearchLeft(audio.timesMs, startMs) < SearchRight(audio.timesMs, endMs)
    ensures var s, e := SearchLeft(audio.timesMs, startMs), SearchRight(audio.timesMs, endMs);
      var r := RenderTile(audio, prefix + "_" + IntToString(level), startMs, endMs, colormap, requestTime, now);
      r.Some? && r.value.width == CeilDiv(e - s, LevelsDownsample[level]) &&
      r.value.height == |audio.spectrogram| &&
      forall i :: 0 <= i < r.value.height ==>
        r.value.levels[i] == NormaliseRow(StepSlice(audio.spectrogram[i], s, e, LevelsDownsample[level]))
  {
    ParseLevelRoundTrip(prefix, level);
    var spec := audio.spectrogram;
    var s, e := SearchLeft(audio.timesMs, startMs), SearchRight(audio.timesMs, endMs);
    var ds := LevelsDownsample[level];
    assert |spec[0]| >= e;
    forall i | 0 <= i < |spec| ensures |StepSlice(spec[i], s, e, ds)| == CeilDiv(e - s, ds) {
      assert |spec[i]| == |spec[0]|;
    }
    assert CeilDiv(e - s, ds) >= 1;
  }
}
