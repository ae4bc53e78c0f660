/**
 * The audio track's view arithmetic: the clamped x range used when the
 * track follows the timeline, the vertical (mel band) zoom, the frequency
 * axis tick lookup, and the guard that keeps the track from echoing a
 * range it was just given.
 */
module AudioTrack {
  import opened Common

  /** The loaded audio as the track sees it: its length and the spectrogram's row count. */
  datatype AudioInfo = AudioInfo(durationMs: real, melBins: nat)

  const DefaultRange: (real, real) := (0.0, 1000.0)
  const DefaultMelBins: nat := 128
  const MinHeight: real := 10.0

  // ---------------------------------------------------------------------
  // Horizontal range
  // ---------------------------------------------------------------------

  /**
   * `set_x_range`: with no audio the view is [0, 1000]; otherwise both
   * ends are clamped into [0, duration], and an empty or inverted result
   * becomes the whole track.
   */
  function XRangeFor(audio: Option<AudioInfo>, xMin: real, xMax: real): (r: (real, real))
    ensures audio.None? ==> r == DefaultRange
    ensures audio.Some? && audio.value.durationMs >= 0.0 ==> 0.0 <= r.0 <= r.1 <= audio.value.durationMs
    ensures audio.Some? && 0.0 <= xMin < xMax <= audio.value.durationMs ==> r == (xMin, xMax)
    ensures audio.Some? && (Min(xMax, audio.value.durationMs) <= xMin || xMax <= 0.0) ==> r == (0.0, audio.value.durationMs)
  {
    if audio.None? then DefaultRange
    else
      var d := audio.value.durationMs;
      var lo := Max(0.0, Min(xMin, d));
      var hi := Max(0.0, Min(xMax, d));
      if hi <= lo then (0.0, d) else (lo, hi)
  }

  /**
   * A view range set with padding p: each end moves out by p times the
   * range's width.
   */
  function PaddedRange(lo: real, hi: real, p: real): (r: (real, real))
    requires 0.0 <= p
    ensures lo <= hi ==> r.0 <= lo && hi <= r.1
    ensures r.1 - r.0 == (hi - lo) * (1.0 + 2.0 * p)
    ensures r.0 + r.1 == lo + hi
  {
    (lo - (hi - lo) * p, hi + (hi - lo) * p)
  }

  /** `set_audio_data` pads the x range by 2%. */
  const AudioPadding: real := 0.02

  // ---------------------------------------------------------------------
  // Vertical zoom
  // ---------------------------------------------------------------------

  /** The new height: 0.8 times the old for a positive delta, else 1.25 times, then kept within [10, n_mels]. */
  function ZoomedHeight(height: real, delta: real, nMels: real): (h: real)
    ensures nMels >= MinHeight ==> MinHeight <= h <= nMels
    ensures nMels < MinHeight ==> h == MinHeight || h == nMels
  {
    var scaled := height * (if delta > 0.0 then 0.8 else 1.25);
    if scaled < MinHeight then MinHeight else if scaled > nMels then nMels else scaled
  }

  /** Where the centre sits in the old range, as a fraction of its height (one half for an empty range). */
  function CentreRatio(lo: real, hi: real, centre: real): real
  {
    if hi - lo > 0.0 then (centre - lo) / (hi - lo) else 0.5
  }

  /** Places a range of height h so that the centre keeps its ratio, then shifts it into [0, n_mels]. */
  function PlaceRange(centre: real, ratio: real, h: real, nMels: real): (r: (real, real))
    ensures r.1 - r.0 == h
    ensures 0.0 <= h <= nMels ==> 0.0 <= r.0 && r.1 <= nMels
    ensures 0.0 <= centre - h * ratio && centre - h * ratio + h <= nMels ==> r.0 == centre - h * ratio
  {
    var start := centre - h * ratio;
    var end := start + h;
    var (start1, end1) := if start < 0.0 then (0.0, h) else (start, end);
    if end1 > nMels then (nMels - h, nMels) else (start1, end1)
  }

  /**
   * `zoom_vertical`: the new range keeps the zoom centre (the given one,
   * or the middle of the current range) at the same relative height.
   */
  function VerticalZoom(lo: real, hi: real, delta: real, centre: Option<real>, nMels: nat): (r: (real, real))
    ensures nMels as real >= MinHeight ==> MinHeight <= r.1 - r.0 <= nMels as real && 0.0 <= r.0 && r.1 <= nMels as real
  {
    var c := if centre.Some? then centre.value else (lo + hi) / 2.0;
    var h := ZoomedHeight(hi - lo, delta, nMels as real);
    PlaceRange(c, CentreRatio(lo, hi, c), h, nMels as real)
  }

  /** When no clamp is needed, the centre stays at the same fraction of the range's height. */
  lemma ZoomKeepsCentre(lo: real, hi: real, delta: real, c: real, nMels: nat)
    requires lo < hi && nMels as real >= MinHeight
    requires var h := ZoomedHeight(hi - lo, delta, nMels as real);
      var s := c - h * CentreRatio(lo, hi, c);
      0.0 <= s && s + h <= nMels as real
    ensures var r := VerticalZoom(lo, hi, delta, Some(c), nMels);
      (c - r.0) / (r.1 - r.0) == (c - lo) / (hi - lo)
  {
    var h := ZoomedHeight(hi - lo, delta, nMels as real);
    var ratio := CentreRatio(lo, hi, c);
    var r := VerticalZoom(lo, hi, delta, Some(c), nMels);
    assert r.0 == c - h * ratio && r.1 - r.0 == h;
    assert c - r.0 == h * ratio;
  }

  // ---------------------------------------------------------------------
  // Frequency axis
  // ---------------------------------------------------------------------

  /** `int(np.clip(v, 0, len - 1))`: a row index always inside the frequency table. */
  function TickIndex(v: real, n: nat): (i: nat)
    requires n > 0
    ensures i < n
    ensures 0.0 <= v < n as real ==> i == Trunc(v)
    ensures v < 0.0 ==> i == 0
  {
    Trunc(Clip(v, 0.0, (n - 1) as real))
  }

  /** A tick label: a whole number, or kilohertz (shown to one decimal and a 'k'). */
  datatype TickLabel = Whole(n: int) | Kilohertz(k: real)

  /** `FrequencyAxisItem.tickStrings` for one value. */
  function TickString(freqs: seq<real>, v: real): (l: TickLabel)
    ensures freqs == [] ==> l == Whole(Trunc(v))
    ensures freqs != [] ==> var hz := freqs[TickIndex(v, |freqs|)];
      (hz >= 1000.0 ==> l == Kilohertz(hz / 1000.0)) && (hz < 1000.0 ==> l == Whole(Trunc(hz)))
  {
    if freqs == [] then Whole(Trunc(v))
    else
      var hz := freqs[TickIndex(v, |freqs|)];
      if hz >= 1000.0 then Kilohertz(hz / 1000.0) else Whole(Trunc(hz))
  }

  // ---------------------------------------------------------------------
  // The widget
  // ---------------------------------------------------------------------

  class AudioTrackWidget {
    var audio: Option<AudioInfo>
    var xRange: (real, real)
    var yRange: (real, real)
    var playhead: real
    /** True only while `set_x_range` writes the view. */
    var syncing: bool
    /** The `x_range_changed` signals sent so far, oldest first. */
    var emitted: seq<(real, real)>

    /** A new track: no audio, x over [0, 1000], y over the 128 mel bands. */
    constructor()
      ensures audio == None && xRange == DefaultRange && yRange == (0.0, DefaultMelBins as real)
      ensures !syncing && emitted == [] && playhead == 0.0
    {
      audio := None;
      xRange := DefaultRange;
      yRange := (0.0, DefaultMelBins as real);
      playhead := 0.0;
      syncing := false;
      emitted := [];
    }

    /** `_on_range_changed`: the view's new x range is announced unless it came from `set_x_range`. */
    method OnRangeChanged()
      modifies this
      ensures emitted == if old(syncing) then old(emitted) else old(emitted) + [xRange]
      ensures xRange == old(xRange) && yRange == old(yRange) && syncing == old(syncing) && audio == old(audio)
      ensures playhead == old(playhead)
    {
      if !syncing {
        emitted := emitted + [xRange];
      }
    }

    /** `set_x_range`: writes the clamped range with the guard raised, so no signal goes out. */
    method SetXRange(xMin: real, xMax: real)
      modifies this
      ensures xRange == XRangeFor(audio, xMin, xMax)
      ensures !syncing && emitted == old(emitted)
      ensures yRange == old(yRange) && audio == old(audio) && playhead == old(playhead)
    {
      var r := XRangeFor(audio, xMin, xMax);
      syncing := true;
      xRange := r;
      OnRangeChanged();
      syncing := false;
    }

    /**
     * `set_audio_data`: the track takes the audio; with audio the y range
     * becomes all its mel bands and the x range the whole track, padded by
     * 2%, which the view then announces.  Without audio the view stays.
     */
    method SetAudioData(a: Option<AudioInfo>)
      modifies this
      ensures audio == a && syncing == old(syncing) && playhead == old(playhead)
      ensures a.None? ==> xRange == old(xRange) && yRange == old(yRange) && emitted == old(emitted)
      ensures a.Some? ==>
        yRange == (0.0, a.value.melBins as real) &&
        xRange == PaddedRange(0.0, a.value.durationMs, AudioPadding) &&
        emitted == (if old(syncing) then old(emitted) else old(emitted) + [xRange])
    {
      audio := a;
      if a.Some? {
        yRange := (0.0, a.value.melBins as real);
        xRange := PaddedRange(0.0, a.value.durationMs, AudioPadding);
        OnRangeChanged();
      }
    }

    /** `reset_y_range`: all the spectrogram's mel bands, or 128 with no audio. */
    method ResetYRange()
      modifies this
      ensures yRange == (0.0, if audio.Some? then audio.value.melBins as real else DefaultMelBins as real)
      ensures xRange == old(xRange) && audio == old(audio) && syncing == old(syncing) && emitted == old(emitted)
      ensures playhead == old(playhead)
    {
      yRange := (0.0, if audio.Some? then audio.value.melBins as real else DefaultMelBins as real);
    }

    /** `zoom_vertical`: n_mels is the spectrogram's row count, or 128 with no audio. */
    method ZoomVertical(delta: real, centre: Option<real>)
      modifies this
      ensures yRange == VerticalZoom(old(yRange).0, old(yRange).1, delta, centre,
                                     if audio.Some? then audio.value.melBins else DefaultMelBins)
      ensures xRange == old(xRange) && audio == old(audio) && syncing == old(syncing) && emitted == old(emitted)
      ensures playhead == old(playhead)
    {
      var nMels := if audio.Some? then audio.value.melBins else DefaultMelBins;
      yRange := VerticalZoom(yRange.0, yRange.1, delta, centre, nMels);
    }

    method SetPlaybackHeadTime(t: real)
      modifies this
      ensures playhead == t
      ensures xRange == old(xRange) && yRange == old(yRange) && audio == old(audio)
      ensures syncing == old(syncing) && emitted == old(emitted)
    {
      playhead := t;
    }
  }
}
