/**
 * The container that keeps the lighting timeline and the audio track in
 * step: each view's x range follows the other's, with the timeline never
 * zoomed out further than it already is, a flag that stops the two from
 * echoing each other, and the splitter that shares the height.
 */
module TimelineGroup {
  import opened Common
  import opened AudioTrack

  /**
   * The timeline's new range when the audio track moved to [xMin, xMax]:
   * the audio range itself, unless it is wider than the timeline's
   * current width, in which case a range of the timeline's width centred
   * on the audio range.
   */
  function SyncedRange(xMin: real, xMax: real, lightWidth: real): (r: (real, real))
    ensures r.1 - r.0 == Min(xMax - xMin, lightWidth)
    ensures r.0 + r.1 == xMin + xMax
    ensures xMax - xMin <= lightWidth ==> r == (xMin, xMax)
  {
    if xMax - xMin > lightWidth then
      var centre := (xMin + xMax) / 2.0;
      (centre - lightWidth / 2.0, centre + lightWidth / 2.0)
    else (xMin, xMax)
  }

  function Total(sizes: seq<int>): int
  {
    if sizes == [] then 0 else Total(sizes[..|sizes| - 1]) + sizes[|sizes| - 1]
  }

  /** `int(total * height / 5)`: the audio track's share of the splitter. */
  function AudioShare(total: int, height: real): int
  {
    Trunc(total as real * height / 5.0)
  }

  /** For a ratio within [0, 5] the audio share lies between 0 and the total. */
  lemma AudioShareBounds(total: nat, height: real)
    requires 0.0 <= height <= 5.0
    ensures 0 <= AudioShare(total, height) <= total
  {
    assert total as real * height <= total as real * 5.0;
  }

  lemma TotalPair(a: int, b: int)
    ensures Total([a, b]) == a + b
  {
    assert [a, b][..1] == [a];
    assert Total([a, b]) == Total([a]) + b;
    assert [a][..0] == [];
    assert Total([a]) == Total([]) + a;
  }

  lemma {:induction false} TotalNonNegative(sizes: seq<int>)
    requires forall i :: 0 <= i < |sizes| ==> sizes[i] >= 0
    ensures Total(sizes) >= 0
  {
    if sizes != [] {
      TotalNonNegative(sizes[..|sizes| - 1]);
    }
  }

  class TimelineGroupWidget {
    var timelineRange: (real, real)
    var timelinePlayhead: real
    const audioTrack: AudioTrackWidget
    var audioVisible: bool
    /** True only while one view is being moved to follow the other. */
    var syncingAudio: bool
    var sizes: seq<int>

    /** The splitter starts at 400 for the timeline and 80 for the audio track, the track shown. */
    constructor(track: AudioTrackWidget, range: (real, real))
      ensures audioTrack == track && audioVisible && !syncingAudio && sizes == [400, 80]
      ensures timelineRange == range && timelinePlayhead == 0.0
    {
      audioTrack := track;
      timelineRange := range;
      timelinePlayhead := 0.0;
      audioVisible := true;
      syncingAudio := false;
      sizes := [400, 80];
    }

    /**
     * `_sync_audio_to_timeline`: unless a sync is under way or the track
     * is hidden, the track takes the timeline's range (clamped to its
     * audio) without announcing it back.
     */
    method SyncAudioToTimeline()
      modifies this, audioTrack
      ensures syncingAudio == old(syncingAudio) && timelineRange == old(timelineRange)
      ensures old(syncingAudio) || !audioVisible ==>
        audioTrack.xRange == old(audioTrack.xRange) && audioTrack.syncing == old(audioTrack.syncing)
      ensures !old(syncingAudio) && audioVisible ==>
        audioTrack.xRange == XRangeFor(audioTrack.audio, timelineRange.0, timelineRange.1) && !audioTrack.syncing
      ensures audioTrack.emitted == old(audioTrack.emitted) && audioTrack.yRange == old(audioTrack.yRange)
      ensures audioTrack.audio == old(audioTrack.audio) && audioVisible == old(audioVisible)
      ensures sizes == old(sizes) && timelinePlayhead == old(timelinePlayhead)
    {
      if syncingAudio || !audioVisible {
        return;
      }
      syncingAudio := true;
      audioTrack.SetXRange(timelineRange.0, timelineRange.1);
      syncingAudio := false;
    }

    /**
     * `_sync_timeline_to_audio`: unless a sync is under way, the timeline
     * takes the audio range, narrowed to its own width; the timeline's
     * range change comes back to `SyncAudioToTimeline`, which the flag
     * turns away, so the track keeps its range.
     */
    method SyncTimelineToAudio(xMin: real, xMax: real)
      modifies this, audioTrack
      ensures !syncingAudio <==> !old(syncingAudio)
      ensures old(syncingAudio) ==> timelineRange == old(timelineRange)
      ensures !old(syncingAudio) ==>
        timelineRange == SyncedRange(xMin, xMax, old(timelineRange).1 - old(timelineRange).0)
      ensures audioTrack.xRange == old(audioTrack.xRange) && audioTrack.emitted == old(audioTrack.emitted)
      ensures audioTrack.yRange == old(audioTrack.yRange) && audioTrack.syncing == old(audioTrack.syncing)
      ensures audioTrack.audio == old(audioTrack.audio) && audioVisible == old(audioVisible)
      ensures sizes == old(sizes) && timelinePlayhead == old(timelinePlayhead)
    {
      if syncingAudio {
        return;
      }
      syncingAudio := true;
      var lightWidth := timelineRange.1 - timelineRange.0;
      timelineRange := SyncedRange(xMin, xMax, lightWidth);
      SyncAudioToTimeline();
      syncingAudio := false;
    }

    /** `_on_audio_vertical_zoom`: passed to the track only while it is shown. */
    method OnAudioVerticalZoom(delta: real)
      modifies audioTrack
      ensures audioVisible ==>
        audioTrack.yRange == VerticalZoom(old(audioTrack.yRange).0, old(audioTrack.yRange).1, delta, None,
                                          if audioTrack.audio.Some? then audioTrack.audio.value.melBins else DefaultMelBins)
      ensures !audioVisible ==> audioTrack.yRange == old(audioTrack.yRange)
      ensures audioTrack.xRange == old(audioTrack.xRange) && audioTrack.emitted == old(audioTrack.emitted)
      ensures audioTrack.audio == old(audioTrack.audio) && audioTrack.syncing == old(audioTrack.syncing)
    {
      if audioVisible {
        audioTrack.ZoomVertical(delta, None);
      }
    }

    /** `set_audio_height`: the splitter's total is split into the timeline's part and int(total · height / 5). */
    method SetAudioHeight(height: real)
      modifies this
      ensures |sizes| == 2 && sizes[1] == AudioShare(Total(old(sizes)), height)
      ensures sizes[0] == Total(old(sizes)) - sizes[1] && Total(sizes) == Total(old(sizes))
      ensures 0.0 <= height <= 5.0 && (forall i :: 0 <= i < |old(sizes)| ==> old(sizes)[i] >= 0) ==>
        sizes[0] >= 0 && sizes[1] >= 0
      ensures timelineRange == old(timelineRange) && syncingAudio == old(syncingAudio)
      ensures audioVisible == old(audioVisible) && timelinePlayhead == old(timelinePlayhead)
    {
      var total := Total(sizes);
      if 0.0 <= height <= 5.0 && forall i :: 0 <= i < |sizes| ==> sizes[i] >= 0 {
        TotalNonNegative(sizes);
        AudioShareBounds(total, height);
      }
      var audioH := AudioShare(total, height);
      sizes := [total - audioH, audioH];
      TotalPair(total - audioH, audioH);
    }

    /** `set_playback_head_time`: both playheads move to the same time. */
    method SetPlaybackHeadTime(t: real)
      modifies this, audioTrack
      ensures timelinePlayhead == t && audioTrack.playhead == t
      ensures timelineRange == old(timelineRange) && audioTrack.xRange == old(audioTrack.xRange)
      ensures syncingAudio == old(syncingAudio) && sizes == old(sizes) && audioVisible == old(audioVisible)
    {
      timelinePlayhead := t;
      audioTrack.SetPlaybackHeadTime(t);
    }
  }
}
