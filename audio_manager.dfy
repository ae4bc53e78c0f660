/**
 * The audio manager: a dictionary of processed audio keyed by
 * "<video path>_<channel mode>", the shared tile cache, and the default
 * analysis parameters sent with each processing request.  The processing
 * worker itself runs elsewhere; its requests and results appear here as
 * return values and method calls.
 */
module AudioManagerModel {
  import opened Common
  import opened AudioRecords
  import opened TextureWorker
  import opened TileCacheModel

  const TileCacheSize: int := 200

  datatype Param = IntParam(i: int) | RealParam(r: real)

  /** n_fft 2048, hop_length 1024, n_mels 128, fmin 20 Hz, fmax 8000 Hz. */
  const DefaultParams: map<string, Param> := map[
    "n_fft" := IntParam(2048),
    "hop_length" := IntParam(1024),
    "n_mels" := IntParam(128),
    "fmin" := RealParam(20.0),
    "fmax" := RealParam(8000.0)]

  /** What `extract_audio` signals. */
  datatype ExtractOutcome =
    | Failed(path: string, message: string)
    | Cached(path: string, data: AudioData)
    | ProcessingRequested(path: string, mode: string, params: map<string, Param>)

  function AudioKey(videoPath: string, channelMode: string): string
  {
    videoPath + "_" + channelMode
  }

  /** The audio entries kept by `clear_cache(path)`: None or "" clears everything. */
  function CacheAfterClear(m: map<string, AudioData>, path: Option<string>): (r: map<string, AudioData>)
  {
    if path.Some? && path.value != "" then map k | k in m && !(path.value <= k) :: m[k]
    else map[]
  }

  /**
   * Clearing by path removes every key that starts with the path, which
   * includes the keys of other videos whose path extends it, and keeps every
   * other entry unchanged.
   */
  lemma CacheAfterClearPrefix(m: map<string, AudioData>, path: string, k: string)
    requires path != ""
    ensures k in CacheAfterClear(m, Some(path)) <==> k in m && !(path <= k)
    ensures k in CacheAfterClear(m, Some(path)) ==> CacheAfterClear(m, Some(path))[k] == m[k]
    ensures forall mode :: AudioKey(path, mode) !in CacheAfterClear(m, Some(path))
    ensures forall suffix, mode :: AudioKey(path + suffix, mode) !in CacheAfterClear(m, Some(path))
  {
    forall suffix, mode ensures path <= AudioKey(path + suffix, mode) {
      assert AudioKey(path + suffix, mode) == path + (suffix + "_" + mode);
    }
  }

  /** `dict.update`: given keys take the new values, the others keep theirs. */
  lemma UpdateParamsMerges(old_: map<string, Param>, given: map<string, Param>, k: string)
    ensures k in given ==> k in old_ + given && (old_ + given)[k] == given[k]
    ensures k !in given ==> (k in old_ + given <==> k in old_)
    ensures k !in given && k in old_ ==> (old_ + given)[k] == old_[k]
  {
  }

  class AudioManager {
    var audioCache: map<string, AudioData>
    var tileCache: TileCache<Texture>
    var defaultParams: map<string, Param>
    const librosaAvailable: bool

    ghost predicate Valid()
      reads this, tileCache
    {
      tileCache.Valid()
    }

    constructor(librosaAvailable: bool)
      ensures Valid() && fresh(tileCache)
      ensures audioCache == map[] && tileCache.entries == [] && tileCache.maxSize == TileCacheSize
      ensures defaultParams == DefaultParams && this.librosaAvailable == librosaAvailable
    {
      audioCache := map[];
      tileCache := new TileCache(TileCacheSize);
      defaultParams := DefaultParams;
      this.librosaAvailable := librosaAvailable;
    }

    /**
     * Without librosa the request fails; a cached result is re-emitted without
     * reprocessing; otherwise processing is requested with the current defaults.
     */
    function ExtractAudio(videoPath: string, channelMode: string): (out: ExtractOutcome)
      reads this
      ensures !librosaAvailable ==> out.Failed? && out.path == videoPath
      ensures librosaAvailable && AudioKey(videoPath, channelMode) in audioCache ==>
        out == Cached(videoPath, audioCache[AudioKey(videoPath, channelMode)])
      ensures out.ProcessingRequested? <==> librosaAvailable && AudioKey(videoPath, channelMode) !in audioCache
      ensures out.ProcessingRequested? ==> out.params == defaultParams && out.mode == channelMode
    {
      if !librosaAvailable then Failed(videoPath, "librosa not installed")
      else
        var key := AudioKey(videoPath, channelMode);
        if key in audioCache then Cached(videoPath, audioCache[key])
        else ProcessingRequested(videoPath, channelMode, defaultParams)
    }

    method UpdateParams(params: map<string, Param>)
      modifies this
      ensures defaultParams == old(defaultParams) + params
      ensures audioCache == old(audioCache) && tileCache == old(tileCache)
    {
      defaultParams := defaultParams + params;
    }

    function GetAudioData(videoPath: string, channelMode: string): (r: Option<AudioData>)
      reads this
      ensures r.Some? <==> AudioKey(videoPath, channelMode) in audioCache
      ensures r.Some? ==> r.value == audioCache[AudioKey(videoPath, channelMode)]
    {
      var key := AudioKey(videoPath, channelMode);
      if key in audioCache then Some(audioCache[key]) else None
    }

    /** Empties the tile cache, then drops the audio entries `CacheAfterClear` does not keep. */
    method ClearCache(videoPath: Option<string>)
      requires Valid()
      modifies this, tileCache
      ensures Valid() && tileCache == old(tileCache)
      ensures tileCache.entries == []
      ensures audioCache == CacheAfterClear(old(audioCache), videoPath)
      ensures defaultParams == old(defaultParams)
    {
      tileCache.Clear();
      if videoPath.Some? && videoPath.value != "" {
        var path := videoPath.value;
        var toRemove := set k | k in audioCache && path <= k;
        ghost var original := audioCache;
        while toRemove != {}
          invariant toRemove <= original.Keys
          invariant tileCache == old(tileCache) && tileCache.entries == [] && tileCache.Valid()
          invariant defaultParams == old(defaultParams)
          invariant forall k :: k in audioCache <==> k in original && !(path <= k && k !in toRemove)
          invariant forall k :: k in audioCache ==> audioCache[k] == original[k]
          invariant forall k :: k in toRemove ==> path <= k
          decreases toRemove
        {
          var k :| k in toRemove;
          audioCache := audioCache - {k};
          toRemove := toRemove - {k};
        }
        assert audioCache.Keys == CacheAfterClear(original, videoPath).Keys;
      } else {
        audioCache := map[];
      }
    }

    /** A finished result is stored under its key, then emitted (returned). */
    method OnProcessingFinished(videoPath: string, data: AudioData) returns (emitted: (string, AudioData))
      modifies this
      ensures audioCache == old(audioCache)[AudioKey(videoPath, data.channelMode) := data]
      ensures GetAudioData(videoPath, data.channelMode) == Some(data)
      ensures emitted == (videoPath, data)
      ensures defaultParams == old(defaultParams) && tileCache == old(tileCache)
    {
      audioCache := audioCache[AudioKey(videoPath, data.channelMode) := data];
      emitted := (videoPath, data);
    }
  }
}
