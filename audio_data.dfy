/**
 * The processed-audio record handed from the audio pipeline to the
 * spectrogram track: a mel spectrogram in dB (rows are mel bins, columns are
 * analysis frames) with the time of each frame in milliseconds.
 */
module AudioRecords {

  datatype AudioData = AudioData(
    videoPath: string,
    sampleRate: int,
    durationMs: real,
    channelMode: string,
    spectrogram: seq<seq<real>>,
    timesMs: seq<real>,
    frequencies: seq<real>,
    nFft: int,
    hopLength: int,
    nMels: int,
    fmin: real,
    fmax: real)

  /** A 2-D array: every row has the same number of columns. */
  predicate Rectangular(m: seq<seq<real>>)
  {
    forall r :: 0 <= r < |m| ==> |m[r]| == |m[0]|
  }

  /** Columns of the spectrogram (0 when it has no rows). */
  function Columns(m: seq<seq<real>>): nat
  {
    if m == [] then 0 else |m[0]|
  }
}
