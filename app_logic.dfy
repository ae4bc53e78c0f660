/**
 * The application controller: the 22-byte serial frame for the light
 * controller, the colour handed to a keyboard, the guarded copy / cut /
 * delete entry points and a fresh edit timeline.
 */
module AppLogic {
  import opened Common
  import opened Keyframes
  import opened DataStore
  import opened ClipboardModel
  import opened History

  const StartOfFrame: byte := 0xC0
  const EndOfFrame: byte := 0xC1
  const PacketLength: nat := 22

  // ---------------------------------------------------------------------
  // The serial packet
  // ---------------------------------------------------------------------

  /**
   * `(hi << 4) | lo` appended to a bytearray: the byte, or None where
   * `append` raises ValueError.  A negative operand makes the OR negative.
   */
  function PackedByte(hi: int, lo: int): (r: Option<byte>)
  {
    if hi < 0 || lo < 0 then None
    else
      var v := BitOr(16 * hi, lo);
      if v < 256 then Some(v as byte) else None
  }

  /** The packed byte exists exactly when hi is a nibble and lo a byte. */
  lemma PackedByteRange(hi: int, lo: int)
    ensures PackedByte(hi, lo).Some? <==> 0 <= hi < 16 && 0 <= lo < 256
  {
    if hi >= 0 && lo >= 0 {
      BitOrBelow(16 * hi, lo, 8);
      assert Pow2(8) == 256;
    }
  }

  /** Two nibbles pack to 16·hi + lo, and splitting the byte gives them back. */
  lemma PackedNibbles(hi: int, lo: int)
    requires 0 <= hi < 16 && 0 <= lo < 16
    ensures PackedByte(hi, lo) == Some((16 * hi + lo) as byte)
    ensures (16 * hi + lo) / 16 == hi && (16 * hi + lo) % 16 == lo
  {
    assert Pow2(4) == 16;
    BitOrShifted(hi, lo, 4);
  }

  /** The bytes for the channels, two per channel, or None once one would not fit. */
  function PacketBody(cs: seq<Channel>): (r: Option<seq<byte>>)
    ensures r.Some? ==> |r.value| == 2 * |cs|
  {
    if cs == [] then Some([])
    else
      var c := cs[|cs| - 1];
      var front := PacketBody(cs[..|cs| - 1]);
      var hi := PackedByte(c.fn, c.red);
      var lo := PackedByte(c.green, c.blue);
      if front.None? || hi.None? || lo.None? then None else Some(front.value + [hi.value, lo.value])
  }

  /** `build_serial_packet`: 0xC0, the channel bytes, 0xC1. */
  function SerialPacket(k: Keyframe): Option<seq<byte>>
  {
    var body := PacketBody(k.channels);
    if body.None? then None else Some([StartOfFrame] + body.value + [EndOfFrame])
  }

  lemma {:induction false} BodyFailsOnward(cs: seq<Channel>, i: nat)
    requires i <= |cs| && PacketBody(cs[..i]).None?
    ensures PacketBody(cs).None?
    decreases |cs| - i
  {
    if i < |cs| {
      assert cs[..i + 1][..i] == cs[..i];
      BodyFailsOnward(cs, i + 1);
    } else {
      assert cs[..i] == cs;
    }
  }

  /** Builds the packet byte by byte, stopping where `append` would raise. */
  method BuildSerialPacket(k: Keyframe) returns (r: Option<seq<byte>>)
    requires WellFormed(k)
    ensures r == SerialPacket(k)
  {
    var packet: seq<byte> := [StartOfFrame];
    for i := 0 to NumChannels
      invariant PacketBody(k.channels[..i]).Some?
      invariant packet == [StartOfFrame] + PacketBody(k.channels[..i]).value
    {
      var c := k.channels[i];
      assert k.channels[..i + 1][..i] == k.channels[..i];
      var high := PackedByte(c.fn, c.red);
      if high.None? {
        BodyFailsOnward(k.channels, i + 1);
        return None;
      }
      packet := packet + [high.value];
      var low := PackedByte(c.green, c.blue);
      if low.None? {
        BodyFailsOnward(k.channels, i + 1);
        return None;
      }
      packet := packet + [low.value];
    }
    assert k.channels[..NumChannels] == k.channels;
    r := Some(packet + [EndOfFrame]);
  }

  /** Every channel value is a nibble. */
  predicate Nibbles(cs: seq<Channel>)
  {
    forall i :: 0 <= i < |cs| ==>
      0 <= cs[i].fn < 16 && 0 <= cs[i].red < 16 && 0 <= cs[i].green < 16 && 0 <= cs[i].blue < 16
  }

  /** With nibble values the body exists, and bytes 2i and 2i+1 split back into the channel's four values. */
  lemma {:induction false} BodyDecodes(cs: seq<Channel>)
    requires Nibbles(cs)
    ensures PacketBody(cs).Some?
    ensures forall i :: 0 <= i < |cs| ==>
      PacketBody(cs).value[2 * i] as int / 16 == cs[i].fn && PacketBody(cs).value[2 * i] as int % 16 == cs[i].red &&
      PacketBody(cs).value[2 * i + 1] as int / 16 == cs[i].green && PacketBody(cs).value[2 * i + 1] as int % 16 == cs[i].blue
  {
    if cs != [] {
      var n := |cs| - 1;
      var front := cs[..n];
      assert Nibbles(front) by {
        forall i | 0 <= i < |front| ensures 0 <= front[i].fn < 16 && 0 <= front[i].red < 16 &&
                                            0 <= front[i].green < 16 && 0 <= front[i].blue < 16 {
          assert front[i] == cs[i];
        }
      }
      BodyDecodes(front);
      var c := cs[n];
      PackedNibbles(c.fn, c.red);
      PackedNibbles(c.green, c.blue);
      var body := PacketBody(cs).value;
      assert body == PacketBody(front).value + [(16 * c.fn + c.red) as byte, (16 * c.green + c.blue) as byte];
      forall i | 0 <= i < |cs|
        ensures body[2 * i] as int / 16 == cs[i].fn && body[2 * i] as int % 16 == cs[i].red &&
                body[2 * i + 1] as int / 16 == cs[i].green && body[2 * i + 1] as int % 16 == cs[i].blue
      {
        if i < n {
          assert cs[i] == front[i];
          assert body[2 * i] == PacketBody(front).value[2 * i];
          assert body[2 * i + 1] == PacketBody(front).value[2 * i + 1];
        }
      }
    }
  }

  /**
   * A frame of nibbles packs to 22 bytes framed by 0xC0 and 0xC1, and
   * byte 1+2i holds (function, red), byte 2+2i (green, blue) of channel i.
   */
  lemma PacketRoundTrip(k: Keyframe)
    requires WellFormed(k) && Nibbles(k.channels)
    ensures SerialPacket(k).Some?
    ensures var p := SerialPacket(k).value;
      |p| == PacketLength && p[0] == 0xC0 && p[PacketLength - 1] == 0xC1 &&
      forall i :: 0 <= i < NumChannels ==>
        p[1 + 2 * i] as int / 16 == k.channels[i].fn && p[1 + 2 * i] as int % 16 == k.channels[i].red &&
        p[2 + 2 * i] as int / 16 == k.channels[i].green && p[2 + 2 * i] as int % 16 == k.channels[i].blue
  {
    BodyDecodes(k.channels);
    var body := PacketBody(k.channels).value;
    var p := SerialPacket(k).value;
    forall i | 0 <= i < NumChannels ensures p[1 + 2 * i] == body[2 * i] && p[2 + 2 * i] == body[2 * i + 1] {
    }
  }

  /** Some packed byte does not fit in a byte: a function or green value outside 0..15, red or blue outside 0..255. */
  predicate Overflows(c: Channel)
  {
    !(0 <= c.fn < 16 && 0 <= c.red < 256 && 0 <= c.green < 16 && 0 <= c.blue < 256)
  }

  /** `build_serial_packet` raises ValueError exactly when some channel overflows a byte. */
  lemma {:induction false} PacketRaises(cs: seq<Channel>)
    ensures PacketBody(cs).None? <==> exists i :: 0 <= i < |cs| && Overflows(cs[i])
  {
    if cs != [] {
      var n := |cs| - 1;
      PacketRaises(cs[..n]);
      PackedByteRange(cs[n].fn, cs[n].red);
      PackedByteRange(cs[n].green, cs[n].blue);
      if exists i :: 0 <= i < n && Overflows(cs[..n][i]) {
        var i :| 0 <= i < n && Overflows(cs[..n][i]);
        assert Overflows(cs[i]);
      }
      if exists i :: 0 <= i < |cs| && Overflows(cs[i]) {
        var i :| 0 <= i < |cs| && Overflows(cs[i]);
        if i < n { assert cs[..n][i] == cs[i]; }
      }
    }
  }

  // ---------------------------------------------------------------------
  // Colour for a keyboard
  // ---------------------------------------------------------------------

  /** Sum of one component over the channels. */
  function ComponentSum(cs: seq<Channel>, part: Component): int
  {
    if cs == [] then 0 else ComponentSum(cs[..|cs| - 1], part) + Value(cs[|cs| - 1], part)
  }

  /** `int(total / 10 * 255 / 15)`: the mean of ten 4-bit values scaled to 8 bits, truncated. */
  function AverageScaled(total: int): int
  {
    Trunc(total as real / 10.0 * 255.0 / 15.0)
  }

  /** `get_average_rgb_from_frame`: the per-component sums over the ten channels, scaled. */
  method AverageRgb(k: Keyframe) returns (r: int, g: int, b: int)
    requires WellFormed(k)
    ensures r == AverageScaled(ComponentSum(k.channels, Red))
    ensures g == AverageScaled(ComponentSum(k.channels, Green))
    ensures b == AverageScaled(ComponentSum(k.channels, Blue))
  {
    var rSum, gSum, bSum := 0, 0, 0;
    for i := 0 to NumChannels
      invariant rSum == ComponentSum(k.channels[..i], Red)
      invariant gSum == ComponentSum(k.channels[..i], Green)
      invariant bSum == ComponentSum(k.channels[..i], Blue)
    {
      assert k.channels[..i + 1][..i] == k.channels[..i];
      rSum := rSum + k.channels[i].red;
      gSum := gSum + k.channels[i].green;
      bSum := bSum + k.channels[i].blue;
    }
    assert k.channels[..NumChannels] == k.channels;
    r, g, b := AverageScaled(rSum), AverageScaled(gSum), AverageScaled(bSum);
  }

  /** Ten components in 0..15 sum to 0..150. */
  lemma {:induction false} SumBounds(cs: seq<Channel>, part: Component)
    requires forall i :: 0 <= i < |cs| ==> 0 <= Value(cs[i], part) < 16
    ensures 0 <= ComponentSum(cs, part) <= 15 * |cs|
  {
    if cs != [] {
      SumBounds(cs[..|cs| - 1], part);
    }
  }

  /** With every component in 0..15 the scaled average is a byte value. */
  lemma AverageInByte(cs: seq<Channel>, part: Component)
    requires |cs| == NumChannels
    requires forall i :: 0 <= i < |cs| ==> 0 <= Value(cs[i], part) < 16
    ensures 0 <= AverageScaled(ComponentSum(cs, part)) <= 255
  {
    SumBounds(cs, part);
  }

  /** `int(v * 255 / 15)`: exactly 17·v, so 0..15 goes to 0, 17, ..., 255. */
  function NibbleScaled(v: int): (r: int)
    ensures r == 17 * v
  {
    var q := v as real * 255.0 / 15.0;
    assert q == (17 * v) as real;
    Trunc(q)
  }

  /** Ten equal components average to the single-channel scaling of that value. */
  lemma {:induction false} UniformSum(cs: seq<Channel>, part: Component, v: int)
    requires forall i :: 0 <= i < |cs| ==> Value(cs[i], part) == v
    ensures ComponentSum(cs, part) == |cs| * v
  {
    if cs != [] {
      UniformSum(cs[..|cs| - 1], part, v);
    }
  }

  lemma UniformAverage(cs: seq<Channel>, part: Component, v: int)
    requires |cs| == NumChannels
    requires forall i :: 0 <= i < |cs| ==> Value(cs[i], part) == v
    ensures AverageScaled(ComponentSum(cs, part)) == NibbleScaled(v)
  {
    UniformSum(cs, part, v);
    assert (10 * v) as real / 10.0 * 255.0 / 15.0 == (17 * v) as real;
  }

  /**
   * `get_rgb_from_frame_for_keyboard`: channel -1 gives the average,
   * channel 0..9 its own values scaled; any other channel has no column
   * (KeyError, None here).
   */
  function KeyboardRgb(k: Keyframe, channel: int): (r: Option<Rgb>)
    requires WellFormed(k)
    ensures r.Some? <==> channel == -1 || 0 <= channel < NumChannels
    ensures 0 <= channel < NumChannels ==>
      r == Some(Rgb(17 * k.channels[channel].red, 17 * k.channels[channel].green, 17 * k.channels[channel].blue))
  {
    if channel == -1 then
      Some(Rgb(AverageScaled(ComponentSum(k.channels, Red)),
               AverageScaled(ComponentSum(k.channels, Green)),
               AverageScaled(ComponentSum(k.channels, Blue))))
    else if 0 <= channel < NumChannels then
      var c := k.channels[channel];
      Some(Rgb(NibbleScaled(c.red), NibbleScaled(c.green), NibbleScaled(c.blue)))
    else None
  }

  /** With 4-bit colours every keyboard component is a byte value. */
  lemma KeyboardRgbInByte(k: Keyframe, channel: int)
    requires WellFormed(k) && Nibbles(k.channels)
    requires channel == -1 || 0 <= channel < NumChannels
    ensures var c := KeyboardRgb(k, channel).value;
      0 <= c.r <= 255 && 0 <= c.g <= 255 && 0 <= c.b <= 255
  {
    if channel == -1 {
      AverageInByte(k.channels, Red);
      AverageInByte(k.channels, Green);
      AverageInByte(k.channels, Blue);
    }
  }

  // ---------------------------------------------------------------------
  // Copy from the edit timeline
  // ---------------------------------------------------------------------

  /**
   * `copy_selection` from the edit timeline as written: the clipboard is
   * set to the rows first, then a copy command runs and saves the
   * clipboard it finds, which already holds those rows.
   */
  function EditCopyAsWritten(st: Store, s: real, e: real): Outcome
  {
    Executed(st.(clip := Within(st.frames, s, e), source := Some(EditSource)), CopyCommand(s, e, None))
  }

  /** As written, undoing an edit copy leaves the copied rows on the clipboard, whatever it held before. */
  lemma EditCopyUndoKeepsCopy(st: Store, s: real, e: real)
    requires Within(st.frames, s, e) != []
    ensures EditCopyAsWritten(st, s, e).Done?
    ensures var out := EditCopyAsWritten(st, s, e);
      Undone(out.store, out.cmd).clip == Within(st.frames, s, e)
  {
  }

  /** The corrected edit copy: the copy command alone sets the clipboard, so it saves what was there. */
  function EditCopy(st: Store, s: real, e: real): Outcome
  {
    Executed(st, CopyCommand(s, e, None))
  }

  /** With the correction, undoing an edit copy gives the clipboard its earlier frames back. */
  lemma EditCopyUndoRestores(st: Store, s: real, e: real)
    ensures EditCopy(st, s, e).Raised? <==> Within(st.frames, s, e) == []
    ensures var out := EditCopy(st, s, e);
      out.Done? ==> out.store.clip == Within(st.frames, s, e) && Undone(out.store, out.cmd).clip == st.clip
  {
    CopyRoundTrip(st, s, e, None);
  }

  // ---------------------------------------------------------------------
  // The controller
  // ---------------------------------------------------------------------

  /** A row `new_edit` creates: frame id and every channel value 0, with a marker. */
  function BlankRow(t: real, marker: string): Keyframe
  {
    Keyframe(0, t, seq(NumChannels, _ => Channel(0, 0, 0, 0)), marker)
  }

  /** The table `new_edit` starts from: 'Start' at 0 ms and 'End' at the duration. */
  function NewEditRows(durationSec: real): (rows: seq<Keyframe>)
    requires durationSec > 0.0
    ensures |rows| == 2 && SortedByTime(rows) && AllWellFormed(rows)
    ensures rows[0].time == 0.0 && rows[0].marker == "Start"
    ensures rows[1].time == durationSec * 1000.0 && rows[1].marker == "End"
    ensures forall i, c :: 0 <= i < 2 && 0 <= c < NumChannels ==> rows[i].channels[c] == Channel(0, 0, 0, 0)
  {
    [BlankRow(0.0, "Start"), BlankRow(durationSec * 1000.0, "End")]
  }

  class Controller {
    var data: DataManager
    const sourceData: DataManager
    const clipboard: ClipboardManager
    const history: UndoManager

    ghost predicate Valid()
      reads this, data, sourceData, clipboard, history
    {
      data != sourceData && data.Valid() && sourceData.Valid() && AllWellFormed(clipboard.frames) && history.Valid()
    }

    constructor()
      ensures Valid()
      ensures data.frames == [] && sourceData.frames == [] && clipboard.frames == []
      ensures !data.hasColumns && !sourceData.hasColumns
      ensures history.undoStack == [] && history.redoStack == []
    {
      data := new DataManager();
      sourceData := new DataManager();
      clipboard := new ClipboardManager();
      history := new UndoManager();
    }

    /**
     * `copy_selection` with the correction: nothing for an empty or
     * inverted range or when the range holds no rows; from the source
     * timeline the clipboard is set directly, from the edit timeline
     * through a copy command on the history.
     */
    method CopySelection(s: real, e: real, src: string)
      requires Valid()
      modifies clipboard, history, data
      ensures Valid() && data == old(data)
      ensures var rows := if src == "source" then Within(sourceData.frames, s, e) else Within(old(data.frames), s, e);
        if s >= e || rows == [] then
          Snapshot(data, clipboard) == old(Snapshot(data, clipboard)) &&
          history.undoStack == old(history.undoStack) && history.redoStack == old(history.redoStack)
        else if src == EditSource then
          var out := EditCopy(old(Snapshot(data, clipboard)), s, e);
          out.Done? && Snapshot(data, clipboard) == out.store &&
          history.undoStack == old(history.undoStack) + [out.cmd] && history.redoStack == []
        else
          data.frames == old(data.frames) && clipboard.frames == rows && clipboard.sourceType == Some(src) &&
          history.undoStack == old(history.undoStack) && history.redoStack == old(history.redoStack)
    {
      if s >= e {
        return;
      }
      var rows := if src == "source" then Within(sourceData.frames, s, e) else Within(data.frames, s, e);
      if rows == [] {
        return;
      }
      if src == EditSource {
        var raised := history.Execute(CopyCommand(s, e, None), data, clipboard);
      } else {
        if src == "source" {
          WithinWellFormed(sourceData.frames, s, e);
        } else {
          WithinWellFormed(data.frames, s, e);
        }
        clipboard.SetClipboard(rows, src);
      }
    }

    /** `cut_selection`: nothing for an empty or inverted range, else a cut command on the history. */
    method CutSelection(s: real, e: real)
      requires Valid()
      modifies clipboard, history, data
      ensures Valid() && data == old(data)
      ensures s >= e ==> Snapshot(data, clipboard) == old(Snapshot(data, clipboard)) &&
                         history.undoStack == old(history.undoStack) && history.redoStack == old(history.redoStack)
      ensures s < e ==>
        var out := Executed(old(Snapshot(data, clipboard)), CutCommand(s, e, None, None));
        if out.Raised? then Snapshot(data, clipboard) == old(Snapshot(data, clipboard)) &&
                            history.undoStack == old(history.undoStack) && history.redoStack == old(history.redoStack)
        else Snapshot(data, clipboard) == out.store && history.undoStack == old(history.undoStack) + [out.cmd] &&
             history.redoStack == []
    {
      if s >= e {
        return;
      }
      var raised := history.Execute(CutCommand(s, e, None, None), data, clipboard);
    }

    /** `delete_selection`: nothing for an empty or inverted range, else a delete command on the history. */
    method DeleteSelection(s: real, e: real)
      requires Valid()
      modifies clipboard, history, data
      ensures Valid() && data == old(data)
      ensures s >= e ==> Snapshot(data, clipboard) == old(Snapshot(data, clipboard)) &&
                         history.undoStack == old(history.undoStack) && history.redoStack == old(history.redoStack)
      ensures s < e ==>
        var out := Executed(old(Snapshot(data, clipboard)), DeleteCommand(s, e, None));
        if out.Raised? then Snapshot(data, clipboard) == old(Snapshot(data, clipboard)) &&
                            history.undoStack == old(history.undoStack) && history.redoStack == old(history.redoStack)
        else Snapshot(data, clipboard) == out.store && history.undoStack == old(history.undoStack) + [out.cmd] &&
             history.redoStack == []
    {
      if s >= e {
        return;
      }
      var raised := history.Execute(DeleteCommand(s, e, None), data, clipboard);
    }

    /**
     * `new_edit`: a new store holding the 'Start' and 'End' rows and empty
     * undo and redo stacks.  The caller asks only for a positive duration.
     */
    method NewEdit(durationSec: real)
      requires Valid() && durationSec > 0.0
      modifies this, history
      ensures Valid() && fresh(data)
      ensures data.frames == NewEditRows(durationSec) && data.hasColumns
      ensures history.undoStack == [] && history.redoStack == []
    {
      data := new DataManager();
      data.frames := NewEditRows(durationSec);
      data.hasColumns := true;
      history.undoStack := [];
      history.redoStack := [];
    }
  }
}
