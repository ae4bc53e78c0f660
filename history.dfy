/**
 * The edit history: two stacks of commands over the keyframe store and the
 * clipboard.  A command remembers what it needs to undo itself when it is
 * executed; executing raises (a ValueError) when there is nothing to act on,
 * and then neither the data nor the stacks change.
 */
module History {
  import opened Common
  import opened Keyframes
  import opened DataStore
  import opened ClipboardModel

  /** Frames within this distance of the requested time can be edited. */
  const UpdateTolerance: real := 250.0

  datatype Colour = Colour(r: int, g: int, b: int)

  /** What `OffsetCommand.execute` remembers. */
  datatype OffsetSaved = OffsetSaved(moved: seq<Keyframe>, originalFirst: real, overwritten: seq<Keyframe>)

  /** What `UpdateFrameCommand.execute` remembers: the row, its marker and its channels. */
  datatype FrameSaved = FrameSaved(index: nat, marker: string, channels: seq<Channel>)

  /** What `AddMarkerCommand.execute` remembers: the row and its marker. */
  datatype MarkerSaved = MarkerSaved(index: nat, marker: string)

  datatype Command =
    | DeleteCommand(start: real, end: real, deleted: Option<seq<Keyframe>>)
    | CopyCommand(start: real, end: real, copyPrevious: Option<seq<Keyframe>>)
    | CutCommand(start: real, end: real, cut: Option<seq<Keyframe>>, previous: Option<seq<Keyframe>>)
    | OffsetCommand(start: real, end: real, offset: real, offsetSaved: Option<OffsetSaved>)
    | UpdateFrameCommand(time: real, colour: Colour, fn: int, newMarker: Option<string>,
                         frameSaved: Option<FrameSaved>)
    | AddMarkerCommand(at: real, name: Option<string>, answer: string, markerSaved: Option<MarkerSaved>)

  /** The data a command acts on: the table, and the clipboard's frames and source. */
  datatype Store = Store(frames: seq<Keyframe>, clip: seq<Keyframe>, source: Option<string>)

  /** A finished `execute` (the new data and the command with its saved state) or a raised error. */
  datatype Outcome = Done(store: Store, cmd: Command) | Raised

  // ---------------------------------------------------------------------
  // Finding a row
  // ---------------------------------------------------------------------

  /** The first row at exactly time t (`main_df[mask].index[0]`). */
  function ExactIndex(s: seq<Keyframe>, t: real): (r: Option<nat>)
    ensures r.Some? ==> r.value < |s| && s[r.value].time == t && forall j :: 0 <= j < r.value ==> s[j].time != t
    ensures r.None? ==> forall j :: 0 <= j < |s| ==> s[j].time != t
  {
    if s == [] then None
    else if s[0].time == t then Some(0)
    else match ExactIndex(s[1..], t)
      case None => None
      case Some(i) => Some(i + 1)
  }

  /** The first row whose time is nearest to t (`idxmin` of the distances). */
  function NearestIndex(s: seq<Keyframe>, t: real): (r: nat)
    requires s != []
    ensures r < |s|
    ensures forall j :: 0 <= j < |s| ==> Abs(s[r].time - t) <= Abs(s[j].time - t)
    ensures forall j :: 0 <= j < r ==> Abs(s[j].time - t) > Abs(s[r].time - t)
  {
    if |s| == 1 then 0
    else
      var i := NearestIndex(s[1..], t) + 1;
      if Abs(s[0].time - t) <= Abs(s[i].time - t) then 0 else i
  }

  /** The row `UpdateFrameCommand` edits: an exact match, else the nearest within 250 ms. */
  function UpdateTarget(s: seq<Keyframe>, t: real): (r: Option<nat>)
    ensures r.Some? ==> r.value < |s|
    ensures r.None? <==> forall j :: 0 <= j < |s| ==> Abs(s[j].time - t) > UpdateTolerance
  {
    if s == [] then None
    else match ExactIndex(s, t)
      case Some(i) => Some(i)
      case None =>
        var n := NearestIndex(s, t);
        if Abs(s[n].time - t) > UpdateTolerance then None else Some(n)
  }

  /**
   * The marker name: the one given, or, when none or an empty one was given,
   * the user's answer to the prompt (already stripped).
   */
  function MarkerName(name: Option<string>, answer: string): (r: string)
    ensures name.Some? && name.value != "" ==> r == name.value
    ensures name.None? || name.value == "" ==> r == answer
  {
    if name.None? || name.value == "" then answer else name.value
  }

  /** All ten channels set to one function and colour. */
  function Uniform(colour: Colour, fn: int): (cs: seq<Channel>)
    ensures |cs| == NumChannels
    ensures forall c :: 0 <= c < NumChannels ==> cs[c] == Channel(fn, colour.r, colour.g, colour.b)
  {
    seq(NumChannels, _ => Channel(fn, colour.r, colour.g, colour.b))
  }

  // ---------------------------------------------------------------------
  // execute
  // ---------------------------------------------------------------------

  /** The time a block covers: its latest time minus its earliest. */
  function Span(d: seq<Keyframe>): real
    requires d != []
  {
    MaxTime(d) - MinTime(d)
  }

  /** Where a moved block's first row lands. */
  function Landing(first: real, off: real): real
  {
    first + off
  }

  /** Where a moved block's last row lands. */
  function LandingEnd(first: real, off: real, moved: seq<Keyframe>): real
    requires moved != []
  {
    first + off + Span(moved)
  }

  /**
   * What a move remembers, given the rows it takes out and the table they
   * leave behind: the moved rows, their first time, and (the correction)
   * the rows its paste overwrites.
   */
  function SavedFor(moved: seq<Keyframe>, remaining: seq<Keyframe>, off: real): OffsetSaved
    requires moved != []
  {
    OffsetSaved(moved, moved[0].time, Within(remaining, Landing(moved[0].time, off), LandingEnd(moved[0].time, off, moved)))
  }

  /** The moved rows pasted back into what they left, their first row at its old time plus off. */
  function PlacedFor(moved: seq<Keyframe>, remaining: seq<Keyframe>, off: real): seq<Keyframe>
    requires moved != []
  {
    Paste(remaining, Landing(moved[0].time, off), moved)
  }

  /** What moving the rows in [s, e] by off remembers. */
  function MoveSaved(x: seq<Keyframe>, s: real, e: real, off: real): OffsetSaved
    requires Within(x, s, e) != []
  {
    SavedFor(Within(x, s, e), Delete(x, s, e), off)
  }

  /** The table after moving the rows in [s, e] by off: they are deleted and pasted at their old time plus off. */
  function MoveTable(x: seq<Keyframe>, s: real, e: real, off: real): seq<Keyframe>
    requires Within(x, s, e) != []
  {
    PlacedFor(Within(x, s, e), Delete(x, s, e), off)
  }

  /** `execute` of each command: the new data and the command with its saved state, or a raise. */
  function Executed(st: Store, cmd: Command): Outcome
  {
    match cmd
    case DeleteCommand(s, e, _) =>
      var w := Within(st.frames, s, e);
      if w == [] then Raised
      else Done(st.(frames := Delete(st.frames, s, e)), DeleteCommand(s, e, Some(w)))
    case CopyCommand(s, e, _) =>
      var w := Within(st.frames, s, e);
      if w == [] then Raised
      else Done(st.(clip := w, source := Some(EditSource)), CopyCommand(s, e, Some(st.clip)))
    case CutCommand(s, e, _, _) =>
      var w := Within(st.frames, s, e);
      if w == [] then Raised
      else Done(Store(Delete(st.frames, s, e), w, Some(EditSource)), CutCommand(s, e, Some(w), Some(st.clip)))
    case OffsetCommand(s, e, off, _) =>
      if Within(st.frames, s, e) == [] then Raised
      else Done(st.(frames := MoveTable(st.frames, s, e, off)), OffsetCommand(s, e, off, Some(MoveSaved(st.frames, s, e, off))))
    case UpdateFrameCommand(t, colour, fn, marker, _) =>
      var target := UpdateTarget(st.frames, t);
      if target.None? then Raised
      else
        var i := target.value;
        var row := st.frames[i];
        var edited := row.(channels := Uniform(colour, fn),
                           marker := if marker.Some? then marker.value else row.marker);
        Done(st.(frames := st.frames[i := edited]),
             UpdateFrameCommand(t, colour, fn, marker, Some(FrameSaved(i, row.marker, row.channels))))
    case AddMarkerCommand(at, name, answer, _) =>
      var chosen := MarkerName(name, answer);
      if st.frames == [] || chosen == "" then Raised
      else
        var i := NearestIndex(st.frames, at);
        Done(st.(frames := st.frames[i := st.frames[i].(marker := chosen)]),
             AddMarkerCommand(at, Some(chosen), answer, Some(MarkerSaved(i, st.frames[i].marker))))
  }

  // ---------------------------------------------------------------------
  // undo
  // ---------------------------------------------------------------------

  /** Pastes saved rows back at their earliest time; nothing to paste leaves the table alone. */
  function Restore(frames: seq<Keyframe>, saved: seq<Keyframe>): seq<Keyframe>
  {
    if saved == [] then frames else Paste(frames, MinTime(saved), saved)
  }

  /**
   * `OffsetCommand.undo` as the source has it: delete the block at its new
   * place, paste it back at its original time.  Rows the move overwrote are
   * not brought back.
   */
  function OffsetUndoAsWritten(frames: seq<Keyframe>, off: real, saved: OffsetSaved): seq<Keyframe>
  {
    var moved := saved.moved;
    if moved == [] then frames
    else
      var cleared := Delete(frames, Landing(saved.originalFirst, off), LandingEnd(saved.originalFirst, off, moved));
      Paste(cleared, saved.originalFirst, moved)
  }

  /** The corrected undo: the rows the move overwrote are pasted back before the block returns. */
  function OffsetUndo(frames: seq<Keyframe>, off: real, saved: OffsetSaved): seq<Keyframe>
  {
    var moved := saved.moved;
    if moved == [] then frames
    else
      var cleared := Delete(frames, Landing(saved.originalFirst, off), LandingEnd(saved.originalFirst, off, moved));
      Paste(Restore(cleared, saved.overwritten), saved.originalFirst, moved)
  }

  function Undone(st: Store, cmd: Command): Store
  {
    match cmd
    case DeleteCommand(_, _, deleted) =>
      if deleted.None? then st else st.(frames := Restore(st.frames, deleted.value))
    case CopyCommand(_, _, previous) =>
      if previous.None? then st else st.(clip := previous.value, source := Some(EditSource))
    case CutCommand(_, _, cut, previous) =>
      if cut.None? then st
      else
        var frames := Restore(st.frames, cut.value);
        if previous.None? then st.(frames := frames) else Store(frames, previous.value, Some(EditSource))
    case OffsetCommand(_, _, off, saved) =>
      if saved.None? then st else st.(frames := OffsetUndo(st.frames, off, saved.value))
    case UpdateFrameCommand(_, _, _, _, saved) =>
      if saved.None? || saved.value.index >= |st.frames| then st
      else
        var i := saved.value.index;
        st.(frames := st.frames[i := st.frames[i].(marker := saved.value.marker, channels := saved.value.channels)])
    case AddMarkerCommand(_, _, _, saved) =>
      if saved.None? || saved.value.index >= |st.frames| then st
      else
        var i := saved.value.index;
        st.(frames := st.frames[i := st.frames[i].(marker := saved.value.marker)])
  }

  // ---------------------------------------------------------------------
  // Round trips
  // ---------------------------------------------------------------------

  /** The store's table invariant. */
  ghost predicate Tidy(st: Store)
  {
    SortedByTime(st.frames) && NumberedFromOne(st.frames)
  }

  /**
   * Delete raises exactly on an empty range; otherwise undo pastes the
   * deleted rows back and the table is as before.
   */
  lemma DeleteRoundTrip(st: Store, s: real, e: real, saved: Option<seq<Keyframe>>)
    requires Tidy(st)
    ensures Executed(st, DeleteCommand(s, e, saved)).Raised? <==> Within(st.frames, s, e) == []
    ensures var out := Executed(st, DeleteCommand(s, e, saved));
      out.Done? ==> Undone(out.store, out.cmd) == st
  {
    if Within(st.frames, s, e) != [] {
      RestoreAfterDelete(st.frames, s, e);
    }
  }

  /**
   * Copy raises on an empty range; otherwise it puts the rows on the
   * clipboard, and undo gives the clipboard its earlier frames back.
   */
  lemma CopyRoundTrip(st: Store, s: real, e: real, previous: Option<seq<Keyframe>>)
    ensures Executed(st, CopyCommand(s, e, previous)).Raised? <==> Within(st.frames, s, e) == []
    ensures var out := Executed(st, CopyCommand(s, e, previous));
      out.Done? ==> out.store.clip == Within(st.frames, s, e) && out.store.frames == st.frames &&
                    Undone(out.store, out.cmd) == st.(source := Some(EditSource))
  {
  }

  /**
   * Cut puts the cut rows on the clipboard and deletes them; undo pastes
   * them back and restores the clipboard's frames, whose source then reads
   * "edit".
   */
  lemma CutRoundTrip(st: Store, s: real, e: real, cut: Option<seq<Keyframe>>, previous: Option<seq<Keyframe>>)
    requires Tidy(st)
    ensures Executed(st, CutCommand(s, e, cut, previous)).Raised? <==> Within(st.frames, s, e) == []
    ensures var out := Executed(st, CutCommand(s, e, cut, previous));
      out.Done? ==> out.store.clip == Within(st.frames, s, e) && out.store.frames == Delete(st.frames, s, e)
    ensures var out := Executed(st, CutCommand(s, e, cut, previous));
      out.Done? ==> Undone(out.store, out.cmd) == st.(source := Some(EditSource))
  {
    if Within(st.frames, s, e) != [] {
      RestoreAfterDelete(st.frames, s, e);
    }
  }

  lemma ShiftSpan(s: seq<Keyframe>, off: real)
    requires s != [] && SortedByTime(s)
    ensures SortedByTime(Shift(s, off))
    ensures MinTime(Shift(s, off)) == s[0].time + off
    ensures MaxTime(Shift(s, off)) == s[|s| - 1].time + off
  {
    var r := Shift(s, off);
    forall i, j | 0 <= i < j < |r| ensures r[i].time <= r[j].time {
      assert s[i].time <= s[j].time;
    }
    SortedMinMax(r);
  }

  /**
   * Pasting a sorted block at target puts it on [target, target + span];
   * deleting that span afterwards leaves what deleting it before would have.
   */
  lemma PasteThenClear(y: seq<Keyframe>, moved: seq<Keyframe>, target: real, hi: real)
    requires SortedByTime(y) && moved != [] && SortedByTime(moved)
    requires hi == target + Span(moved)
    ensures Delete(Paste(y, target, moved), target, hi) == Delete(y, target, hi)
  {
    var ins := Shift(moved, target - moved[0].time);
    PasteSorted(y, target, moved);
    ShiftedBounds(moved, target, hi);
    DeleteAfterPaste(y, ins);
  }

  /** A sorted block is pasted as one shift of itself. */
  lemma PasteSorted(y: seq<Keyframe>, target: real, moved: seq<Keyframe>)
    requires moved != [] && SortedByTime(moved)
    ensures Paste(y, target, moved) == Overwrite(y, Shift(moved, target - moved[0].time))
  {
    PasteModesAgree(target, moved);
  }

  /** Shifting a sorted block so that it starts at target makes it cover [target, target + span]. */
  lemma ShiftedBounds(moved: seq<Keyframe>, target: real, hi: real)
    requires moved != [] && SortedByTime(moved)
    requires hi == target + Span(moved)
    ensures MinTime(Shift(moved, target - moved[0].time)) == target
    ensures MaxTime(Shift(moved, target - moved[0].time)) == hi
  {
    SortedMinMax(moved);
    assert Span(moved) == moved[|moved| - 1].time - moved[0].time;
    ShiftSpan(moved, target - moved[0].time);
  }

  /** The rows a move takes out of a tidy table are sorted, and the first is the earliest. */
  lemma MovedSorted(x: seq<Keyframe>, s: real, e: real)
    requires SortedByTime(x) && Within(x, s, e) != []
    ensures SortedByTime(Within(x, s, e)) && MinTime(Within(x, s, e)) == Within(x, s, e)[0].time
  {
    SplitPieces(x, s, e);
    SortedMinMax(Within(x, s, e));
  }

  /** The table a move leaves behind is tidy. */
  lemma MovedRemainder(x: seq<Keyframe>, s: real, e: real)
    requires SortedByTime(x)
    ensures SortedByTime(Delete(x, s, e)) && NumberedFromOne(Delete(x, s, e))
  {
    DeleteKeepsTimes(x, s, e);
  }

  /** Pasting the moved rows back at their first time restores the table. */
  lemma MovedBack(x: seq<Keyframe>, s: real, e: real)
    requires SortedByTime(x) && NumberedFromOne(x) && Within(x, s, e) != []
    ensures Paste(Delete(x, s, e), Within(x, s, e)[0].time, Within(x, s, e)) == x
  {
    MovedSorted(x, s, e);
    RestoreAfterDelete(x, s, e);
  }

  /** The corrected undo, step by step. */
  lemma UndoOfMove(table: seq<Keyframe>, off: real, saved: OffsetSaved, x: seq<Keyframe>, remaining: seq<Keyframe>)
    requires saved.moved != []
    requires Restore(Delete(table, Landing(saved.originalFirst, off), LandingEnd(saved.originalFirst, off, saved.moved)),
                     saved.overwritten) == remaining
    requires Paste(remaining, saved.originalFirst, saved.moved) == x
    ensures OffsetUndo(table, off, saved) == x
  {
  }

  /** The source's undo, step by step, when the move overwrote nothing. */
  lemma AsWrittenUndoOfMove(table: seq<Keyframe>, off: real, saved: OffsetSaved, x: seq<Keyframe>, remaining: seq<Keyframe>)
    requires saved.moved != [] && saved.overwritten == []
    requires Restore(Delete(table, Landing(saved.originalFirst, off), LandingEnd(saved.originalFirst, off, saved.moved)),
                     saved.overwritten) == remaining
    requires Paste(remaining, saved.originalFirst, saved.moved) == x
    ensures OffsetUndoAsWritten(table, off, saved) == x
  {
  }

  /** Deleting a span and pasting back what it held gives back the table. */
  lemma RestoreClear(y: seq<Keyframe>, lo: real, hi: real)
    requires SortedByTime(y) && NumberedFromOne(y)
    ensures Restore(Delete(y, lo, hi), Within(y, lo, hi)) == y
  {
    if Within(y, lo, hi) != [] {
      RestoreAfterDelete(y, lo, hi);
    } else {
      DeleteNothing(y, lo, hi);
    }
  }

  /**
   * After a sorted block is pasted at target, clearing its span and
   * restoring what the span held before gives back the table.
   */
  lemma ClearedRestores(y: seq<Keyframe>, moved: seq<Keyframe>, target: real, hi: real,
                         table: seq<Keyframe>, overwritten: seq<Keyframe>)
    requires SortedByTime(y) && NumberedFromOne(y) && moved != [] && SortedByTime(moved)
    requires hi == target + Span(moved)
    requires table == Paste(y, target, moved) && overwritten == Within(y, target, hi)
    ensures Restore(Delete(table, target, hi), overwritten) == y
  {
    PasteThenClear(y, moved, target, hi);
    RestoreClear(y, target, hi);
  }

  /** Undoing a placed block, with the correction, gives back the table it was taken from. */
  lemma UndoOfPlaced(moved: seq<Keyframe>, remaining: seq<Keyframe>, off: real, x: seq<Keyframe>)
    requires moved != [] && SortedByTime(moved)
    requires SortedByTime(remaining) && NumberedFromOne(remaining)
    requires Paste(remaining, moved[0].time, moved) == x
    ensures OffsetUndo(PlacedFor(moved, remaining, off), off, SavedFor(moved, remaining, off)) == x
  {
    ClearedRestores(remaining, moved, Landing(moved[0].time, off), LandingEnd(moved[0].time, off, moved),
                    PlacedFor(moved, remaining, off), SavedFor(moved, remaining, off).overwritten);
    UndoOfMove(PlacedFor(moved, remaining, off), off, SavedFor(moved, remaining, off), x, remaining);
  }

  /** Undoing a move of the rows in [s, e] by off, with the correction, gives back the table. */
  lemma OffsetUndoRestores(x: seq<Keyframe>, s: real, e: real, off: real)
    requires SortedByTime(x) && NumberedFromOne(x) && Within(x, s, e) != []
    ensures OffsetUndo(MoveTable(x, s, e, off), off, MoveSaved(x, s, e, off)) == x
  {
    MovedSorted(x, s, e);
    MovedRemainder(x, s, e);
    MovedBack(x, s, e);
    UndoOfPlaced(Within(x, s, e), Delete(x, s, e), off, x);
  }

  /** With the correction, undoing a move restores the table exactly. */
  lemma OffsetRoundTrip(st: Store, s: real, e: real, off: real, saved: Option<OffsetSaved>)
    requires Tidy(st)
    ensures Executed(st, OffsetCommand(s, e, off, saved)).Raised? <==> Within(st.frames, s, e) == []
    ensures Executed(st, OffsetCommand(s, e, off, saved)).Done? ==>
      Undone(Executed(st, OffsetCommand(s, e, off, saved)).store, Executed(st, OffsetCommand(s, e, off, saved)).cmd) == st
  {
    if Within(st.frames, s, e) != [] {
      var table := MoveTable(st.frames, s, e, off);
      var kept := MoveSaved(st.frames, s, e, off);
      assert Executed(st, OffsetCommand(s, e, off, saved)) == Done(st.(frames := table), OffsetCommand(s, e, off, Some(kept)));
      assert Undone(st.(frames := table), OffsetCommand(s, e, off, Some(kept))) == st.(frames := OffsetUndo(table, off, kept));
      OffsetUndoRestores(st.frames, s, e, off);
    }
  }

  /**
   * The source's undo of a move gives back the table when the move
   * overwrote nothing at its destination.
   */
  lemma OffsetAsWrittenRestoresWhenClear(x: seq<Keyframe>, s: real, e: real, off: real)
    requires SortedByTime(x) && NumberedFromOne(x) && Within(x, s, e) != []
    requires MoveSaved(x, s, e, off).overwritten == []
    ensures OffsetUndoAsWritten(MoveTable(x, s, e, off), off, MoveSaved(x, s, e, off)) == x
  {
    MovedSorted(x, s, e);
    MovedRemainder(x, s, e);
    MovedBack(x, s, e);
    AsWrittenUndoOfPlaced(Within(x, s, e), Delete(x, s, e), off, x);
  }

  /** The source's undo of a placed block that overwrote nothing gives back the table. */
  lemma AsWrittenUndoOfPlaced(moved: seq<Keyframe>, remaining: seq<Keyframe>, off: real, x: seq<Keyframe>)
    requires moved != [] && SortedByTime(moved)
    requires SortedByTime(remaining) && NumberedFromOne(remaining)
    requires SavedFor(moved, remaining, off).overwritten == []
    requires Paste(remaining, moved[0].time, moved) == x
    ensures OffsetUndoAsWritten(PlacedFor(moved, remaining, off), off, SavedFor(moved, remaining, off)) == x
  {
    ClearedRestores(remaining, moved, Landing(moved[0].time, off), LandingEnd(moved[0].time, off, moved),
                    PlacedFor(moved, remaining, off), SavedFor(moved, remaining, off).overwritten);
    AsWrittenUndoOfMove(PlacedFor(moved, remaining, off), off, SavedFor(moved, remaining, off), x, remaining);
  }

  /** A well-formed row with every channel off. */
  function Dark(id: int, t: real): Keyframe
  {
    Keyframe(id, t, Uniform(Colour(0, 0, 0), 0), "")
  }

  /** Two dark frames, at 0 ms and at 100 ms. */
  function Collision(): seq<Keyframe>
  {
    [Dark(1, 0.0), Dark(2, 100.0)]
  }

  /** Pasting one row where nothing else would survive gives that row alone, at t, numbered 1. */
  lemma PasteSingle(main: seq<Keyframe>, t: real, k: Keyframe)
    requires Outside(main, t, t) == []
    ensures Paste(main, t, [k]) == [k.(time := t, frameId := 1)]
  {
    assert SortByTime([k]) == [k] by { SortOfSorted([k]); }
    var ins := PasteBlock(t, [k]);
    assert ins == [k.(time := t)];
    assert MinTime(ins) == t && MaxTime(ins) == t;
    assert [] + ins == ins;
    assert SortByTime(ins) == ins by { SortOfSorted(ins); }
  }

  /** One row inside [lo, hi] is all within and leaves nothing outside. */
  lemma OneRow(k: Keyframe, lo: real, hi: real)
    requires lo <= k.time <= hi
    ensures Within([k], lo, hi) == [k] && Outside([k], lo, hi) == []
  {
    assert [k][1..] == [];
  }

  /** Of two rows, the first inside [lo, hi] and the second after it, only the second is outside. */
  lemma TwoRows(a: Keyframe, b: Keyframe, lo: real, hi: real)
    requires lo <= a.time <= hi < b.time
    ensures Within([a, b], lo, hi) == [a] && Outside([a, b], lo, hi) == [b]
  {
    assert [a, b][1..] == [b];
    assert [b][1..] == [];
  }

  /** Two rows in time order, numbered 1 and 2, make a tidy table. */
  lemma TwoTidy(a: Keyframe, b: Keyframe)
    requires a.time <= b.time && a.frameId == 1 && b.frameId == 2
    ensures SortedByTime([a, b]) && NumberedFromOne([a, b])
  {
  }

  /** A single row moved onto a spot where nothing else survives lands alone there. */
  lemma PlacedSingle(a: Keyframe, remaining: seq<Keyframe>, off: real, t: real)
    requires t == a.time + off && Outside(remaining, t, t) == []
    ensures PlacedFor([a], remaining, off) == [a.(time := t, frameId := 1)]
    ensures SavedFor([a], remaining, off) == OffsetSaved([a], a.time, Within(remaining, t, t))
  {
    assert Landing(a.time, off) == t;
    assert Span([a]) == 0.0;
    assert LandingEnd(a.time, off, [a]) == t;
    PasteSingle(remaining, t, a);
  }

  /** Moving [0, 0] of the example by 100 ms lands the first frame on the second. */
  lemma CollisionMove()
    ensures Within(Collision(), 0.0, 0.0) == [Dark(1, 0.0)]
    ensures MoveTable(Collision(), 0.0, 0.0, 100.0) == [Dark(1, 100.0)]
    ensures MoveSaved(Collision(), 0.0, 0.0, 100.0) == OffsetSaved([Dark(1, 0.0)], 0.0, [Dark(1, 100.0)])
  {
    var a := Dark(1, 0.0);
    var b := Dark(2, 100.0);
    TwoRows(a, b, 0.0, 0.0);
    assert Delete(Collision(), 0.0, 0.0) == [Dark(1, 100.0)];
    OneRow(Dark(1, 100.0), 100.0, 100.0);
    PlacedSingle(a, [Dark(1, 100.0)], 100.0, 100.0);
  }

  /** Undoing, as the source does, the example's move: clearing 100 ms leaves nothing, and the frame returns alone. */
  lemma CollisionAsWrittenUndo()
    ensures OffsetUndoAsWritten([Dark(1, 100.0)], 100.0, OffsetSaved([Dark(1, 0.0)], 0.0, [Dark(1, 100.0)])) == [Dark(1, 0.0)]
  {
    var a := Dark(1, 0.0);
    var saved := OffsetSaved([a], 0.0, [Dark(1, 100.0)]);
    assert Landing(0.0, 100.0) == 100.0;
    assert Span([a]) == 0.0;
    assert LandingEnd(0.0, 100.0, [a]) == 100.0;
    OneRow(Dark(1, 100.0), 100.0, 100.0);
    assert Delete([Dark(1, 100.0)], 100.0, 100.0) == [];
    PasteSingle([], 0.0, a);
  }

  /**
   * Moving the frame at 0 onto the frame at 100 and undoing as the source
   * does leaves one frame where there were two: the overwritten frame is
   * lost.  The corrected undo gives both back.
   */
  lemma OffsetAsWrittenLosesFrames()
    ensures Within(Collision(), 0.0, 0.0) != []
    ensures OffsetUndoAsWritten(MoveTable(Collision(), 0.0, 0.0, 100.0), 100.0, MoveSaved(Collision(), 0.0, 0.0, 100.0)) ==
      [Dark(1, 0.0)]
    ensures OffsetUndo(MoveTable(Collision(), 0.0, 0.0, 100.0), 100.0, MoveSaved(Collision(), 0.0, 0.0, 100.0)) == Collision()
  {
    CollisionMove();
    CollisionAsWrittenUndo();
    TwoTidy(Dark(1, 0.0), Dark(2, 100.0));
    OffsetUndoRestores(Collision(), 0.0, 0.0, 100.0);
  }

  /** Editing a frame and undoing restores its marker and all forty channel values. */
  lemma UpdateFrameRoundTrip(st: Store, t: real, colour: Colour, fn: int, marker: Option<string>,
                             saved: Option<FrameSaved>)
    ensures Executed(st, UpdateFrameCommand(t, colour, fn, marker, saved)).Raised? <==>
      forall j :: 0 <= j < |st.frames| ==> Abs(st.frames[j].time - t) > UpdateTolerance
    ensures var out := Executed(st, UpdateFrameCommand(t, colour, fn, marker, saved));
      out.Done? ==> Undone(out.store, out.cmd) == st
  {
    match UpdateTarget(st.frames, t)
    case None =>
    case Some(i) =>
      var out := Executed(st, UpdateFrameCommand(t, colour, fn, marker, saved));
      assert out.store.frames[i].(marker := st.frames[i].marker, channels := st.frames[i].channels) == st.frames[i];
      assert out.store.frames[i := st.frames[i]] == st.frames;
  }

  /**
   * The edited row is the first exact match when there is one, else the
   * first nearest row, and it is within 250 ms; every channel then carries
   * the new function code and colour, and the marker changes only when one is
   * given.
   */
  lemma UpdateFrameTarget(st: Store, t: real, colour: Colour, fn: int, marker: Option<string>,
                          saved: Option<FrameSaved>)
    requires Executed(st, UpdateFrameCommand(t, colour, fn, marker, saved)).Done?
    ensures var out := Executed(st, UpdateFrameCommand(t, colour, fn, marker, saved));
      var i := out.cmd.frameSaved.value.index;
      i < |st.frames| && Abs(st.frames[i].time - t) <= UpdateTolerance &&
      (ExactIndex(st.frames, t).Some? ==> i == ExactIndex(st.frames, t).value) &&
      (ExactIndex(st.frames, t).None? ==> forall j :: 0 <= j < |st.frames| ==> Abs(st.frames[i].time - t) <= Abs(st.frames[j].time - t)) &&
      |out.store.frames| == |st.frames| &&
      (forall j :: 0 <= j < |st.frames| && j != i ==> out.store.frames[j] == st.frames[j]) &&
      (forall c :: 0 <= c < NumChannels ==> out.store.frames[i].channels[c] == Channel(fn, colour.r, colour.g, colour.b)) &&
      out.store.frames[i].time == st.frames[i].time &&
      (marker.None? ==> out.store.frames[i].marker == st.frames[i].marker)
  {
  }

  /**
   * A marker needs a non-empty table and a name (given, or answered at the
   * prompt); it goes on a nearest row and undo puts the old marker back.
   * Redoing reuses the chosen name without asking again.
   */
  lemma AddMarkerRoundTrip(st: Store, at: real, name: Option<string>, answer: string, saved: Option<MarkerSaved>)
    ensures Executed(st, AddMarkerCommand(at, name, answer, saved)).Raised? <==>
      st.frames == [] || MarkerName(name, answer) == ""
    ensures var out := Executed(st, AddMarkerCommand(at, name, answer, saved));
      out.Done? ==>
        var i := out.cmd.markerSaved.value.index;
        i < |st.frames| && out.store.frames[i].marker == MarkerName(name, answer) &&
        (forall j :: 0 <= j < |st.frames| ==> Abs(st.frames[i].time - at) <= Abs(st.frames[j].time - at)) &&
        (forall j :: 0 <= j < |st.frames| && j != i ==> out.store.frames[j] == st.frames[j]) &&
        out.cmd.name == Some(MarkerName(name, answer)) &&
        Undone(out.store, out.cmd) == st
  {
    if !(st.frames == [] || MarkerName(name, answer) == "") {
      var i := NearestIndex(st.frames, at);
      var out := Executed(st, AddMarkerCommand(at, name, answer, saved));
      assert out.store.frames[i].(marker := st.frames[i].marker) == st.frames[i];
      assert out.store.frames[i := st.frames[i]] == st.frames;
    }
  }

  /**
   * Undo right after a successful execute gives back the data the command
   * started from; only a cut leaves the clipboard's source reading "edit".
   */
  lemma UndoAfterExecute(st: Store, cmd: Command)
    requires Tidy(st)
    ensures var out := Executed(st, cmd);
      out.Done? ==> Undone(out.store, out.cmd) ==
                    (if cmd.CutCommand? || cmd.CopyCommand? then st.(source := Some(EditSource)) else st)
  {
    match cmd
    case DeleteCommand(s, e, deleted) => DeleteRoundTrip(st, s, e, deleted);
    case CopyCommand(s, e, previous) => CopyRoundTrip(st, s, e, previous);
    case CutCommand(s, e, cut, previous) => CutRoundTrip(st, s, e, cut, previous);
    case OffsetCommand(s, e, off, saved) => OffsetRoundTrip(st, s, e, off, saved);
    case UpdateFrameCommand(t, colour, fn, marker, saved) => UpdateFrameRoundTrip(st, t, colour, fn, marker, saved);
    case AddMarkerCommand(at, name, answer, saved) => AddMarkerRoundTrip(st, at, name, answer, saved);
  }

  /** Redo after that undo runs the command again to the same data and the same saved state. */
  lemma RedoAfterUndo(st: Store, cmd: Command)
    requires Tidy(st)
    ensures var out := Executed(st, cmd);
      out.Done? ==> Executed(Undone(out.store, out.cmd), out.cmd) == out
  {
    UndoAfterExecute(st, cmd);
  }

  // ---------------------------------------------------------------------
  // Commands acting on the data manager and the clipboard
  // ---------------------------------------------------------------------

  /** The saved state a command undoes from keeps ten channels per row. */
  ghost predicate CommandOk(cmd: Command)
  {
    match cmd
    case DeleteCommand(_, _, deleted) => deleted.Some? ==> AllWellFormed(deleted.value)
    case CopyCommand(_, _, previous) => previous.Some? ==> AllWellFormed(previous.value)
    case CutCommand(_, _, cut, previous) =>
      (cut.Some? ==> AllWellFormed(cut.value)) && (previous.Some? ==> AllWellFormed(previous.value))
    case OffsetCommand(_, _, _, saved) =>
      saved.Some? ==> AllWellFormed(saved.value.moved) && AllWellFormed(saved.value.overwritten)
    case UpdateFrameCommand(_, _, _, _, saved) => saved.Some? ==> |saved.value.channels| == NumChannels
    case AddMarkerCommand(_, _, _, _) => true
  }

  /**
   * Whether undoing the command pastes rows back: a delete or a cut that
   * removed rows, or an offset that moved some.  On a table without
   * columns that paste raises.
   */
  predicate PastesOnUndo(cmd: Command)
  {
    match cmd
    case DeleteCommand(_, _, deleted) => deleted.Some? && deleted.value != []
    case CutCommand(_, _, cut, _) => cut.Some? && cut.value != []
    case OffsetCommand(_, _, _, saved) => saved.Some? && saved.value.moved != []
    case _ => false
  }

  /** What a data manager and a clipboard hold together. */
  function Snapshot(data: DataManager, clip: ClipboardManager): Store
    reads data, clip
  {
    Store(data.frames, clip.frames, clip.sourceType)
  }

  /**
   * `command.execute()`: raises, changing nothing, exactly when `Executed`
   * does; otherwise the data and the clipboard end as `Executed` says and
   * the command returned carries its saved state.
   */
  method ExecuteCommand(cmd: Command, data: DataManager, clip: ClipboardManager) returns (raised: bool, done: Command)
    requires data.Valid() && AllWellFormed(clip.frames)
    modifies data, clip
    ensures data.Valid() && AllWellFormed(clip.frames) && data.hasColumns == old(data.hasColumns)
    ensures var out := Executed(old(Snapshot(data, clip)), cmd);
      if out.Raised? then raised && Snapshot(data, clip) == old(Snapshot(data, clip))
      else !raised && Snapshot(data, clip) == out.store && done == out.cmd && CommandOk(done)
  {
    match cmd
    case DeleteCommand(s, e, _) =>
      var w := Within(data.frames, s, e);
      if w == [] {
        return true, cmd;
      }
      WithinWellFormed(data.frames, s, e);
      var ok := data.DeleteSegment(s, e);
      return false, DeleteCommand(s, e, Some(w));
    case CopyCommand(s, e, _) =>
      var previous := clip.frames;
      var w := Within(data.frames, s, e);
      if w == [] {
        return true, cmd;
      }
      WithinWellFormed(data.frames, s, e);
      clip.SetClipboard(w);
      return false, CopyCommand(s, e, Some(previous));
    case CutCommand(s, e, _, _) =>
      var w := Within(data.frames, s, e);
      if w == [] {
        return true, cmd;
      }
      WithinWellFormed(data.frames, s, e);
      var previous := clip.frames;
      clip.SetClipboard(w);
      var ok := data.DeleteSegment(s, e);
      return false, CutCommand(s, e, Some(w), Some(previous));
    case OffsetCommand(s, e, off, _) =>
      var moved := Within(data.frames, s, e);
      if moved == [] {
        return true, cmd;
      }
      WithinWellFormed(data.frames, s, e);
      var first := moved[0].time;
      var ok := data.DeleteSegment(s, e);
      var overwritten := Within(data.frames, Landing(first, off), LandingEnd(first, off, moved));
      WithinWellFormed(data.frames, Landing(first, off), LandingEnd(first, off, moved));
      var raisedPaste;
      ok, raisedPaste := data.PasteFrames(Landing(first, off), moved);
      return false, OffsetCommand(s, e, off, Some(OffsetSaved(moved, first, overwritten)));
    case UpdateFrameCommand(t, colour, fn, marker, _) =>
      var target := UpdateTarget(data.frames, t);
      if target.None? {
        return true, cmd;
      }
      var i := target.value;
      var row := data.frames[i];
      var kept: seq<Channel> := [];
      for c := 0 to NumChannels
        invariant kept == row.channels[..c]
      {
        kept := kept + [row.channels[c]];
      }
      assert kept == row.channels;
      var channels := row.channels;
      for c := 0 to NumChannels
        invariant |channels| == NumChannels
        invariant forall k :: 0 <= k < c ==> channels[k] == Channel(fn, colour.r, colour.g, colour.b)
      {
        channels := channels[c := Channel(fn, colour.r, colour.g, colour.b)];
      }
      assert channels == Uniform(colour, fn);
      var edited := row.(channels := channels, marker := if marker.Some? then marker.value else row.marker);
      ReplaceRow(data, i, edited);
      return false, UpdateFrameCommand(t, colour, fn, marker, Some(FrameSaved(i, row.marker, kept)));
    case AddMarkerCommand(at, name, answer, _) =>
      if data.frames == [] {
        return true, cmd;
      }
      var chosen := MarkerName(name, answer);
      if chosen == "" {
        return true, cmd;
      }
      var i := NearestIndex(data.frames, at);
      var previous := data.frames[i].marker;
      ReplaceRow(data, i, data.frames[i].(marker := chosen));
      return false, AddMarkerCommand(at, Some(chosen), answer, Some(MarkerSaved(i, previous)));
  }

  /**
   * `command.undo()`: the data and the clipboard end as `Undone` says,
   * except that an undo that pastes into a table without columns raises
   * before changing anything.
   */
  method UndoCommand(cmd: Command, data: DataManager, clip: ClipboardManager) returns (raised: bool)
    requires data.Valid() && AllWellFormed(clip.frames) && CommandOk(cmd)
    modifies data, clip
    ensures data.Valid() && AllWellFormed(clip.frames) && data.hasColumns == old(data.hasColumns)
    ensures raised <==> !old(data.hasColumns) && PastesOnUndo(cmd)
    ensures raised ==> Snapshot(data, clip) == old(Snapshot(data, clip))
    ensures !raised ==> Snapshot(data, clip) == Undone(old(Snapshot(data, clip)), cmd)
  {
    raised := false;
    match cmd
    case DeleteCommand(_, _, deleted) =>
      if deleted.Some? {
        raised := RestoreRows(deleted.value, data);
      }
    case CopyCommand(_, _, previous) =>
      if previous.Some? {
        clip.SetClipboard(previous.value);
      }
    case CutCommand(_, _, cut, previous) =>
      if cut.Some? {
        raised := RestoreRows(cut.value, data);
        if !raised && previous.Some? {
          clip.SetClipboard(previous.value);
        }
      }
    case OffsetCommand(_, _, off, saved) =>
      if saved.Some? {
        raised := UndoMove(off, saved.value, data);
      }
    case UpdateFrameCommand(_, _, _, _, saved) =>
      if saved.Some? && saved.value.index < |data.frames| {
        var i := saved.value.index;
        ReplaceRow(data, i, data.frames[i].(marker := saved.value.marker, channels := saved.value.channels));
      }
    case AddMarkerCommand(_, _, _, saved) =>
      if saved.Some? && saved.value.index < |data.frames| {
        var i := saved.value.index;
        ReplaceRow(data, i, data.frames[i].(marker := saved.value.marker));
      }
  }

  /**
   * Pastes saved rows back at their earliest time (`paste_df(df.min(), df)`);
   * none is a no-op, and rows into a table without columns raise.
   */
  method RestoreRows(saved: seq<Keyframe>, data: DataManager) returns (raised: bool)
    requires data.Valid() && AllWellFormed(saved)
    modifies data
    ensures data.Valid() && data.hasColumns == old(data.hasColumns)
    ensures raised <==> saved != [] && !old(data.hasColumns)
    ensures raised ==> data.frames == old(data.frames)
    ensures !raised ==> data.frames == Restore(old(data.frames), saved)
  {
    raised := false;
    if saved != [] {
      var ok;
      ok, raised := data.PasteFrames(MinTime(saved), saved);
    }
  }

  /** Writes one row's marker or channels in place (`main_df.loc[i, ...] = ...`). */
  method ReplaceRow(data: DataManager, i: nat, k: Keyframe)
    requires data.Valid() && i < |data.frames| && WellFormed(k)
    requires k.time == data.frames[i].time && k.frameId == data.frames[i].frameId
    modifies data
    ensures data.Valid() && data.hasColumns == old(data.hasColumns)
    ensures data.frames == old(data.frames)[i := k]
  {
    SameSkeleton(data.frames, i, k);
    data.frames := data.frames[i := k];
  }

  /**
   * `OffsetCommand.undo()`, corrected: clear the block's new place, paste
   * back what the move overwrote, then paste the block at its first time.
   * On a table without columns (which then has no rows) the clearing
   * does nothing and the first paste raises.
   */
  method UndoMove(off: real, saved: OffsetSaved, data: DataManager) returns (raised: bool)
    requires data.Valid() && AllWellFormed(saved.moved) && AllWellFormed(saved.overwritten)
    modifies data
    ensures data.Valid() && data.hasColumns == old(data.hasColumns)
    ensures raised <==> saved.moved != [] && !old(data.hasColumns)
    ensures raised ==> data.frames == old(data.frames)
    ensures !raised ==> data.frames == OffsetUndo(old(data.frames), off, saved)
  {
    if saved.moved == [] {
      return false;
    }
    var first, moved := saved.originalFirst, saved.moved;
    ghost var cleared := Delete(data.frames, Landing(first, off), LandingEnd(first, off, moved));
    var ok := data.DeleteSegment(Landing(first, off), LandingEnd(first, off, moved));
    if saved.overwritten != [] {
      ok, raised := data.PasteFrames(MinTime(saved.overwritten), saved.overwritten);
      if raised {
        return;
      }
    }
    assert data.frames == Restore(cleared, saved.overwritten);
    ok, raised := data.PasteFrames(first, moved);
  }

  /** Replacing a row by one with the same time, number and channel count keeps a table tidy. */
  lemma SameSkeleton(s: seq<Keyframe>, i: nat, k: Keyframe)
    requires i < |s| && k.time == s[i].time && k.frameId == s[i].frameId && WellFormed(k)
    requires SortedByTime(s) && AllWellFormed(s)
    ensures SortedByTime(s[i := k]) && AllWellFormed(s[i := k])
    ensures NumberedFromOne(s) ==> NumberedFromOne(s[i := k])
  {
    var r := s[i := k];
    forall a, b | 0 <= a < b < |r| ensures r[a].time <= r[b].time {
      assert r[a].time == s[a].time && r[b].time == s[b].time;
    }
  }

  /** Every command on a stack can be undone from its saved state. */
  ghost predicate AllOk(cmds: seq<Command>)
  {
    forall i :: 0 <= i < |cmds| ==> CommandOk(cmds[i])
  }

  /** `UndoManager`: the commands done (undo stack) and undone (redo stack), most recent last. */
  class UndoManager {
    var undoStack: seq<Command>
    var redoStack: seq<Command>

    ghost predicate Valid()
      reads this
    {
      AllOk(undoStack) && AllOk(redoStack)
    }

    constructor()
      ensures Valid() && undoStack == [] && redoStack == []
    {
      undoStack := [];
      redoStack := [];
    }

    /**
     * Runs the command; on success pushes it on the undo stack and clears
     * the redo stack.  A command that raises changes neither the data nor
     * the stacks.
     */
    method Execute(cmd: Command, data: DataManager, clip: ClipboardManager) returns (raised: bool)
      requires Valid() && data.Valid() && AllWellFormed(clip.frames)
      modifies this, data, clip
      ensures Valid() && data.Valid() && AllWellFormed(clip.frames)
      ensures var out := Executed(old(Snapshot(data, clip)), cmd);
        if out.Raised? then raised && Snapshot(data, clip) == old(Snapshot(data, clip)) &&
                            undoStack == old(undoStack) && redoStack == old(redoStack)
        else !raised && Snapshot(data, clip) == out.store && undoStack == old(undoStack) + [out.cmd] && redoStack == []
    {
      var done;
      raised, done := ExecuteCommand(cmd, data, clip);
      if !raised {
        undoStack := undoStack + [done];
        redoStack := [];
      }
    }

    /**
     * Pops the last command done, undoes it and pushes it on the redo
     * stack; nothing to undo is a no-op.  An undo that raises has already
     * popped its command, which is then on neither stack.
     */
    method Undo(data: DataManager, clip: ClipboardManager) returns (raised: bool)
      requires Valid() && data.Valid() && AllWellFormed(clip.frames)
      modifies this, data, clip
      ensures Valid() && data.Valid() && AllWellFormed(clip.frames) && data.hasColumns == old(data.hasColumns)
      ensures old(undoStack) == [] ==>
        !raised && Snapshot(data, clip) == old(Snapshot(data, clip)) && undoStack == [] && redoStack == old(redoStack)
      ensures old(undoStack) != [] ==>
        var top := old(undoStack)[|old(undoStack)| - 1];
        undoStack == old(undoStack)[..|old(undoStack)| - 1] &&
        (raised <==> !old(data.hasColumns) && PastesOnUndo(top)) &&
        (raised ==> Snapshot(data, clip) == old(Snapshot(data, clip)) && redoStack == old(redoStack)) &&
        (!raised ==> Snapshot(data, clip) == Undone(old(Snapshot(data, clip)), top) && redoStack == old(redoStack) + [top])
    {
      if undoStack == [] {
        return false;
      }
      var top := undoStack[|undoStack| - 1];
      undoStack := undoStack[..|undoStack| - 1];
      raised := UndoCommand(top, data, clip);
      if !raised {
        redoStack := redoStack + [top];
      }
    }

    /**
     * Pops the last command undone and runs it again, pushing it on the
     * undo stack.  Nothing to redo is a no-op; a command that raises is
     * dropped from both stacks.
     */
    method Redo(data: DataManager, clip: ClipboardManager) returns (raised: bool)
      requires Valid() && data.Valid() && AllWellFormed(clip.frames)
      modifies this, data, clip
      ensures Valid() && data.Valid() && AllWellFormed(clip.frames)
      ensures old(redoStack) == [] ==>
        !raised && Snapshot(data, clip) == old(Snapshot(data, clip)) && undoStack == old(undoStack) && redoStack == []
      ensures old(redoStack) != [] ==>
        var top := old(redoStack)[|old(redoStack)| - 1];
        var out := Executed(old(Snapshot(data, clip)), top);
        redoStack == old(redoStack)[..|old(redoStack)| - 1] &&
        (raised <==> out.Raised?) &&
        (out.Raised? ==> Snapshot(data, clip) == old(Snapshot(data, clip)) && undoStack == old(undoStack)) &&
        (out.Done? ==> Snapshot(data, clip) == out.store && undoStack == old(undoStack) + [out.cmd])
    {
      if redoStack == [] {
        return false;
      }
      var top := redoStack[|redoStack| - 1];
      redoStack := redoStack[..|redoStack| - 1];
      var done;
      raised, done := ExecuteCommand(top, data, clip);
      if !raised {
        undoStack := undoStack + [done];
      }
    }
  }
}
