/**
 * The timeline's tool state machine: a selection tool and a hand (pan)
 * tool, and a manager that routes mouse events to the active one, with
 * the middle button borrowing the hand tool for the length of a drag.
 *
 * What the tools ask the timeline widget (the playhead time, whether it
 * is playing, whether a time is inside the selection, which region edge
 * is under the mouse, the snapped time, the view and plot widths) is
 * passed in as a `Timeline` value, and what they ask the widget to do is
 * returned as an `Effect`.  The selected region is a small object the
 * tools write.
 */
module TimelineTools {
  import opened Common

  datatype ToolType = Selection | Hand

  datatype Button = LeftButton | MiddleButton | RightButton | OtherButton

  /** The selection tool's drag modes ('region_select', 'region_start', 'region_end', 'offset'). */
  datatype DragMode = RegionSelect | RegionStartDrag | RegionEndDrag | OffsetDrag

  datatype Event = Event(button: Button, shift: bool, ctrl: bool, time: real, screenX: real)

  /** The timeline's answers to the tools' queries at the moment of the event. */
  datatype Timeline = Timeline(
    playhead: real, playing: bool, inSelection: bool, edge: Option<DragMode>,
    snapped: real, viewWidth: real, plotWidth: real)

  /** A region edge lookup answers 'region_start', 'region_end' or nothing. */
  predicate EdgeAnswer(tl: Timeline)
  {
    tl.edge == None || tl.edge == Some(RegionStartDrag) || tl.edge == Some(RegionEndDrag)
  }

  /** The call a tool makes on the timeline widget, if any. */
  datatype Effect =
    | NoEffect
    | ContextMenu(at: real)
    | StartOffsetDrag(at: real)
    | MovePlayhead(to: real)
    | UpdateRegionEnd(to: real)
    | ResizeRegionStart(to: real)
    | UpdateOffsetDrag(offset: real)
    | FinishOffsetDrag
    | FinishRegionSelection
    | PanView(dx: real)

  /** The selected time range. */
  class RegionItem {
    var start: real
    var end: real

    constructor(s: real, e: real)
      ensures start == s && end == e
    {
      start, end := s, e;
    }
  }

  // ---------------------------------------------------------------------
  // Region rules
  // ---------------------------------------------------------------------

  /**
   * Shift-click: with a selection wider than 1 ms the nearer edge moves
   * to the click (the start below the midpoint, else the end); with none
   * the region runs between the playhead and the click.
   */
  function ShiftClickRegion(start: real, end: real, playhead: real, t: real): (r: (real, real))
    ensures start <= end ==> r.0 <= r.1
    ensures Abs(end - start) > 1.0 && t < (start + end) / 2.0 ==> r == (t, end)
    ensures Abs(end - start) > 1.0 && t >= (start + end) / 2.0 ==> r == (start, t)
    ensures Abs(end - start) <= 1.0 ==> r.0 <= r.1 && {r.0, r.1} == {playhead, t}
  {
    if Abs(end - start) > 1.0 then
      var mid := (start + end) / 2.0;
      if t < mid then (t, end) else (start, t)
    else (Min(playhead, t), Max(playhead, t))
  }

  /** A region-select drag spans the press time and the mouse, in order. */
  function DragRegion(anchor: real, t: real): (r: (real, real))
    ensures r.0 <= r.1 && {r.0, r.1} == {anchor, t}
  {
    (Min(anchor, t), Max(anchor, t))
  }

  // ---------------------------------------------------------------------
  // Selection tool
  // ---------------------------------------------------------------------

  /** The selection tool's drag state: the mode and where the drag started. */
  datatype Drag = Drag(mode: Option<DragMode>, start: Option<real>)

  /** An offset drag always knows where it started. */
  predicate ValidDrag(d: Drag)
  {
    d.mode == Some(OffsetDrag) ==> d.start.Some?
  }

  /** What one event does to the selection tool: handled, the widget call, the new drag state and region. */
  datatype Step = Step(handled: bool, effect: Effect, drag: Drag, region: (real, real))

  /**
   * `on_mouse_press`: left click extends the selection with shift,
   * starts an offset drag with ctrl inside the selection, grabs a region
   * edge, or else starts a region-select drag and moves the playhead to
   * the snapped time when not playing; right click opens the context menu.
   */
  function SelectionPress(d: Drag, region: (real, real), ev: Event, tl: Timeline): (s: Step)
    ensures s.handled <==> ev.button == LeftButton || ev.button == RightButton
    ensures ev.button == LeftButton && ev.shift ==>
      s.region == ShiftClickRegion(region.0, region.1, tl.playhead, ev.time) && s.drag == d && s.effect == NoEffect
    ensures ev.button == LeftButton && !ev.shift && ev.ctrl && tl.inSelection ==>
      s.drag == Drag(Some(OffsetDrag), Some(ev.time)) && s.effect == StartOffsetDrag(ev.time)
    ensures ev.button == LeftButton && !ev.shift && !(ev.ctrl && tl.inSelection) && tl.edge.Some? ==>
      s.drag == Drag(tl.edge, d.start) && s.effect == NoEffect
    ensures ev.button == LeftButton && !ev.shift && !(ev.ctrl && tl.inSelection) && tl.edge.None? ==>
      s.drag == Drag(Some(RegionSelect), Some(ev.time)) &&
      s.effect == (if tl.playing then NoEffect else MovePlayhead(tl.snapped))
    ensures ev.button == RightButton ==> s.effect == ContextMenu(ev.time)
    ensures !(ev.button == LeftButton && ev.shift) ==> s.region == region
    ensures ev.button != LeftButton ==> s.drag == d
    ensures ev.button != LeftButton && ev.button != RightButton ==> s.effect == NoEffect
    ensures ValidDrag(d) && EdgeAnswer(tl) ==> ValidDrag(s.drag)
  {
    if ev.button == LeftButton then
      if ev.shift then Step(true, NoEffect, d, ShiftClickRegion(region.0, region.1, tl.playhead, ev.time))
      else if ev.ctrl && tl.inSelection then
        Step(true, StartOffsetDrag(ev.time), Drag(Some(OffsetDrag), Some(ev.time)), region)
      else if tl.edge.Some? then Step(true, NoEffect, Drag(tl.edge, d.start), region)
      else Step(true, if tl.playing then NoEffect else MovePlayhead(tl.snapped), Drag(Some(RegionSelect), Some(ev.time)), region)
    else if ev.button == RightButton then Step(true, ContextMenu(ev.time), d, region)
    else Step(false, NoEffect, d, region)
  }

  /**
   * `on_mouse_move`: a region-select drag rewrites the region between
   * its anchor and the mouse; an edge drag moves that edge to the
   * mouse, snapped unless shift is held; an offset drag reports the
   * distance from its start.  With no drag only the cursor changes.
   */
  function SelectionMove(d: Drag, region: (real, real), ev: Event, tl: Timeline): (s: Step)
    requires ValidDrag(d)
    ensures s.drag == d
    ensures s.handled <==> d.mode.Some?
    ensures d.mode == Some(RegionSelect) && d.start.Some? ==>
      s.region == DragRegion(d.start.value, ev.time) && s.effect == NoEffect
    ensures !(d.mode == Some(RegionSelect) && d.start.Some?) ==> s.region == region
    ensures d.mode == Some(RegionEndDrag) ==> s.effect == UpdateRegionEnd(if ev.shift then ev.time else tl.snapped)
    ensures d.mode == Some(RegionStartDrag) ==> s.effect == ResizeRegionStart(if ev.shift then ev.time else tl.snapped)
    ensures d.mode == Some(OffsetDrag) ==> s.effect == UpdateOffsetDrag(ev.time - d.start.value)
    ensures d.mode == None || d.mode == Some(RegionSelect) ==> s.effect == NoEffect
  {
    var t := if ev.shift then ev.time else tl.snapped;
    match d.mode
    case None => Step(false, NoEffect, d, region)
    case Some(RegionSelect) =>
      Step(true, NoEffect, d, if d.start.Some? then DragRegion(d.start.value, ev.time) else region)
    case Some(RegionEndDrag) => Step(true, UpdateRegionEnd(t), d, region)
    case Some(RegionStartDrag) => Step(true, ResizeRegionStart(t), d, region)
    case Some(OffsetDrag) => Step(true, UpdateOffsetDrag(ev.time - d.start.value), d, region)
  }

  /** `on_mouse_release`: an offset drag is finished, an edge drag finishes the region selection, anything else asks nothing. */
  function ReleaseEffect(mode: Option<DragMode>): (e: Effect)
    ensures e == FinishOffsetDrag <==> mode == Some(OffsetDrag)
    ensures e == FinishRegionSelection <==> mode == Some(RegionStartDrag) || mode == Some(RegionEndDrag)
    ensures e == NoEffect <==> mode == None || mode == Some(RegionSelect)
  {
    match mode
    case Some(OffsetDrag) => FinishOffsetDrag
    case Some(RegionStartDrag) => FinishRegionSelection
    case Some(RegionEndDrag) => FinishRegionSelection
    case _ => NoEffect
  }

  class SelectionTool {
    var isActive: bool
    var dragMode: Option<DragMode>
    var dragStart: Option<real>
    var snapEnabled: bool

    function DragState(): Drag
      reads this
    {
      Drag(dragMode, dragStart)
    }

    predicate Valid()
      reads this
    {
      ValidDrag(DragState())
    }

    constructor()
      ensures Valid() && !isActive && dragMode == None && dragStart == None && snapEnabled
    {
      isActive := false;
      dragMode := None;
      dragStart := None;
      snapEnabled := true;
    }

    method Press(ev: Event, tl: Timeline, region: RegionItem) returns (handled: bool, effect: Effect)
      requires Valid() && EdgeAnswer(tl)
      modifies this, region
      ensures Valid() && isActive == old(isActive) && snapEnabled == old(snapEnabled)
      ensures Step(handled, effect, DragState(), (region.start, region.end)) ==
              SelectionPress(old(DragState()), old((region.start, region.end)), ev, tl)
    {
      effect := NoEffect;
      if ev.button == LeftButton {
        if ev.shift {
          var r := ShiftClickRegion(region.start, region.end, tl.playhead, ev.time);
          region.start, region.end := r.0, r.1;
          return true, NoEffect;
        } else if ev.ctrl && tl.inSelection {
          dragMode := Some(OffsetDrag);
          dragStart := Some(ev.time);
          return true, StartOffsetDrag(ev.time);
        }
        if tl.edge.Some? {
          dragMode := tl.edge;
          return true, NoEffect;
        }
        dragMode := Some(RegionSelect);
        dragStart := Some(ev.time);
        if !tl.playing {
          effect := MovePlayhead(tl.snapped);
        }
        return true, effect;
      } else if ev.button == RightButton {
        return true, ContextMenu(ev.time);
      }
      return false, NoEffect;
    }

    method Move(ev: Event, tl: Timeline, region: RegionItem) returns (handled: bool, effect: Effect)
      requires Valid()
      modifies region
      ensures Step(handled, effect, DragState(), (region.start, region.end)) ==
              SelectionMove(DragState(), old((region.start, region.end)), ev, tl)
    {
      var t := if ev.shift then ev.time else tl.snapped;
      match dragMode {
        case None =>
          return false, NoEffect;
        case Some(RegionSelect) =>
          if dragStart.Some? {
            var r := DragRegion(dragStart.value, ev.time);
            region.start, region.end := r.0, r.1;
          }
          return true, NoEffect;
        case Some(RegionEndDrag) =>
          return true, UpdateRegionEnd(t);
        case Some(RegionStartDrag) =>
          return true, ResizeRegionStart(t);
        case Some(OffsetDrag) =>
          return true, UpdateOffsetDrag(ev.time - dragStart.value);
      }
    }

    /** `on_mouse_release`: finishes an offset or edge drag, then forgets the drag. */
    method Release() returns (handled: bool, effect: Effect)
      requires Valid()
      modifies this
      ensures Valid() && handled && isActive == old(isActive)
      ensures DragState() == Drag(None, None) && snapEnabled
      ensures effect == ReleaseEffect(old(dragMode))
    {
      effect := NoEffect;
      if dragMode == Some(OffsetDrag) {
        effect := FinishOffsetDrag;
      } else if dragMode == Some(RegionStartDrag) || dragMode == Some(RegionEndDrag) {
        effect := FinishRegionSelection;
      }
      dragMode := None;
      dragStart := None;
      snapEnabled := true;
      handled := true;
    }
  }

  // ---------------------------------------------------------------------
  // Hand tool
  // ---------------------------------------------------------------------

  /** Screen pixels to view time: the pixel distance scaled by view width over plot width, or 0 with no plot width. */
  function PanDelta(screenDelta: real, viewWidth: real, plotWidth: real): (dx: real)
    ensures plotWidth <= 0.0 ==> dx == 0.0
    ensures plotWidth > 0.0 ==> dx * plotWidth == screenDelta * viewWidth
  {
    if plotWidth > 0.0 then screenDelta * viewWidth / plotWidth else 0.0
  }

  /** The hand tool's pan state: whether it is panning and the last screen x. */
  datatype Pan = Pan(panning: bool, startX: Option<real>)

  /** What one event does to the hand tool. */
  datatype HandStep = HandStep(handled: bool, effect: Effect, pan: Pan)

  /** A left or middle press starts panning from the mouse's screen position. */
  function HandPress(p: Pan, ev: Event): (s: HandStep)
    ensures s.handled <==> ev.button == LeftButton || ev.button == MiddleButton
    ensures s.handled ==> s.pan == Pan(true, Some(ev.screenX))
    ensures !s.handled ==> s.pan == p
    ensures s.effect == NoEffect
  {
    if ev.button == LeftButton || ev.button == MiddleButton then HandStep(true, NoEffect, Pan(true, Some(ev.screenX)))
    else HandStep(false, NoEffect, p)
  }

  /** While panning, the view moves by the mouse's travel since the last move, in view units. */
  function HandMove(p: Pan, ev: Event, tl: Timeline): (s: HandStep)
    ensures s.handled <==> p.panning && p.startX.Some?
    ensures s.handled ==> s.effect == PanView(PanDelta(ev.screenX - p.startX.value, tl.viewWidth, tl.plotWidth)) &&
                          s.pan == Pan(true, Some(ev.screenX))
    ensures !s.handled ==> s.effect == NoEffect && s.pan == p
  {
    if p.panning && p.startX.Some? then
      HandStep(true, PanView(PanDelta(ev.screenX - p.startX.value, tl.viewWidth, tl.plotWidth)), Pan(true, Some(ev.screenX)))
    else HandStep(false, NoEffect, p)
  }

  /** A release ends a pan and forgets its start; with no pan it is not handled. */
  function HandRelease(p: Pan): (s: HandStep)
    ensures s.handled <==> p.panning
    ensures !s.pan.panning && s.effect == NoEffect
    ensures s.handled ==> s.pan.startX == None
    ensures !s.handled ==> s.pan == p
  {
    if p.panning then HandStep(true, NoEffect, Pan(false, None)) else HandStep(false, NoEffect, p)
  }

  class HandTool {
    var isActive: bool
    var isPanning: bool
    var panStartX: Option<real>

    function PanState(): Pan
      reads this
    {
      Pan(isPanning, panStartX)
    }

    constructor()
      ensures !isActive && !isPanning && panStartX == None
    {
      isActive := false;
      isPanning := false;
      panStartX := None;
    }

    method Press(ev: Event) returns (handled: bool)
      modifies this
      ensures HandStep(handled, NoEffect, PanState()) == HandPress(old(PanState()), ev)
      ensures isActive == old(isActive)
    {
      if ev.button == LeftButton || ev.button == MiddleButton {
        isPanning := true;
        panStartX := Some(ev.screenX);
        return true;
      }
      return false;
    }

    method Move(ev: Event, tl: Timeline) returns (handled: bool, effect: Effect)
      modifies this
      ensures HandStep(handled, effect, PanState()) == HandMove(old(PanState()), ev, tl)
      ensures isActive == old(isActive)
    {
      if isPanning && panStartX.Some? {
        effect := PanView(PanDelta(ev.screenX - panStartX.value, tl.viewWidth, tl.plotWidth));
        panStartX := Some(ev.screenX);
        return true, effect;
      }
      return false, NoEffect;
    }

    method Release() returns (handled: bool)
      modifies this
      ensures HandStep(handled, NoEffect, PanState()) == HandRelease(old(PanState()))
      ensures isActive == old(isActive)
    {
      if isPanning {
        isPanning := false;
        panStartX := None;
        return true;
      }
      return false;
    }
  }

  // ---------------------------------------------------------------------
  // Tool manager
  // ---------------------------------------------------------------------

  class ToolManager {
    const selection: SelectionTool
    const hand: HandTool
    var currentTool: ToolType
    var tempTool: Option<ToolType>

    ghost predicate Valid()
      reads this, selection
    {
      selection.Valid() && (tempTool == None || tempTool == Some(Hand))
    }

    /** The selection tool is current and active; there is no temporary tool. */
    constructor()
      ensures Valid() && currentTool == Selection && tempTool == None && ActiveTool() == Selection
      ensures selection.isActive && !hand.isActive
      ensures fresh(selection) && fresh(hand)
    {
      var s := new SelectionTool();
      var h := new HandTool();
      selection, hand := s, h;
      currentTool := Selection;
      tempTool := None;
      new;
      selection.isActive := true;
    }

    /** `active_tool`: the temporary tool if one is set, else the current one. */
    function ActiveTool(): (t: ToolType)
      reads this
      ensures tempTool.Some? ==> t == tempTool.value
      ensures tempTool.None? ==> t == currentTool
    {
      if tempTool.Some? then tempTool.value else currentTool
    }

    function IsActive(t: ToolType): bool
      reads this, selection, hand
    {
      if t == Selection then selection.isActive else hand.isActive
    }

    /** `set_tool`: switching to another type deactivates the old tool and activates the new; the same type does nothing. */
    method SetTool(t: ToolType)
      requires Valid()
      modifies selection, hand, this
      ensures Valid() && currentTool == t && tempTool == old(tempTool)
      ensures t == old(currentTool) ==> selection.isActive == old(selection.isActive) && hand.isActive == old(hand.isActive)
      ensures t != old(currentTool) ==> IsActive(t) && !IsActive(old(currentTool))
      ensures selection.dragMode == old(selection.dragMode) && selection.dragStart == old(selection.dragStart)
      ensures hand.isPanning == old(hand.isPanning) && hand.panStartX == old(hand.panStartX)
    {
      if t != currentTool {
        if currentTool == Selection { selection.isActive := false; } else { hand.isActive := false; }
        currentTool := t;
        if t == Selection { selection.isActive := true; } else { hand.isActive := true; }
      }
    }

    /**
     * `on_mouse_press`: the middle button always makes the hand the
     * temporary tool, activates it and hands it the press; any other
     * press goes to the active tool.
     */
    method Press(ev: Event, tl: Timeline, region: RegionItem) returns (handled: bool, effect: Effect)
      requires Valid() && EdgeAnswer(tl)
      modifies this, selection, hand, region
      ensures Valid() && currentTool == old(currentTool) && selection.isActive == old(selection.isActive)
      ensures ev.button == MiddleButton ==>
        tempTool == Some(Hand) && hand.isActive && effect == NoEffect &&
        HandStep(handled, effect, hand.PanState()) == HandPress(old(hand.PanState()), ev)
      ensures ev.button != MiddleButton ==> tempTool == old(tempTool) && hand.isActive == old(hand.isActive)
      ensures ev.button != MiddleButton && old(ActiveTool()) == Hand ==>
        HandStep(handled, effect, hand.PanState()) == HandPress(old(hand.PanState()), ev)
      ensures ev.button == MiddleButton || old(ActiveTool()) == Hand ==>
        selection.DragState() == old(selection.DragState()) &&
        region.start == old(region.start) && region.end == old(region.end)
      ensures ev.button != MiddleButton && old(ActiveTool()) == Selection ==>
        Step(handled, effect, selection.DragState(), (region.start, region.end)) ==
        SelectionPress(old(selection.DragState()), old((region.start, region.end)), ev, tl) &&
        hand.PanState() == old(hand.PanState())
    {
      if ev.button == MiddleButton {
        tempTool := Some(Hand);
        hand.isActive := true;
        handled := hand.Press(ev);
        return handled, NoEffect;
      }
      if ActiveTool() == Hand {
        handled := hand.Press(ev);
        effect := NoEffect;
      } else {
        handled, effect := selection.Press(ev, tl, region);
      }
    }

    /** `on_mouse_move`: forwarded to the active tool. */
    method Move(ev: Event, tl: Timeline, region: RegionItem) returns (handled: bool, effect: Effect)
      requires Valid()
      modifies hand, region
      ensures Valid() && hand.isActive == old(hand.isActive)
      ensures ActiveTool() == Hand ==>
        HandStep(handled, effect, hand.PanState()) == HandMove(old(hand.PanState()), ev, tl) &&
        region.start == old(region.start) && region.end == old(region.end)
      ensures ActiveTool() == Selection ==>
        Step(handled, effect, selection.DragState(), (region.start, region.end)) ==
        SelectionMove(selection.DragState(), old((region.start, region.end)), ev, tl) &&
        hand.PanState() == old(hand.PanState())
    {
      if ActiveTool() == Hand {
        handled, effect := hand.Move(ev, tl);
      } else {
        handled, effect := selection.Move(ev, tl, region);
      }
    }

    /**
     * `on_mouse_release`: the active tool gets the release first; the
     * temporary tool is deactivated and cleared only on a middle release,
     * which switches the hand off even when it is also the current tool.
     */
    method Release(ev: Event) returns (handled: bool, effect: Effect)
      requires Valid()
      modifies this, selection, hand
      ensures Valid() && currentTool == old(currentTool)
      ensures old(tempTool).Some? && ev.button == MiddleButton ==> tempTool == None && !hand.isActive
      ensures !(old(tempTool).Some? && ev.button == MiddleButton) ==> tempTool == old(tempTool) && hand.isActive == old(hand.isActive)
      ensures selection.isActive == old(selection.isActive)
      ensures old(ActiveTool()) == Hand ==>
        HandStep(handled, effect, hand.PanState()) == HandRelease(old(hand.PanState())) &&
        selection.DragState() == old(selection.DragState()) && selection.snapEnabled == old(selection.snapEnabled)
      ensures old(ActiveTool()) == Selection ==>
        handled && effect == ReleaseEffect(old(selection.dragMode)) &&
        selection.DragState() == Drag(None, None) && selection.snapEnabled &&
        hand.PanState() == old(hand.PanState())
    {
      if ActiveTool() == Hand {
        handled := hand.Release();
        effect := NoEffect;
      } else {
        handled, effect := selection.Release();
      }
      if tempTool.Some? && ev.button == MiddleButton {
        hand.isActive := false;
        tempTool := None;
      }
    }
  }
}
