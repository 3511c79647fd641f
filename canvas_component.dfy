/**
  The whiteboard component's own handlers (frontend/src/components/Canvas.jsx) that combine
  the gesture hook with the component's state: wheel zoom with its clamp, applying a pan
  update, ending a pointer gesture, and the periodic eraser-trail cleanup.
 */
module CanvasComponent {
  import opened Records
  import opened CanvasUtils
  import opened ZoomControls
  import opened BoardState
  import opened CanvasEvents

  /** handleCanvasWheel: the scale moves by the wheel step and is clamped to the zoom range. */
  function WheelZoom(scale: real, delta: real): (r: real)
    ensures InRange(r)
    ensures InRange(scale + delta) ==> r == scale + delta
    ensures scale + delta < MinScale ==> r == MinScale
    ensures scale + delta > MaxScale ==> r == MaxScale
  {
    Max(MinScale, Min(MaxScale, scale + delta))
  }

  /**
    The trail cleanup run every 50 ms: expired points are dropped, and when none expired the
    very same trail is kept.
   */
  function CleanupTrail(trail: seq<TrailPoint>, now: int): (r: seq<TrailPoint>)
    ensures r == Recent(trail, now)
    ensures (forall i :: 0 <= i < |trail| ==> trail[i].timestamp > now - TrailLifetime) ==> r == trail
    ensures forall i :: 0 <= i < |r| ==> r[i].timestamp > now - TrailLifetime
  {
    var filtered := Recent(trail, now);
    if |filtered| == |trail| then trail else filtered
  }

  method HandleCanvasWheel(b: Board, deltaY: real)
    modifies b`scale
    ensures b.Valid()
    ensures b.scale == WheelZoom(old(b.scale), WheelDelta(deltaY))
  {
    var delta := WheelDelta(deltaY);
    b.scale := WheelZoom(b.scale, delta);
  }

  /** handleCanvasMouseMove: the pan changes only when the hook returns a pan update. */
  method HandleCanvasMouseMove(g: Gestures, e: PointerEvent, rect: Rect)
    requires g.board.Valid()
    modifies g`hasMoved, g`dragTimeoutPending
    modifies g.board`mousePosition, g.board`voiceNotes, g.board`panX, g.board`panY
    ensures old(g.isPanning) ==>
      g.board.panX == e.clientX - g.panStart.x && g.board.panY == e.clientY - g.panStart.y
      && unchanged(g) && unchanged(g.board`mousePosition, g.board`voiceNotes)
    ensures !old(g.isPanning) ==>
      g.board.panX == old(g.board.panX) && g.board.panY == old(g.board.panY)
      && g.PointerMoved(g.LogicalAt(e, rect))
  {
    var panUpdate := g.HandleMouseMove(e, rect);
    if panUpdate.Some? {
      g.board.panX := panUpdate.value.x;
      g.board.panY := panUpdate.value.y;
    }
  }

  /** handleCanvasMouseUp: the hook's release handler, then panning is switched off. */
  method HandleCanvasMouseUp(g: Gestures)
    modifies g`dragTimeoutPending, g`isPanning, g`draggingNote, g`dragOffset
    modifies g`dragStartTime, g`dragStartPos, g`hasMoved, g.board`sent
    ensures !g.isPanning && !g.dragTimeoutPending
    ensures !old(g.isPanning) && Truthy(old(g.draggingNote)) ==> g.NoteReleased()
    ensures old(g.isPanning) || !Truthy(old(g.draggingNote)) ==> g.DragKept()
  {
    g.HandleMouseUp();
    g.isPanning := false;
  }

  /** One tick of the trail-cleanup interval. */
  method TrailCleanupTick(g: Gestures, now: int)
    modifies g`eraserTrail
    ensures g.eraserTrail == CleanupTrail(old(g.eraserTrail), now)
  {
    g.eraserTrail := CleanupTrail(g.eraserTrail, now);
  }

  /** Anything that changes the scale: a wheel step or a zoom button. */
  datatype ViewInput = Wheel(deltaY: real) | Button(button: ZoomButton)

  /** The scale after a run of view inputs. */
  function ScaleAfter(scale: real, inputs: seq<ViewInput>): real
    decreases |inputs|
  {
    if inputs == [] then scale
    else
      var next := match inputs[0]
        case Wheel(deltaY) => WheelZoom(scale, WheelDelta(deltaY))
        case Button(button) => Click(button, scale, 0.0, 0.0).0;
      ScaleAfter(next, inputs[1..])
  }

  /** Starting in the zoom range, no run of wheel steps and button clicks ever leaves it. */
  lemma {:induction false} ScaleStaysInRange(scale: real, inputs: seq<ViewInput>)
    requires InRange(scale)
    ensures InRange(ScaleAfter(scale, inputs))
    decreases |inputs|
  {
    if inputs != [] {
      var next := match inputs[0]
        case Wheel(deltaY) => WheelZoom(scale, WheelDelta(deltaY))
        case Button(button) => Click(button, scale, 0.0, 0.0).0;
      ScaleStaysInRange(next, inputs[1..]);
    }
  }
}
