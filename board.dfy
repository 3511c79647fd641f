/**
  The state cells of the whiteboard component (frontend/src/components/Canvas.jsx): the view
  transform, the four collections, the current tool and style, the room-full flag, and the
  pointer position used to place a new voice note. Everything the client sends over its
  connection is appended to `sent`.
 */
module BoardState {
  import opened Records
  import opened CanvasUtils
  import opened ZoomControls

  datatype Tool = Hand | Pen | Text | Eraser | ShapeTool(kind: ShapeKind)

  /** The eraser diameter the component hands to the gesture handlers. */
  const EraserSize: real := 16.0

  /** What the local clear leaves: the voice notes only. */
  function LocallyCleared(c: Collections): Collections
  {
    c.(drawing := [], shapes := [], texts := [])
  }

  class Board {
    const userId: string
    var roomFull: bool
    var currentTool: Tool
    var drawingColor: string
    var strokeWidth: real
    var opacity: real
    var scale: real
    var panX: real
    var panY: real
    var drawingData: seq<Stroke>
    var shapes: seq<Shape>
    var textElements: seq<TextElement>
    var voiceNotes: seq<VoiceNote>
    var mousePosition: Point
    var sent: seq<Event>

    /** The scale stays within the zoom range. */
    ghost predicate Valid()
      reads this
    {
      InRange(scale)
    }

    function Canvas(): Collections
      reads this
    {
      Collections(drawingData, voiceNotes, shapes, textElements)
    }

    /** The initial render: pen tool, unit scale, no pan, nothing drawn, nothing sent. */
    constructor(userId: string)
      ensures Valid()
      ensures this.userId == userId && !roomFull && currentTool == Pen
      ensures drawingColor == "#000000" && strokeWidth == 2.0 && opacity == 100.0
      ensures scale == 1.0 && panX == 0.0 && panY == 0.0
      ensures Canvas() == Empty && mousePosition == Point(100.0, 100.0) && sent == []
    {
      this.userId := userId;
      roomFull := false;
      currentTool := Pen;
      drawingColor := "#000000";
      strokeWidth := 2.0;
      opacity := 100.0;
      scale := 1.0;
      panX := 0.0;
      panY := 0.0;
      drawingData := [];
      shapes := [];
      textElements := [];
      voiceNotes := [];
      mousePosition := Point(100.0, 100.0);
      sent := [];
    }

    /** clearCanvas: strokes, shapes and text are emptied; the voice notes stay. */
    method ClearCanvas()
      modifies this`drawingData, this`shapes, this`textElements
      ensures Canvas() == LocallyCleared(old(Canvas())) && sent == old(sent)
      ensures scale == old(scale) && panX == old(panX) && panY == old(panY)
      ensures roomFull == old(roomFull) && currentTool == old(currentTool)
      ensures drawingColor == old(drawingColor) && strokeWidth == old(strokeWidth) && opacity == old(opacity)
      ensures mousePosition == old(mousePosition)
    {
      drawingData := [];
      shapes := [];
      textElements := [];
    }

    /** handleClearCanvas: the local clear, then one `clear-canvas` to the relay. */
    method HandleClearCanvas()
      modifies this`drawingData, this`shapes, this`textElements, this`sent
      ensures Canvas() == LocallyCleared(old(Canvas()))
      ensures sent == old(sent) + [Event.ClearCanvas]
      ensures scale == old(scale) && panX == old(panX) && panY == old(panY)
      ensures roomFull == old(roomFull) && currentTool == old(currentTool)
      ensures drawingColor == old(drawingColor) && strokeWidth == old(strokeWidth) && opacity == old(opacity)
      ensures mousePosition == old(mousePosition)
    {
      ClearCanvas();
      sent := sent + [Event.ClearCanvas];
    }

    /** A click on one of the zoom buttons. */
    method ClickZoom(button: ZoomButton)
      requires Valid()
      modifies this`scale, this`panX, this`panY
      ensures Valid()
      ensures (scale, panX, panY) == Click(button, old(scale), old(panX), old(panY))
      ensures Canvas() == old(Canvas()) && sent == old(sent)
      ensures roomFull == old(roomFull) && currentTool == old(currentTool)
      ensures drawingColor == old(drawingColor) && strokeWidth == old(strokeWidth) && opacity == old(opacity)
      ensures mousePosition == old(mousePosition)
    {
      var r := Click(button, scale, panX, panY);
      scale := r.0;
      panX := r.1;
      panY := r.2;
    }
  }
}
