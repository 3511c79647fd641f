/**
  The pointer gestures of frontend/src/hooks/useCanvasEvents.js. The hook's state cells are
  the fields of `Gestures`; the collections, view transform and outgoing events it updates
  belong to the component's `Board`. Every handler runs to completion before the next one,
  and reads the state as it was when the handler started.
 */
module CanvasEvents {
  import opened Records
  import opened Seqs
  import opened CanvasUtils
  import opened Erase
  import opened NoteMoves
  import opened JsStrings
  import opened BoardState

  /** One point of the eraser's fading trail, in screen coordinates. */
  datatype TrailPoint = TrailPoint(x: real, y: real, timestamp: int)

  /** Milliseconds a trail point stays visible. */
  const TrailLifetime: int := 300

  /** Logical units the pointer must travel before a pressed voice note becomes a drag. */
  const DragThreshold: real := 5.0

  /** Logical units a shape must span on some axis to be kept. */
  const ShapeThreshold: real := 5.0

  const TextFontSize: real := 16.0

  /**
    The trail points still younger than the lifetime at `now`, in order; the result is the
    trail itself exactly when no point has expired.
   */
  function Recent(trail: seq<TrailPoint>, now: int): (r: seq<TrailPoint>)
    ensures forall i :: 0 <= i < |r| ==> r[i] in trail && r[i].timestamp > now - TrailLifetime
    ensures forall i :: 0 <= i < |trail| && trail[i].timestamp > now - TrailLifetime ==> trail[i] in r
    ensures |r| == |trail| <==> r == trail
    ensures r == trail <==> forall i :: 0 <= i < |trail| ==> trail[i].timestamp > now - TrailLifetime
  {
    var young := (p: TrailPoint) => p.timestamp > now - TrailLifetime;
    FilterKeepsLength(trail, young);
    Filter(trail, young)
  }

  /** A JavaScript truthiness test on a note id held in a state cell (null and 0 are falsy). */
  predicate Truthy(id: Option<int>)
  {
    id.Some? && id.value != 0
  }

  /** A drag-drawn shape is kept only when it spans more than the threshold on some axis. */
  predicate LargeEnough(sh: Shape)
  {
    Abs(sh.width) > ShapeThreshold || Abs(sh.height) > ShapeThreshold
  }

  /** The erase circle of the local eraser at `coords`: radius is half the eraser size. */
  function EraserAt(coords: Point): (area: EraseArea)
    ensures Center(area) == coords && area.radius == 8.0
  {
    EraseArea(coords.x, coords.y, EraserSize / 2.0)
  }

  /** All four collections filtered by the same erase circle. */
  function ErasedAll(c: Collections, area: EraseArea): Collections
  {
    Collections(EraseStrokes(c.drawing, area), EraseNotes(c.voiceNotes, area),
                Erase.EraseShapes(c.shapes, area), EraseTexts(c.texts, area))
  }

  /** `[ev]` when a filter shrank a collection from `before` to `after` elements, else nothing. */
  function IfShrank(before: nat, after: nat, ev: Event): seq<Event>
  {
    if after != before then [ev] else []
  }

  /**
    The events the local eraser sends: one per collection that actually lost an element, in
    the order strokes, shapes, text, voice notes.
   */
  function EraseEmissions(c: Collections, area: EraseArea): (r: seq<Event>)
    ensures |r| <= 4
    ensures EraseDrawing(area) in r <==> EraseStrokes(c.drawing, area) != c.drawing
    ensures EraseShapes(area) in r <==> Erase.EraseShapes(c.shapes, area) != c.shapes
    ensures EraseText(area) in r <==> EraseTexts(c.texts, area) != c.texts
    ensures EraseVoiceNotes(area) in r <==> EraseNotes(c.voiceNotes, area) != c.voiceNotes
  {
    SameLengthMeansNothingErased(c, area);
    IfShrank(|c.drawing|, |EraseStrokes(c.drawing, area)|, EraseDrawing(area))
    + IfShrank(|c.shapes|, |Erase.EraseShapes(c.shapes, area)|, EraseShapes(area))
    + IfShrank(|c.texts|, |EraseTexts(c.texts, area)|, EraseText(area))
    + IfShrank(|c.voiceNotes|, |EraseNotes(c.voiceNotes, area)|, EraseVoiceNotes(area))
  }

  /** The position update sent when a dragged note is released, if the note still exists. */
  function ReleaseEmission(notes: seq<VoiceNote>, id: int): (r: seq<Event>)
    ensures |r| <= 1
    ensures r != [] <==> exists j :: 0 <= j < |notes| && notes[j].id == id
    ensures r != [] ==> var i := FindNoteIndex(notes, id);
      r == [VoiceNoteMoved(NoteMove(id, notes[i].x, notes[i].y))]
  {
    var i := FindNoteIndex(notes, id);
    if i == -1 then [] else [VoiceNoteMoved(NoteMove(notes[i].id, notes[i].x, notes[i].y))]
  }

  /** handleWheel: a downward wheel zooms out by a tenth, anything else zooms in by a tenth. */
  function WheelDelta(deltaY: real): (d: real)
    ensures d == -0.1 || d == 0.1
    ensures d < 0.0 <==> deltaY > 0.0
  {
    if deltaY > 0.0 then -0.1 else 0.1
  }

  class Gestures {
    const board: Board
    var lastPosition: Option<Point>
    var isDrawing: bool
    var draggingNote: Option<int>
    var dragOffset: Point
    var isPanning: bool
    var panStart: Point
    var isDrawingShape: bool
    var shapeStartPos: Option<Point>
    /** The shape being dragged out; it gets its id only when it is committed. */
    var currentShape: Option<Shape>
    /** The text being typed; it gets its text and id only when it is committed. */
    var editingText: Option<TextElement>
    var textInput: string
    var eraserTrail: seq<TrailPoint>
    var dragStartTime: Option<int>
    var dragStartPos: Option<Point>
    var hasMoved: bool
    /** Whether the 150 ms timer armed by a press on a voice note is still pending. */
    var dragTimeoutPending: bool

    constructor(board: Board)
      ensures this.board == board
      ensures lastPosition.None? && !isDrawing && draggingNote.None? && dragOffset == Point(0.0, 0.0)
      ensures !isPanning && panStart == Point(0.0, 0.0)
      ensures !isDrawingShape && shapeStartPos.None? && currentShape.None?
      ensures editingText.None? && textInput == "" && eraserTrail == []
      ensures dragStartTime.None? && dragStartPos.None? && !hasMoved && !dragTimeoutPending
    {
      this.board := board;
      lastPosition := None;
      isDrawing := false;
      draggingNote := None;
      dragOffset := Point(0.0, 0.0);
      isPanning := false;
      panStart := Point(0.0, 0.0);
      isDrawingShape := false;
      shapeStartPos := None;
      currentShape := None;
      editingText := None;
      textInput := "";
      eraserTrail := [];
      dragStartTime := None;
      dragStartPos := None;
      hasMoved := false;
      dragTimeoutPending := false;
    }

    /** The pointer in logical coordinates under the board's current view. */
    function LogicalAt(e: PointerEvent, rect: Rect): Point
      requires board.Valid()
      reads board
    {
      GetLogicalCoordinates(e, rect, board.scale, board.panX, board.panY)
    }

    /** A pen segment in the board's current style. */
    function Segment(from: Point, to: Point): (s: Stroke)
      reads board
      ensures StrokeStart(s) == from && StrokeEnd(s) == to
    {
      Stroke(from.x, from.y, to.x, to.y, board.drawingColor, board.strokeWidth, board.opacity, board.userId)
    }

    /** The eraser trail after an erase at `coords`: the point on screen is added, stale ones dropped. */
    function TrailAfter(trail: seq<TrailPoint>, coords: Point, now: int): seq<TrailPoint>
      reads board
    {
      var screen := LogicalToScreen(coords, board.scale, board.panX, board.panY);
      Recent(trail + [TrailPoint(screen.x, screen.y, now)], now)
    }

    /**
      eraseAtPosition: a trail point is added and stale ones dropped; each collection is
      filtered by the erase circle, and an erase event is sent for each one that shrank.
     */
    method EraseAtPosition(coords: Point, now: int)
      modifies this`eraserTrail
      modifies board`drawingData, board`shapes, board`textElements, board`voiceNotes, board`sent
      ensures board.Canvas() == ErasedAll(old(board.Canvas()), EraserAt(coords))
      ensures board.sent == old(board.sent) + EraseEmissions(old(board.Canvas()), EraserAt(coords))
      ensures eraserTrail == TrailAfter(old(eraserTrail), coords, now)
    {
      var screen := LogicalToScreen(coords, board.scale, board.panX, board.panY);
      eraserTrail := Recent(eraserTrail + [TrailPoint(screen.x, screen.y, now)], now);
      EraseCollections(EraserAt(coords));
    }

    /** The four filters of eraseAtPosition and the events they cause. */
    method EraseCollections(area: EraseArea)
      modifies board`drawingData, board`shapes, board`textElements, board`voiceNotes, board`sent
      ensures board.Canvas() == ErasedAll(old(board.Canvas()), area)
      ensures board.sent == old(board.sent) + EraseEmissions(old(board.Canvas()), area)
    {
      ghost var c := board.Canvas();
      ghost var sent0 := board.sent;
      ghost var e1 := IfShrank(|c.drawing|, |EraseStrokes(c.drawing, area)|, EraseDrawing(area));
      ghost var e2 := IfShrank(|c.shapes|, |Erase.EraseShapes(c.shapes, area)|, EraseShapes(area));
      ghost var e3 := IfShrank(|c.texts|, |EraseTexts(c.texts, area)|, EraseText(area));
      ghost var e4 := IfShrank(|c.voiceNotes|, |EraseNotes(c.voiceNotes, area)|, EraseVoiceNotes(area));
      assert EraseEmissions(c, area) == e1 + e2 + e3 + e4;

      FilterDrawing(area);
      FilterShapes(area);
      AppendAssociative(sent0, e1, e2);
      FilterTexts(area);
      AppendAssociative(sent0, e1 + e2, e3);
      FilterVoiceNotes(area);
      AppendAssociative(sent0, e1 + e2 + e3, e4);
    }

    /** The stroke filter of eraseAtPosition: `erase-drawing` is sent when a stroke went. */
    method FilterDrawing(area: EraseArea)
      modifies board`drawingData, board`sent
      ensures board.drawingData == EraseStrokes(old(board.drawingData), area)
      ensures board.sent == old(board.sent) + IfShrank(|old(board.drawingData)|, |board.drawingData|, EraseDrawing(area))
    {
      SameLengthMeansNothingErased(board.Canvas(), area);
      var newDrawingData := EraseStrokes(board.drawingData, area);
      if |newDrawingData| != |board.drawingData| {
        board.drawingData := newDrawingData;
        board.sent := board.sent + [EraseDrawing(area)];
      }
    }

    /** The shape filter of eraseAtPosition: `erase-shapes` is sent when a shape went. */
    method FilterShapes(area: EraseArea)
      modifies board`shapes, board`sent
      ensures board.shapes == Erase.EraseShapes(old(board.shapes), area)
      ensures board.sent == old(board.sent) + IfShrank(|old(board.shapes)|, |board.shapes|, EraseShapes(area))
    {
      SameLengthMeansNothingErased(board.Canvas(), area);
      var newShapes := Erase.EraseShapes(board.shapes, area);
      if |newShapes| != |board.shapes| {
        board.shapes := newShapes;
        board.sent := board.sent + [EraseShapes(area)];
      }
    }

    /** The text filter of eraseAtPosition: `erase-text` is sent when a text element went. */
    method FilterTexts(area: EraseArea)
      modifies board`textElements, board`sent
      ensures board.textElements == EraseTexts(old(board.textElements), area)
      ensures board.sent == old(board.sent) + IfShrank(|old(board.textElements)|, |board.textElements|, EraseText(area))
    {
      SameLengthMeansNothingErased(board.Canvas(), area);
      var newTextElements := EraseTexts(board.textElements, area);
      if |newTextElements| != |board.textElements| {
        board.textElements := newTextElements;
        board.sent := board.sent + [EraseText(area)];
      }
    }

    /** The voice-note filter of eraseAtPosition: `erase-voice-notes` is sent when a note went. */
    method FilterVoiceNotes(area: EraseArea)
      modifies board`voiceNotes, board`sent
      ensures board.voiceNotes == EraseNotes(old(board.voiceNotes), area)
      ensures board.sent == old(board.sent) + IfShrank(|old(board.voiceNotes)|, |board.voiceNotes|, EraseVoiceNotes(area))
    {
      SameLengthMeansNothingErased(board.Canvas(), area);
      var newVoiceNotes := EraseNotes(board.voiceNotes, area);
      if |newVoiceNotes| != |board.voiceNotes| {
        board.voiceNotes := newVoiceNotes;
        board.sent := board.sent + [EraseVoiceNotes(area)];
      }
    }

    /** Neither the board's collections nor what it sent changed. */
    twostate predicate BoardKept()
      reads board
    {
      board.Canvas() == old(board.Canvas()) && board.sent == old(board.sent)
    }

    /**
      The effect of a press with a tool other than the hand at logical point `p`: each tool
      sets its own cells and leaves the other tools' cells as they were.
     */
    twostate predicate StartedWith(p: Point, now: int)
      reads this, board
    {
      var tool := board.currentTool;
      (tool.Pen? ==>
         lastPosition == Some(p) && isDrawing && eraserTrail == old(eraserTrail)
         && unchanged(this`editingText, this`textInput)
         && unchanged(this`isDrawingShape, this`shapeStartPos, this`currentShape)
         && BoardKept())
      && (tool.Eraser? ==>
         isDrawing && lastPosition == old(lastPosition)
         && eraserTrail == TrailAfter(old(eraserTrail), p, now)
         && unchanged(this`editingText, this`textInput)
         && unchanged(this`isDrawingShape, this`shapeStartPos, this`currentShape)
         && board.Canvas() == ErasedAll(old(board.Canvas()), EraserAt(p))
         && board.sent == old(board.sent) + EraseEmissions(old(board.Canvas()), EraserAt(p)))
      && (tool.Text? ==>
         editingText == Some(TextElement(0, p.x, p.y, "", board.drawingColor, TextFontSize, board.opacity, board.userId))
         && textInput == ""
         && unchanged(this`lastPosition, this`isDrawing, this`eraserTrail)
         && unchanged(this`isDrawingShape, this`shapeStartPos, this`currentShape)
         && BoardKept())
      && (tool.ShapeTool? ==>
         isDrawingShape && shapeStartPos == Some(p)
         && currentShape == Some(Shape(0, tool.kind, p.x, p.y, 0.0, 0.0,
                                       board.drawingColor, board.strokeWidth, board.opacity, board.userId))
         && unchanged(this`lastPosition, this`isDrawing, this`eraserTrail)
         && unchanged(this`editingText, this`textInput)
         && BoardKept())
    }

    /**
      startDrawing (pointer down on the canvas): ignored while a voice note is held; the hand
      starts a pan, the pen records its start point, the eraser erases, the text tool opens
      an empty editor, and a shape tool starts a zero-sized shape.
     */
    method StartDrawing(e: PointerEvent, rect: Rect, now: int)
      requires board.Valid()
      modifies this`isPanning, this`panStart, this`lastPosition, this`isDrawing, this`eraserTrail
      modifies this`editingText, this`textInput, this`isDrawingShape, this`shapeStartPos, this`currentShape
      modifies board`drawingData, board`shapes, board`textElements, board`voiceNotes, board`sent
      ensures Truthy(draggingNote) ==> unchanged(this) && BoardKept()
      ensures !Truthy(draggingNote) && board.currentTool.Hand? ==>
        isPanning && panStart == Point(e.clientX - board.panX, e.clientY - board.panY)
        && unchanged(this`lastPosition, this`isDrawing, this`eraserTrail)
        && unchanged(this`editingText, this`textInput)
        && unchanged(this`isDrawingShape, this`shapeStartPos, this`currentShape)
        && BoardKept()
      ensures !Truthy(draggingNote) && !board.currentTool.Hand? ==>
        StartedWith(LogicalAt(e, rect), now) && unchanged(this`isPanning, this`panStart)
    {
      if Truthy(draggingNote) {
        return;
      }
      if board.currentTool.Hand? {
        isPanning := true;
        panStart := Point(e.clientX - board.panX, e.clientY - board.panY);
        return;
      }
      StartWithTool(LogicalAt(e, rect), now);
    }

    /** The branches of startDrawing for the tools that work at a logical point `p`. */
    method StartWithTool(p: Point, now: int)
      requires !board.currentTool.Hand?
      modifies this`lastPosition, this`isDrawing, this`eraserTrail
      modifies this`editingText, this`textInput, this`isDrawingShape, this`shapeStartPos, this`currentShape
      modifies board`drawingData, board`shapes, board`textElements, board`voiceNotes, board`sent
      ensures StartedWith(p, now)
    {
      match board.currentTool {
        case Pen =>
          lastPosition := Some(p);
          isDrawing := true;
        case Eraser =>
          isDrawing := true;
          EraseAtPosition(p, now);
        case Text =>
          editingText := Some(TextElement(0, p.x, p.y, "", board.drawingColor,
                                          TextFontSize, board.opacity, board.userId));
          textInput := "";
        case ShapeTool(kind) =>
          isDrawingShape := true;
          shapeStartPos := Some(p);
          currentShape := Some(Shape(0, kind, p.x, p.y, 0.0, 0.0,
                                     board.drawingColor, board.strokeWidth, board.opacity, board.userId));
      }
    }

    /**
      The pen branch of draw: a segment from the last position to `p` is stored and sent
      (when there is a last position), and `p` becomes the last position.
     */
    method PenTo(p: Point)
      modifies this`lastPosition, board`drawingData, board`sent
      ensures lastPosition == Some(p)
      ensures old(lastPosition).Some? ==>
        board.drawingData == old(board.drawingData) + [Segment(old(lastPosition).value, p)]
        && board.sent == old(board.sent) + [Drawing(Segment(old(lastPosition).value, p))]
      ensures old(lastPosition).None? ==>
        board.drawingData == old(board.drawingData) && board.sent == old(board.sent)
    {
      if lastPosition.Some? {
        var drawData := Segment(lastPosition.value, p);
        board.drawingData := board.drawingData + [drawData];
        board.sent := board.sent + [Drawing(drawData)];
      }
      lastPosition := Some(p);
    }

    /**
      draw (pointer move on the canvas): with the pen down, `PenTo` the pointer, so each
      segment starts where the previous one ended; with the eraser down, an erase; while a
      shape is dragged out, its size follows the pointer.
     */
    method Draw(e: PointerEvent, rect: Rect, now: int)
      requires board.Valid()
      modifies this`lastPosition, this`eraserTrail, this`currentShape
      modifies board`drawingData, board`shapes, board`textElements, board`voiceNotes, board`sent
      ensures Truthy(draggingNote) ==>
        board.Canvas() == old(board.Canvas()) && board.sent == old(board.sent)
        && lastPosition == old(lastPosition) && eraserTrail == old(eraserTrail)
        && currentShape == old(currentShape)
      ensures !Truthy(draggingNote) && isDrawing && board.currentTool.Pen? ==>
        var p := LogicalAt(e, rect);
        lastPosition == Some(p)
        && (old(lastPosition).Some? ==>
              board.drawingData == old(board.drawingData) + [Segment(old(lastPosition).value, p)]
              && board.sent == old(board.sent) + [Drawing(Segment(old(lastPosition).value, p))])
        && (old(lastPosition).None? ==>
              board.drawingData == old(board.drawingData) && board.sent == old(board.sent))
        && board.shapes == old(board.shapes) && board.textElements == old(board.textElements)
        && board.voiceNotes == old(board.voiceNotes) && currentShape == old(currentShape)
        && eraserTrail == old(eraserTrail)
      ensures !Truthy(draggingNote) && isDrawing && board.currentTool.Eraser? ==>
        board.Canvas() == ErasedAll(old(board.Canvas()), EraserAt(LogicalAt(e, rect)))
        && board.sent == old(board.sent) + EraseEmissions(old(board.Canvas()), EraserAt(LogicalAt(e, rect)))
        && eraserTrail == TrailAfter(old(eraserTrail), LogicalAt(e, rect), now)
        && lastPosition == old(lastPosition) && currentShape == old(currentShape)
      ensures !Truthy(draggingNote) && !(isDrawing && (board.currentTool.Pen? || board.currentTool.Eraser?)) ==>
        board.Canvas() == old(board.Canvas()) && board.sent == old(board.sent)
        && lastPosition == old(lastPosition) && eraserTrail == old(eraserTrail)
        && (isDrawingShape && shapeStartPos.Some? && old(currentShape).Some? ==>
              var p := LogicalAt(e, rect);
              currentShape == Some(old(currentShape).value.(width := p.x - shapeStartPos.value.x,
                                                            height := p.y - shapeStartPos.value.y)))
        && (!(isDrawingShape && shapeStartPos.Some? && old(currentShape).Some?) ==> currentShape == old(currentShape))
    {
      if Truthy(draggingNote) {
        return;
      }
      var logicalCoords := LogicalAt(e, rect);
      if isDrawing && board.currentTool.Pen? {
        PenTo(logicalCoords);
        return;
      }
      if isDrawing && board.currentTool.Eraser? {
        EraseAtPosition(logicalCoords, now);
        return;
      }
      if isDrawingShape && shapeStartPos.Some? && currentShape.Some? {
        var width := logicalCoords.x - shapeStartPos.value.x;
        var height := logicalCoords.y - shapeStartPos.value.y;
        currentShape := Some(currentShape.value.(width := width, height := height));
      }
    }

    /**
      stopDrawing (pointer up or leave): the pen lifts; a shape being dragged out is committed
      with id `now` (after a `test` event) when it is large enough, and the shape state is
      reset either way.
     */
    method StopDrawing(now: int)
      modifies this`isDrawing, this`lastPosition, this`isDrawingShape, this`shapeStartPos, this`currentShape
      modifies board`shapes, board`sent
      ensures !isDrawing && lastPosition.None?
      ensures old(isDrawingShape) && old(currentShape).Some? ==>
        var committed := old(currentShape).value.(id := now);
        !isDrawingShape && shapeStartPos.None? && currentShape.None?
        && (LargeEnough(old(currentShape).value) ==>
              board.shapes == old(board.shapes) + [committed]
              && board.sent == old(board.sent) + [Test, ShapeAdded(committed)])
        && (!LargeEnough(old(currentShape).value) ==>
              board.shapes == old(board.shapes) && board.sent == old(board.sent))
      ensures !(old(isDrawingShape) && old(currentShape).Some?) ==>
        isDrawingShape == old(isDrawingShape) && shapeStartPos == old(shapeStartPos)
        && currentShape == old(currentShape)
        && board.shapes == old(board.shapes) && board.sent == old(board.sent)
    {
      isDrawing := false;
      lastPosition := None;
      if isDrawingShape && currentShape.Some? {
        if Abs(currentShape.value.width) > ShapeThreshold || Abs(currentShape.value.height) > ShapeThreshold {
          var finalShape := currentShape.value.(id := now);
          board.shapes := board.shapes + [finalShape];
          board.sent := board.sent + [Test];
          board.sent := board.sent + [ShapeAdded(finalShape)];
        }
        isDrawingShape := false;
        shapeStartPos := None;
        currentShape := None;
      }
    }

    /**
      handleTextSubmit: when an editor is open and the input is not blank, the trimmed input is
      committed with id `now` and sent; the editor is closed either way.
     */
    method HandleTextSubmit(now: int)
      modifies this`editingText, this`textInput, board`textElements, board`sent
      ensures editingText.None? && textInput == ""
      ensures old(editingText).Some? && Trim(old(textInput)) != [] ==>
        var committed := old(editingText).value.(text := Trim(old(textInput)), id := now);
        board.textElements == old(board.textElements) + [committed]
        && board.sent == old(board.sent) + [TextAdded(committed)]
        && !IsWhitespace(committed.text[0]) && !IsWhitespace(committed.text[|committed.text| - 1])
      ensures !(old(editingText).Some? && Trim(old(textInput)) != []) ==>
        board.textElements == old(board.textElements) && board.sent == old(board.sent)
    {
      var trimmed := Trim(textInput);
      if editingText.Some? && trimmed != [] {
        var textElement := editingText.value.(text := trimmed, id := now);
        board.textElements := board.textElements + [textElement];
        board.sent := board.sent + [TextAdded(textElement)];
      }
      editingText := None;
      textInput := "";
    }

    /**
      handleVoiceNoteMouseDown: the note is held (not yet dragged), the press point and the
      offset from the note are recorded, and the release timer is (re)armed.
     */
    method HandleVoiceNoteMouseDown(e: PointerEvent, rect: Rect, note: VoiceNote, now: int)
      requires board.Valid()
      modifies this`dragStartTime, this`dragStartPos, this`hasMoved, this`dragOffset
      modifies this`draggingNote, this`dragTimeoutPending
      ensures var p := LogicalAt(e, rect);
        dragStartTime == Some(now) && dragStartPos == Some(p) && !hasMoved
        && dragOffset == Point(p.x - note.x, p.y - note.y)
        && draggingNote == Some(note.id) && dragTimeoutPending
    {
      var logicalCoords := LogicalAt(e, rect);
      dragStartTime := Some(now);
      dragStartPos := Some(logicalCoords);
      hasMoved := false;
      dragOffset := Point(logicalCoords.x - note.x, logicalCoords.y - note.y);
      draggingNote := Some(note.id);
      dragTimeoutPending := true;
    }

    /** The release timer firing: if still armed, the held note is let go. */
    method DragTimeout()
      modifies this`draggingNote, this`dragStartTime, this`dragStartPos, this`dragOffset
      modifies this`hasMoved, this`dragTimeoutPending
      ensures old(dragTimeoutPending) ==>
        draggingNote.None? && dragStartTime.None? && dragStartPos.None?
        && dragOffset == Point(0.0, 0.0) && !hasMoved && !dragTimeoutPending
      ensures !old(dragTimeoutPending) ==> unchanged(this)
    {
      if dragTimeoutPending {
        draggingNote := None;
        dragStartTime := None;
        dragStartPos := None;
        dragOffset := Point(0.0, 0.0);
        hasMoved := false;
        dragTimeoutPending := false;
      }
    }

    /**
      The effect of a pointer move to logical point `p` outside a pan: the pointer is recorded,
      a held note becomes a drag once the pointer is strictly farther than the threshold from
      the press point (which cancels the release timer), and a note that was already being
      dragged follows the pointer, keeping its offset.
     */
    twostate predicate PointerMoved(p: Point)
      reads this, board
    {
      var crossing := Truthy(draggingNote) && dragStartPos.Some? && !old(hasMoved)
                      && FartherThan(DistSq(p, dragStartPos.value), DragThreshold);
      board.mousePosition == p
      && (hasMoved <==> old(hasMoved) || crossing)
      && (crossing ==> !dragTimeoutPending)
      && (!crossing ==> dragTimeoutPending == old(dragTimeoutPending))
      && (Truthy(draggingNote) && old(hasMoved) ==>
            board.voiceNotes == MoveMatching(old(board.voiceNotes),
                                             NoteMove(draggingNote.value, p.x - dragOffset.x, p.y - dragOffset.y)))
      && (!(Truthy(draggingNote) && old(hasMoved)) ==> board.voiceNotes == old(board.voiceNotes))
    }

    /**
      handleMouseMove: while panning, the new pan is returned; otherwise the pointer position
      is recorded, a held note becomes a drag once the pointer is strictly farther than the
      threshold from the press point, and a note that was already being dragged when the
      handler started follows the pointer, keeping its offset.
     */
    method HandleMouseMove(e: PointerEvent, rect: Rect) returns (panUpdate: Option<Point>)
      requires board.Valid()
      modifies this`hasMoved, this`dragTimeoutPending, board`mousePosition, board`voiceNotes
      ensures old(isPanning) ==>
        panUpdate == Some(Point(e.clientX - panStart.x, e.clientY - panStart.y))
        && unchanged(this) && unchanged(board)
      ensures !old(isPanning) ==> panUpdate.None? && PointerMoved(LogicalAt(e, rect))
    {
      if isPanning {
        return Some(Point(e.clientX - panStart.x, e.clientY - panStart.y));
      }
      var logicalCoords := LogicalAt(e, rect);
      board.mousePosition := logicalCoords;
      var wasMoved := hasMoved;
      if Truthy(draggingNote) && dragStartPos.Some? && !wasMoved {
        if FartherThan(DistSq(logicalCoords, dragStartPos.value), DragThreshold) {
          dragTimeoutPending := false;
          hasMoved := true;
        }
      }
      if Truthy(draggingNote) && wasMoved {
        var newX := logicalCoords.x - dragOffset.x;
        var newY := logicalCoords.y - dragOffset.y;
        board.voiceNotes := MoveMatching(board.voiceNotes, NoteMove(draggingNote.value, newX, newY));
      }
      return None;
    }

    /** The drag cells are as they were and nothing was sent. */
    twostate predicate DragKept()
      reads this, board
    {
      unchanged(this`draggingNote, this`dragOffset, this`dragStartTime, this`dragStartPos, this`hasMoved)
      && board.sent == old(board.sent)
    }

    /**
      A held note was let go: every drag cell is reset, and the note's current position was
      sent once if it had been dragged.
     */
    twostate predicate NoteReleased()
      reads this, board
    {
      old(draggingNote).Some?
      && draggingNote.None? && dragOffset == Point(0.0, 0.0) && dragStartTime.None?
      && dragStartPos.None? && !hasMoved
      && board.sent == old(board.sent)
           + (if old(hasMoved) then ReleaseEmission(board.voiceNotes, old(draggingNote).value) else [])
    }

    /**
      handleMouseUp: the release timer is cancelled; a pan ends; a held note is let go, and if
      it was dragged its current position is sent once.
     */
    method HandleMouseUp()
      modifies this`dragTimeoutPending, this`isPanning, this`draggingNote, this`dragOffset
      modifies this`dragStartTime, this`dragStartPos, this`hasMoved, board`sent
      ensures !dragTimeoutPending
      ensures old(isPanning) ==> !isPanning && DragKept()
      ensures !old(isPanning) && Truthy(old(draggingNote)) ==> !isPanning && NoteReleased()
      ensures !old(isPanning) && !Truthy(old(draggingNote)) ==> isPanning == old(isPanning) && DragKept()
    {
      dragTimeoutPending := false;
      if isPanning {
        isPanning := false;
        return;
      }
      if Truthy(draggingNote) {
        if hasMoved {
          var i := FindNoteIndex(board.voiceNotes, draggingNote.value);
          if i != -1 {
            var draggedNote := board.voiceNotes[i];
            board.sent := board.sent + [VoiceNoteMoved(NoteMove(draggedNote.id, draggedNote.x, draggedNote.y))];
          }
        }
        draggingNote := None;
        dragOffset := Point(0.0, 0.0);
        dragStartTime := None;
        dragStartPos := None;
        hasMoved := false;
      }
    }
  }
}
