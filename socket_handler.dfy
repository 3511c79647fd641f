/**
  The client's listeners (frontend/src/hooks/useSocketHandler.js): every event received from
  the relay is applied to the local copy of the four collections and nothing is sent back.
  The only emission is `user-join`, once the connection opens.
 */
module SocketHandler {
  import opened Records
  import opened Erase
  import opened NoteMoves
  import opened BoardState

  /** The effect of one received event on the local collections. */
  function Receive(c: Collections, ev: Event): Collections
  {
    match ev
    case Drawing(s) => c.(drawing := c.drawing + [s])
    case LoadDrawing(strokes) => c.(drawing := strokes)
    case LoadVoiceNotes(notes) => c.(voiceNotes := notes)
    case LoadShapes(shapes) => c.(shapes := shapes)
    case LoadText(texts) => c.(texts := texts)
    case VoiceNoteAdded(n) => c.(voiceNotes := c.voiceNotes + [n])
    case VoiceNoteMoved(m) => c.(voiceNotes := MoveMatching(c.voiceNotes, m))
    case ShapeAdded(sh) => c.(shapes := c.shapes + [sh])
    case TextAdded(t) => c.(texts := c.texts + [t])
    case EraseDrawing(a) => c.(drawing := EraseStrokes(c.drawing, a))
    case EraseShapes(a) => c.(shapes := Erase.EraseShapes(c.shapes, a))
    case EraseText(a) => c.(texts := EraseTexts(c.texts, a))
    case ClearCanvas => Empty
    case _ => c
  }

  /** The listeners applied to a run of received events, in order. */
  function ReceiveAll(c: Collections, events: seq<Event>): Collections
    decreases |events|
  {
    if events == [] then c else ReceiveAll(Receive(c, events[0]), events[1..])
  }

  /**
    `connect`: announce the user. The hook's effect, which opens the connection, re-runs
    whenever its drawing callback changes (with the view or the style), so this runs again
    on every such reconnection, and the relay's snapshot then replaces the four collections.
   */
  method OnConnect(b: Board)
    modifies b`sent
    ensures b.sent == old(b.sent) + [UserJoin(b.userId)]
    ensures b.Canvas() == old(b.Canvas()) && b.roomFull == old(b.roomFull)
    ensures b.scale == old(b.scale) && b.panX == old(b.panX) && b.panY == old(b.panY)
    ensures b.currentTool == old(b.currentTool) && b.drawingColor == old(b.drawingColor)
    ensures b.strokeWidth == old(b.strokeWidth) && b.opacity == old(b.opacity)
  {
    b.sent := b.sent + [UserJoin(b.userId)];
  }

  /**
    One received event: the collections follow `Receive`, `room-full` raises the flag, and
    nothing is sent. The `user-count` listener calls a setter the component never passes in,
    so it changes no state.
   */
  method OnRemoteEvent(b: Board, ev: Event)
    modifies b`roomFull, b`drawingData, b`voiceNotes, b`shapes, b`textElements
    ensures b.Canvas() == Receive(old(b.Canvas()), ev)
    ensures b.roomFull <==> old(b.roomFull) || ev.RoomFull?
    ensures b.sent == old(b.sent)
    ensures b.scale == old(b.scale) && b.panX == old(b.panX) && b.panY == old(b.panY)
    ensures b.currentTool == old(b.currentTool)
  {
    match ev {
      case RoomFull => b.roomFull := true;
      case LoadDrawing(strokes) => b.drawingData := strokes;
      case LoadVoiceNotes(notes) => b.voiceNotes := notes;
      case LoadShapes(shapes) => b.shapes := shapes;
      case LoadText(texts) => b.textElements := texts;
      case ClearCanvas =>
        b.drawingData := [];
        b.voiceNotes := [];
        b.shapes := [];
        b.textElements := [];
      case _ => OnLiveEvent(b, ev);
    }
  }

  /** The listeners for what another member did: appends, the move, and the erases. */
  method OnLiveEvent(b: Board, ev: Event)
    requires !(ev.RoomFull? || ev.LoadDrawing? || ev.LoadVoiceNotes? || ev.LoadShapes? || ev.LoadText?)
    requires !ev.ClearCanvas?
    modifies b`drawingData, b`voiceNotes, b`shapes, b`textElements
    ensures b.Canvas() == Receive(old(b.Canvas()), ev)
  {
    match ev {
      case Drawing(s) => b.drawingData := b.drawingData + [s];
      case VoiceNoteAdded(n) => b.voiceNotes := b.voiceNotes + [n];
      case VoiceNoteMoved(m) => b.voiceNotes := MoveMatching(b.voiceNotes, m);
      case ShapeAdded(sh) => b.shapes := b.shapes + [sh];
      case TextAdded(t) => b.textElements := b.textElements + [t];
      case EraseDrawing(a) => b.drawingData := EraseStrokes(b.drawingData, a);
      case EraseShapes(a) => b.shapes := Erase.EraseShapes(b.shapes, a);
      case EraseText(a) => b.textElements := EraseTexts(b.textElements, a);
      case _ =>
    }
  }

  /** A received append event adds exactly its record at the end of its own collection. */
  lemma {:induction false} ReceiveAppendsOne(c: Collections, ev: Event)
    requires ev.Drawing? || ev.ShapeAdded? || ev.TextAdded? || ev.VoiceNoteAdded?
    ensures var r := Receive(c, ev);
      |r.drawing| + |r.voiceNotes| + |r.shapes| + |r.texts|
        == |c.drawing| + |c.voiceNotes| + |c.shapes| + |c.texts| + 1
    ensures var r := Receive(c, ev);
      (ev.Drawing? ==> r.drawing[|r.drawing| - 1] == ev.stroke && r.drawing[..|c.drawing|] == c.drawing)
      && (ev.ShapeAdded? ==> r.shapes[|r.shapes| - 1] == ev.shape && r.shapes[..|c.shapes|] == c.shapes)
      && (ev.TextAdded? ==> r.texts[|r.texts| - 1] == ev.text && r.texts[..|c.texts|] == c.texts)
      && (ev.VoiceNoteAdded? ==>
            r.voiceNotes[|r.voiceNotes| - 1] == ev.note && r.voiceNotes[..|c.voiceNotes|] == c.voiceNotes)
  {
    var r := Receive(c, ev);
    match ev {
      case Drawing(s) => assert r.drawing[..|c.drawing|] == c.drawing;
      case ShapeAdded(sh) => assert r.shapes[..|c.shapes|] == c.shapes;
      case TextAdded(t) => assert r.texts[..|c.texts|] == c.texts;
      case VoiceNoteAdded(n) => assert r.voiceNotes[..|c.voiceNotes|] == c.voiceNotes;
    }
  }

  /** A received move keeps the number of notes and changes only the notes with that id. */
  lemma ReceiveMoveOnlyTarget(c: Collections, m: NoteMove)
    ensures var r := Receive(c, VoiceNoteMoved(m));
      |r.voiceNotes| == |c.voiceNotes|
      && r.drawing == c.drawing && r.shapes == c.shapes && r.texts == c.texts
      && forall j :: 0 <= j < |c.voiceNotes| && c.voiceNotes[j].id != m.id ==>
           r.voiceNotes[j] == c.voiceNotes[j]
  {}

  /** Status events leave the collections alone. */
  lemma StatusEventsKeepCollections(c: Collections, count: nat)
    ensures Receive(c, RoomFull) == c && Receive(c, UserCount(count)) == c
  {}
}
