/**
  The records the whiteboard shares between its participants, the event vocabulary that
  carries them between client and relay, and the four collections both sides hold.
  Coordinates are logical (pan/zoom independent) and modelled as reals; identifiers that
  the source takes from Date.now() are integers.
 */
module Records {

  datatype Option<T> = None | Some(value: T)

  type SocketId = string

  datatype ShapeKind = Rectangle | Circle | Diamond | Line | Arrow

  /** One pen segment between two consecutive pointer samples. */
  datatype Stroke = Stroke(
    x0: real, y0: real, x1: real, y1: real,
    color: string, lineWidth: real, opacity: real, userId: string)

  /** A finished shape; `width` and `height` are signed (the drag may go up or left). */
  datatype Shape = Shape(
    id: int, kind: ShapeKind,
    x: real, y: real, width: real, height: real,
    color: string, lineWidth: real, opacity: real, userId: string)

  /** A committed text element anchored at (x, y). */
  datatype TextElement = TextElement(
    id: int, x: real, y: real, text: string,
    color: string, fontSize: real, opacity: real, userId: string)

  /** A recorded voice note placed at (x, y); only its position ever changes. */
  datatype VoiceNote = VoiceNote(
    id: int, audioData: string, mimeType: string,
    x: real, y: real, timestamp: string,
    userId: string, userColor: string, userInitials: string)

  /** Payload of every erase event: the erase circle in logical coordinates. */
  datatype EraseArea = EraseArea(x: real, y: real, radius: real)

  /** Payload of `voice-note-moved`. */
  datatype NoteMove = NoteMove(id: int, x: real, y: real)

  /** The named events exchanged over a connection, in either direction. */
  datatype Event =
    | UserJoin(userId: string)            // 'user-join'
    | RoomFull                            // 'room-full'
    | UserCount(count: nat)               // 'user-count'
    | LoadDrawing(strokes: seq<Stroke>)   // 'load-drawing'
    | LoadVoiceNotes(notes: seq<VoiceNote>) // 'load-voice-notes'
    | LoadShapes(shapes: seq<Shape>)      // 'load-shapes'
    | LoadText(texts: seq<TextElement>)   // 'load-text'
    | Drawing(stroke: Stroke)             // 'drawing'
    | ShapeAdded(shape: Shape)            // 'shape'
    | TextAdded(text: TextElement)        // 'text'
    | VoiceNoteAdded(note: VoiceNote)     // 'voice-note'
    | VoiceNoteMoved(move: NoteMove)      // 'voice-note-moved'
    | EraseDrawing(area: EraseArea)       // 'erase-drawing'
    | EraseShapes(area: EraseArea)        // 'erase-shapes'
    | EraseText(area: EraseArea)          // 'erase-text'
    | EraseVoiceNotes(area: EraseArea)    // 'erase-voice-notes'
    | ClearCanvas                         // 'clear-canvas'
    | Test                                // 'test'

  /** One emission of the relay: an event and the connections it is delivered to. */
  datatype Message = Message(recipients: set<SocketId>, event: Event)

  /** The four shared, ordered collections. */
  datatype Collections = Collections(
    drawing: seq<Stroke>, voiceNotes: seq<VoiceNote>, shapes: seq<Shape>, texts: seq<TextElement>)

  const Empty := Collections([], [], [], [])
}
