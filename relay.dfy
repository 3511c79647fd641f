/**
  The relay of api/socket.js: one room of at most two connections, the four shared
  collections it stores, and the handlers bound to each admitted connection. Every emission
  is appended to an outbox as a message with its set of recipients:
    - `socket.emit` reaches the connection itself,
    - `socket.broadcast.emit` reaches every other member,
    - `io.emit` reaches every member.
 */
module Relay {
  import opened Records
  import opened Seqs
  import opened Erase
  import opened NoteMoves

  /** The most connections the room admits. */
  const Capacity := 2

  /** The events a relay connection has a handler for (`test` only logs). */
  predicate Handled(ev: Event)
  {
    ev.Drawing? || ev.ShapeAdded? || ev.TextAdded? || ev.VoiceNoteAdded? || ev.VoiceNoteMoved?
    || ev.EraseDrawing? || ev.EraseShapes? || ev.EraseText? || ev.ClearCanvas? || ev.Test?
  }

  /** What a handled event does to the stored collections; any other event changes nothing. */
  function Apply(c: Collections, ev: Event): Collections
  {
    match ev
    case Drawing(s) => c.(drawing := c.drawing + [s])
    case ShapeAdded(sh) => c.(shapes := c.shapes + [sh])
    case TextAdded(t) => c.(texts := c.texts + [t])
    case VoiceNoteAdded(n) => c.(voiceNotes := c.voiceNotes + [n])
    case VoiceNoteMoved(m) => c.(voiceNotes := MoveFirst(c.voiceNotes, m))
    case EraseDrawing(a) => c.(drawing := EraseStrokes(c.drawing, a))
    case EraseShapes(a) => c.(shapes := Erase.EraseShapes(c.shapes, a))
    case EraseText(a) => c.(texts := EraseTexts(c.texts, a))
    case ClearCanvas => Empty
    case _ => c
  }

  /**
    What a handled event emits: `clear-canvas` goes to every member, the sender included;
    every other handled event except `test` is rebroadcast unchanged to the other members.
   */
  function Relayed(members: set<SocketId>, sender: SocketId, ev: Event): seq<Message>
  {
    if ev.ClearCanvas? then [Message(members, ClearCanvas)]
    else if Handled(ev) && !ev.Test? then [Message(members - {sender}, ev)]
    else []
  }

  /** The four load events an admitted connection receives, in the order they are sent. */
  function Snapshot(c: Collections): seq<Event>
  {
    [LoadDrawing(c.drawing), LoadVoiceNotes(c.voiceNotes), LoadShapes(c.shapes), LoadText(c.texts)]
  }

  function ToOne(id: SocketId, events: seq<Event>): (r: seq<Message>)
    ensures |r| == |events|
    ensures forall i :: 0 <= i < |r| ==> r[i] == Message({id}, events[i])
  {
    if events == [] then [] else [Message({id}, events[0])] + ToOne(id, events[1..])
  }

  class Room {
    var connectedUsers: set<SocketId>
    var drawingData: seq<Stroke>
    var voiceNotes: seq<VoiceNote>
    var shapes: seq<Shape>
    var textElements: seq<TextElement>
    var outbox: seq<Message>

    ghost predicate Valid()
      reads this
    {
      |connectedUsers| <= Capacity
    }

    function Canvas(): Collections
      reads this
    {
      Collections(drawingData, voiceNotes, shapes, textElements)
    }

    constructor()
      ensures Valid()
      ensures connectedUsers == {} && Canvas() == Empty && outbox == []
    {
      connectedUsers := {};
      drawingData := [];
      voiceNotes := [];
      shapes := [];
      textElements := [];
      outbox := [];
    }

    /**
      A new connection: refused with `room-full` when the room already holds two members,
      otherwise added, sent the snapshot, and every member is told the new count.
     */
    method Connect(id: SocketId) returns (admitted: bool)
      requires Valid()
      modifies this
      ensures Valid()
      ensures admitted <==> |old(connectedUsers)| < Capacity
      ensures Canvas() == old(Canvas())
      ensures !admitted ==>
        connectedUsers == old(connectedUsers) && outbox == old(outbox) + [Message({id}, RoomFull)]
      ensures admitted ==>
        connectedUsers == old(connectedUsers) + {id}
        && outbox == old(outbox) + ToOne(id, Snapshot(Canvas()))
                     + [Message(connectedUsers, UserCount(|connectedUsers|))]
    {
      if |connectedUsers| >= Capacity {
        outbox := outbox + [Message({id}, RoomFull)];
        return false;
      }
      connectedUsers := connectedUsers + {id};
      outbox := outbox + [Message({id}, LoadDrawing(drawingData))];
      outbox := outbox + [Message({id}, LoadVoiceNotes(voiceNotes))];
      outbox := outbox + [Message({id}, LoadShapes(shapes))];
      outbox := outbox + [Message({id}, LoadText(textElements))];
      outbox := outbox + [Message(connectedUsers, UserCount(|connectedUsers|))];
      admitted := true;
    }

    /** `disconnect`: the member leaves and the remaining members are told the new count. */
    method Disconnect(id: SocketId)
      requires Valid() && id in connectedUsers
      modifies this
      ensures Valid()
      ensures connectedUsers == old(connectedUsers) - {id}
      ensures |connectedUsers| == |old(connectedUsers)| - 1
      ensures Canvas() == old(Canvas())
      ensures outbox == old(outbox) + [Message(connectedUsers, UserCount(|connectedUsers|))]
    {
      connectedUsers := connectedUsers - {id};
      outbox := outbox + [Message(connectedUsers, UserCount(|connectedUsers|))];
    }

    /**
      A member's client closing its connection and opening a new one, as the client does
      whenever its socket effect re-runs: the new connection is always admitted, since the
      departure leaves room, and it is sent the stored collections unchanged.
     */
    method Reconnect(oldId: SocketId, newId: SocketId) returns (admitted: bool)
      requires Valid() && oldId in connectedUsers && newId !in connectedUsers
      modifies this
      ensures Valid() && admitted
      ensures connectedUsers == old(connectedUsers) - {oldId} + {newId}
      ensures Canvas() == old(Canvas())
      ensures var others := old(connectedUsers) - {oldId};
        outbox == old(outbox) + [Message(others, UserCount(|others|))]
                  + ToOne(newId, Snapshot(Canvas()))
                  + [Message(connectedUsers, UserCount(|connectedUsers|))]
    {
      Disconnect(oldId);
      admitted := Connect(newId);
    }

    method OnDrawing(sender: SocketId, s: Stroke)
      modifies this`drawingData, this`outbox
      ensures drawingData == old(drawingData) + [s]
      ensures connectedUsers == old(connectedUsers) && voiceNotes == old(voiceNotes)
      ensures shapes == old(shapes) && textElements == old(textElements)
      ensures outbox == old(outbox) + [Message(connectedUsers - {sender}, Drawing(s))]
    {
      drawingData := drawingData + [s];
      outbox := outbox + [Message(connectedUsers - {sender}, Drawing(s))];
    }

    method OnShape(sender: SocketId, sh: Shape)
      modifies this`shapes, this`outbox
      ensures shapes == old(shapes) + [sh]
      ensures connectedUsers == old(connectedUsers) && drawingData == old(drawingData)
      ensures voiceNotes == old(voiceNotes) && textElements == old(textElements)
      ensures outbox == old(outbox) + [Message(connectedUsers - {sender}, ShapeAdded(sh))]
    {
      shapes := shapes + [sh];
      outbox := outbox + [Message(connectedUsers - {sender}, ShapeAdded(sh))];
    }

    method OnText(sender: SocketId, t: TextElement)
      modifies this`textElements, this`outbox
      ensures textElements == old(textElements) + [t]
      ensures connectedUsers == old(connectedUsers) && drawingData == old(drawingData)
      ensures voiceNotes == old(voiceNotes) && shapes == old(shapes)
      ensures outbox == old(outbox) + [Message(connectedUsers - {sender}, TextAdded(t))]
    {
      textElements := textElements + [t];
      outbox := outbox + [Message(connectedUsers - {sender}, TextAdded(t))];
    }

    method OnVoiceNote(sender: SocketId, n: VoiceNote)
      modifies this`voiceNotes, this`outbox
      ensures voiceNotes == old(voiceNotes) + [n]
      ensures connectedUsers == old(connectedUsers) && drawingData == old(drawingData)
      ensures shapes == old(shapes) && textElements == old(textElements)
      ensures outbox == old(outbox) + [Message(connectedUsers - {sender}, VoiceNoteAdded(n))]
    {
      voiceNotes := voiceNotes + [n];
      outbox := outbox + [Message(connectedUsers - {sender}, VoiceNoteAdded(n))];
    }

    method OnEraseDrawing(sender: SocketId, area: EraseArea)
      modifies this`drawingData, this`outbox
      ensures drawingData == EraseStrokes(old(drawingData), area)
      ensures connectedUsers == old(connectedUsers) && voiceNotes == old(voiceNotes)
      ensures shapes == old(shapes) && textElements == old(textElements)
      ensures outbox == old(outbox) + [Message(connectedUsers - {sender}, EraseDrawing(area))]
    {
      drawingData := EraseStrokes(drawingData, area);
      outbox := outbox + [Message(connectedUsers - {sender}, EraseDrawing(area))];
    }

    method OnEraseShapes(sender: SocketId, area: EraseArea)
      modifies this`shapes, this`outbox
      ensures shapes == Erase.EraseShapes(old(shapes), area)
      ensures connectedUsers == old(connectedUsers) && drawingData == old(drawingData)
      ensures voiceNotes == old(voiceNotes) && textElements == old(textElements)
      ensures outbox == old(outbox) + [Message(connectedUsers - {sender}, EraseShapes(area))]
    {
      shapes := Erase.EraseShapes(shapes, area);
      outbox := outbox + [Message(connectedUsers - {sender}, EraseShapes(area))];
    }

    method OnEraseText(sender: SocketId, area: EraseArea)
      modifies this`textElements, this`outbox
      ensures textElements == EraseTexts(old(textElements), area)
      ensures connectedUsers == old(connectedUsers) && drawingData == old(drawingData)
      ensures voiceNotes == old(voiceNotes) && shapes == old(shapes)
      ensures outbox == old(outbox) + [Message(connectedUsers - {sender}, EraseText(area))]
    {
      textElements := EraseTexts(textElements, area);
      outbox := outbox + [Message(connectedUsers - {sender}, EraseText(area))];
    }

    /** `clear-canvas`: all four collections emptied, and everyone (sender too) told. */
    method OnClearCanvas()
      modifies this`drawingData, this`voiceNotes, this`shapes, this`textElements, this`outbox
      ensures Canvas() == Empty
      ensures connectedUsers == old(connectedUsers)
      ensures outbox == old(outbox) + [Message(connectedUsers, ClearCanvas)]
    {
      drawingData := [];
      voiceNotes := [];
      shapes := [];
      textElements := [];
      outbox := outbox + [Message(connectedUsers, ClearCanvas)];
    }

    /**
      `voice-note-moved`: the first note with the id is found by a scan and its position is
      overwritten; the event is rebroadcast whether or not a note was found.
     */
    method OnVoiceNoteMoved(sender: SocketId, m: NoteMove)
      modifies this`voiceNotes, this`outbox
      ensures voiceNotes == MoveFirst(old(voiceNotes), m)
      ensures connectedUsers == old(connectedUsers) && drawingData == old(drawingData)
      ensures shapes == old(shapes) && textElements == old(textElements)
      ensures outbox == old(outbox) + [Message(connectedUsers - {sender}, VoiceNoteMoved(m))]
    {
      var noteIndex := -1;
      var k := 0;
      while k < |voiceNotes| && noteIndex == -1
        invariant 0 <= k <= |voiceNotes|
        invariant noteIndex == -1 || (noteIndex == k - 1 && voiceNotes[noteIndex].id == m.id)
        invariant forall j :: 0 <= j < k && j != noteIndex ==> voiceNotes[j].id != m.id
        decreases |voiceNotes| - k
      {
        if voiceNotes[k].id == m.id {
          noteIndex := k;
        }
        k := k + 1;
      }
      assert noteIndex == FindNoteIndex(voiceNotes, m.id);
      if noteIndex != -1 {
        voiceNotes := voiceNotes[noteIndex := voiceNotes[noteIndex].(x := m.x, y := m.y)];
      }
      outbox := outbox + [Message(connectedUsers - {sender}, VoiceNoteMoved(m))];
    }

    /**
      An event arriving from a member, dispatched to its handler. Events without a handler
      (`user-join`, `erase-voice-notes`, anything else) are dropped: nothing changes and
      nothing is sent.
     */
    method Deliver(sender: SocketId, ev: Event)
      requires Valid() && sender in connectedUsers
      modifies this`drawingData, this`voiceNotes, this`shapes, this`textElements, this`outbox
      ensures Valid()
      ensures connectedUsers == old(connectedUsers)
      ensures Canvas() == Apply(old(Canvas()), ev)
      ensures outbox == old(outbox) + Relayed(connectedUsers, sender, ev)
    {
      match ev {
        case Drawing(s) => OnDrawing(sender, s);
        case ShapeAdded(sh) => OnShape(sender, sh);
        case TextAdded(t) => OnText(sender, t);
        case VoiceNoteAdded(n) => OnVoiceNote(sender, n);
        case VoiceNoteMoved(m) => OnVoiceNoteMoved(sender, m);
        case EraseDrawing(a) => OnEraseDrawing(sender, a);
        case EraseShapes(a) => OnEraseShapes(sender, a);
        case EraseText(a) => OnEraseText(sender, a);
        case ClearCanvas => OnClearCanvas();
        case _ =>
      }
    }
  }

  /** Every message a handler sends goes to members only, and only `clear-canvas` echoes. */
  lemma RelayedReachesOthers(members: set<SocketId>, sender: SocketId, ev: Event)
    ensures |Relayed(members, sender, ev)| <= 1
    ensures forall msg :: msg in Relayed(members, sender, ev) ==>
      msg.recipients <= members && msg.event == ev
      && (sender in msg.recipients <==> ev.ClearCanvas? && sender in members)
  {}

  /** An event the relay does not handle is lost: no state change, no message. */
  lemma UnhandledIsDropped(c: Collections, members: set<SocketId>, sender: SocketId, ev: Event)
    requires !Handled(ev)
    ensures Apply(c, ev) == c && Relayed(members, sender, ev) == []
  {}

  /** `user-join`, which every client emits on connecting, and `erase-voice-notes` are unhandled. */
  lemma ClientOnlyEventsUnhandled(userId: string, a: EraseArea)
    ensures !Handled(UserJoin(userId)) && !Handled(EraseVoiceNotes(a))
  {}

  /** An append event adds its record at the end of its own collection and nowhere else. */
  lemma {:induction false} AppendTouchesOneCollection(c: Collections, ev: Event)
    requires ev.Drawing? || ev.ShapeAdded? || ev.TextAdded? || ev.VoiceNoteAdded?
    ensures var r := Apply(c, ev);
      |r.drawing| + |r.voiceNotes| + |r.shapes| + |r.texts|
        == |c.drawing| + |c.voiceNotes| + |c.shapes| + |c.texts| + 1
    ensures var r := Apply(c, ev);
      r.drawing[..|c.drawing|] == c.drawing && r.voiceNotes[..|c.voiceNotes|] == c.voiceNotes
      && r.shapes[..|c.shapes|] == c.shapes && r.texts[..|c.texts|] == c.texts
  {
    var r := Apply(c, ev);
    match ev {
      case Drawing(s) => assert r.drawing[..|c.drawing|] == c.drawing;
      case ShapeAdded(sh) => assert r.shapes[..|c.shapes|] == c.shapes;
      case TextAdded(t) => assert r.texts[..|c.texts|] == c.texts;
      case VoiceNoteAdded(n) => assert r.voiceNotes[..|c.voiceNotes|] == c.voiceNotes;
    }
  }

  /** Erase handlers only delete, keep the order, and erasing twice equals erasing once. */
  lemma {:induction false} EraseDrawingIsIdempotentSubsequence(c: Collections, a: EraseArea)
    ensures IsSubsequence(Apply(c, EraseDrawing(a)).drawing, c.drawing)
    ensures Apply(Apply(c, EraseDrawing(a)), EraseDrawing(a)) == Apply(c, EraseDrawing(a))
  {
    var e := Apply(c, EraseDrawing(a));
    assert e == c.(drawing := EraseStrokes(c.drawing, a));
    FilterIsSubsequence(c.drawing, s => StrokeSurvives(a, s));
    EraseStrokesIdempotent(c.drawing, a);
    assert Apply(e, EraseDrawing(a)) == e.(drawing := EraseStrokes(e.drawing, a));
  }

  /** `erase-text` leaves strokes, shapes and voice notes as they were. */
  lemma EraseTextTouchesOnlyText(c: Collections, a: EraseArea)
    ensures var r := Apply(c, EraseText(a));
      r.drawing == c.drawing && r.shapes == c.shapes && r.voiceNotes == c.voiceNotes
  {}
}
