/**
  The older relay of backend/server.js: the same two-member room, but it stores only pen
  strokes and voice notes and handles only `drawing`, `clear-canvas`, `voice-note`,
  `voice-note-moved` and `disconnect`.
 */
module LegacyRelay {
  import opened Records
  import opened NoteMoves
  import Relay

  /** What the legacy relay stores and what the newer relay keeps besides. */
  function Stored(c: Collections): Collections
  {
    Collections(c.drawing, c.voiceNotes, [], [])
  }

  /** The two load events an admitted connection receives. */
  function LegacySnapshot(drawing: seq<Stroke>, notes: seq<VoiceNote>): (r: seq<Event>)
    ensures |r| == 2 && r[0] == LoadDrawing(drawing) && r[1] == LoadVoiceNotes(notes)
  {
    [LoadDrawing(drawing), LoadVoiceNotes(notes)]
  }

  /** The events the legacy relay has a handler for. */
  predicate LegacyHandled(ev: Event)
  {
    ev.Drawing? || ev.VoiceNoteAdded? || ev.VoiceNoteMoved? || ev.ClearCanvas?
  }

  /** The legacy relay's effect on its two lists: the newer relay's rule on handled events. */
  function LegacyApply(c: Collections, ev: Event): Collections
  {
    if LegacyHandled(ev) then Stored(Relay.Apply(c, ev)) else Stored(c)
  }

  class LegacyRoom {
    var connectedUsers: set<SocketId>
    var drawingData: seq<Stroke>
    var voiceNotes: seq<VoiceNote>
    var outbox: seq<Message>

    ghost predicate Valid()
      reads this
    {
      |connectedUsers| <= Relay.Capacity
    }

    constructor()
      ensures Valid()
      ensures connectedUsers == {} && drawingData == [] && voiceNotes == [] && outbox == []
    {
      connectedUsers := {};
      drawingData := [];
      voiceNotes := [];
      outbox := [];
    }

    /** Admission as in the newer relay, but the snapshot holds only the two lists. */
    method Connect(id: SocketId) returns (admitted: bool)
      requires Valid()
      modifies this
      ensures Valid()
      ensures admitted <==> |old(connectedUsers)| < Relay.Capacity
      ensures drawingData == old(drawingData) && voiceNotes == old(voiceNotes)
      ensures !admitted ==>
        connectedUsers == old(connectedUsers) && outbox == old(outbox) + [Message({id}, RoomFull)]
      ensures admitted ==>
        connectedUsers == old(connectedUsers) + {id}
        && outbox == old(outbox) + Relay.ToOne(id, LegacySnapshot(drawingData, voiceNotes))
                     + [Message(connectedUsers, UserCount(|connectedUsers|))]
    {
      if |connectedUsers| >= Relay.Capacity {
        outbox := outbox + [Message({id}, RoomFull)];
        return false;
      }
      connectedUsers := connectedUsers + {id};
      outbox := outbox + [Message({id}, LoadDrawing(drawingData))];
      outbox := outbox + [Message({id}, LoadVoiceNotes(voiceNotes))];
      outbox := outbox + [Message(connectedUsers, UserCount(|connectedUsers|))];
      admitted := true;
    }

    method Disconnect(id: SocketId)
      requires Valid() && id in connectedUsers
      modifies this
      ensures Valid()
      ensures connectedUsers == old(connectedUsers) - {id}
      ensures |connectedUsers| == |old(connectedUsers)| - 1
      ensures drawingData == old(drawingData) && voiceNotes == old(voiceNotes)
      ensures outbox == old(outbox) + [Message(connectedUsers, UserCount(|connectedUsers|))]
    {
      connectedUsers := connectedUsers - {id};
      outbox := outbox + [Message(connectedUsers, UserCount(|connectedUsers|))];
    }

    method OnDrawing(sender: SocketId, s: Stroke)
      modifies this
      ensures drawingData == old(drawingData) + [s]
      ensures connectedUsers == old(connectedUsers) && voiceNotes == old(voiceNotes)
      ensures outbox == old(outbox) + [Message(connectedUsers - {sender}, Drawing(s))]
    {
      drawingData := drawingData + [s];
      outbox := outbox + [Message(connectedUsers - {sender}, Drawing(s))];
    }

    method OnClearCanvas()
      modifies this
      ensures drawingData == [] && voiceNotes == []
      ensures connectedUsers == old(connectedUsers)
      ensures outbox == old(outbox) + [Message(connectedUsers, ClearCanvas)]
    {
      drawingData := [];
      voiceNotes := [];
      outbox := outbox + [Message(connectedUsers, ClearCanvas)];
    }

    method OnVoiceNote(sender: SocketId, n: VoiceNote)
      modifies this
      ensures voiceNotes == old(voiceNotes) + [n]
      ensures connectedUsers == old(connectedUsers) && drawingData == old(drawingData)
      ensures outbox == old(outbox) + [Message(connectedUsers - {sender}, VoiceNoteAdded(n))]
    {
      voiceNotes := voiceNotes + [n];
      outbox := outbox + [Message(connectedUsers - {sender}, VoiceNoteAdded(n))];
    }

    /** The same first-match move as the newer relay, found by a scan. */
    method OnVoiceNoteMoved(sender: SocketId, m: NoteMove)
      modifies this
      ensures voiceNotes == MoveFirst(old(voiceNotes), m)
      ensures connectedUsers == old(connectedUsers) && drawingData == old(drawingData)
      ensures outbox == old(outbox) + [Message(connectedUsers - {sender}, VoiceNoteMoved(m))]
    {
      var noteIndex := -1;
      var k := 0;
      while k < |voiceNotes| && noteIndex == -1
        invariant 0 <= k <= |voiceNotes|
        invariant noteIndex == -1 || (noteIndex == k - 1 && voiceNotes[noteIndex].id == m.id)
        invariant forall j :: 0 <= j < k && j != noteIndex ==> voiceNotes[j].id != m.id
        decreases |voiceNotes| - k
      {
        if voiceNotes[k].id == m.id {
          noteIndex := k;
        }
        k := k + 1;
      }
      assert noteIndex == FindNoteIndex(voiceNotes, m.id);
      if noteIndex != -1 {
        voiceNotes := voiceNotes[noteIndex := voiceNotes[noteIndex].(x := m.x, y := m.y)];
      }
      outbox := outbox + [Message(connectedUsers - {sender}, VoiceNoteMoved(m))];
    }

    /** An event from a member; shapes, text and erases have no handler here and are dropped. */
    method Deliver(sender: SocketId, ev: Event)
      requires Valid() && sender in connectedUsers
      modifies this
      ensures Valid()
      ensures connectedUsers == old(connectedUsers)
      ensures Collections(drawingData, voiceNotes, [], [])
        == LegacyApply(Collections(old(drawingData), old(voiceNotes), [], []), ev)
      ensures outbox == old(outbox)
        + (if LegacyHandled(ev) then Relay.Relayed(connectedUsers, sender, ev) else [])
    {
      match ev {
        case Drawing(s) => OnDrawing(sender, s);
        case VoiceNoteAdded(n) => OnVoiceNote(sender, n);
        case VoiceNoteMoved(m) => OnVoiceNoteMoved(sender, m);
        case ClearCanvas => OnClearCanvas();
        case _ =>
      }
    }
  }

  /**
    On the events both relays handle, the legacy relay's two lists evolve exactly as the
    newer relay's strokes and voice notes do.
   */
  lemma {:induction false} LegacyAgreesOnSharedEvents(c: Collections, ev: Event)
    requires LegacyHandled(ev)
    ensures Stored(Relay.Apply(Stored(c), ev)) == Stored(Relay.Apply(c, ev))
    ensures Relay.Handled(ev)
  {
    match ev {
      case Drawing(s) =>
      case VoiceNoteAdded(n) =>
      case VoiceNoteMoved(m) =>
      case ClearCanvas =>
    }
  }

  /**
    A connection joining through the legacy relay never learns the shapes or the text: its
    snapshot has no load event for them, while the newer relay's does.
   */
  lemma LegacySnapshotOmitsShapesAndText(c: Collections)
    ensures forall e :: e in LegacySnapshot(c.drawing, c.voiceNotes) ==> !e.LoadShapes? && !e.LoadText?
    ensures LoadShapes(c.shapes) in Relay.Snapshot(c) && LoadText(c.texts) in Relay.Snapshot(c)
    ensures LegacySnapshot(c.drawing, c.voiceNotes) == Relay.Snapshot(c)[..2]
  {}

  /** `shape`, `text` and the three erase events are unhandled by the legacy relay. */
  lemma LegacyDropsShapesTextAndErases(c: Collections, ev: Event)
    requires ev.ShapeAdded? || ev.TextAdded? || ev.EraseDrawing? || ev.EraseShapes? || ev.EraseText?
    ensures !LegacyHandled(ev) && Relay.Handled(ev)
  {}
}
