/**
  How the copies of the board relate: the relay's stored collections, the copy of a client
  that only receives, and the copy of the client whose gesture caused an event. Each client
  applies its own gestures locally and the relay rebroadcasts them to the others, so the
  copies agree exactly when the local update, the relay's handler and the receiving
  client's listener compute the same thing.
 */
module Replication {
  import opened Records
  import opened Erase
  import opened NoteMoves
  import Relay
  import LegacyRelay
  import SocketHandler
  import BoardState
  import CanvasEvents

  /** The relay's handlers applied to a run of events, in order. */
  function RelayAll(c: Collections, events: seq<Event>): Collections
    decreases |events|
  {
    if events == [] then c else RelayAll(Relay.Apply(c, events[0]), events[1..])
  }

  lemma {:induction false} RelayAllAppend(c: Collections, a: seq<Event>, b: seq<Event>)
    ensures RelayAll(c, a + b) == RelayAll(RelayAll(c, a), b)
    decreases |a|
  {
    if a == [] {
      assert a + b == b;
    } else {
      assert (a + b)[0] == a[0] && (a + b)[1..] == a[1..] + b;
      RelayAllAppend(Relay.Apply(c, a[0]), a[1..], b);
    }
  }

  lemma {:induction false} ReceiveAllAppend(c: Collections, a: seq<Event>, b: seq<Event>)
    ensures SocketHandler.ReceiveAll(c, a + b) == SocketHandler.ReceiveAll(SocketHandler.ReceiveAll(c, a), b)
    decreases |a|
  {
    if a == [] {
      assert a + b == b;
    } else {
      assert (a + b)[0] == a[0] && (a + b)[1..] == a[1..] + b;
      ReceiveAllAppend(SocketHandler.Receive(c, a[0]), a[1..], b);
    }
  }

  /**
    On every event the relay handles, a receiving client computes what the relay stores,
    provided the voice-note ids are unique (the only place the two differ is a move).
   */
  lemma ReceiveAgreesWithRelay(c: Collections, ev: Event)
    requires Relay.Handled(ev) && UniqueIds(c.voiceNotes)
    ensures SocketHandler.Receive(c, ev) == Relay.Apply(c, ev)
  {
    if ev.VoiceNoteMoved? {
      MovesAgreeOnUniqueIds(c.voiceNotes, ev.move);
    }
  }

  /** With a repeated id a move makes the copies differ: two copies move on a client, one on the relay. */
  lemma ReceiveDivergesOnRepeatedId(n: VoiceNote, m: NoteMove)
    requires n.id == m.id && (n.x != m.x || n.y != m.y)
    ensures var c := Collections([], [n, n], [], []);
      SocketHandler.Receive(c, VoiceNoteMoved(m)) != Relay.Apply(c, VoiceNoteMoved(m))
  {
    MovesDisagreeOnDuplicateIds(n, m);
  }

  /**
    A run of handled events that moves no voice note leaves a receiving client with exactly
    the relay's collections, whatever the ids.
   */
  lemma {:induction false} ReplicasConverge(c: Collections, events: seq<Event>)
    requires forall i :: 0 <= i < |events| ==> Relay.Handled(events[i]) && !events[i].VoiceNoteMoved?
    ensures SocketHandler.ReceiveAll(c, events) == RelayAll(c, events)
    decreases |events|
  {
    if events != [] {
      var ev := events[0];
      assert SocketHandler.Receive(c, ev) == Relay.Apply(c, ev) by {
        match ev {
          case Drawing(s) =>
          case ShapeAdded(sh) =>
          case TextAdded(t) =>
          case VoiceNoteAdded(n) =>
          case EraseDrawing(a) =>
          case EraseShapes(a) =>
          case EraseText(a) =>
          case ClearCanvas =>
          case Test =>
        }
      }
      ReplicasConverge(Relay.Apply(c, ev), events[1..]);
    }
  }

  /** A client admitted by the relay and given its snapshot holds exactly the relay's collections. */
  lemma JoinerReplicatesRelay(stored: Collections, local: Collections)
    ensures SocketHandler.ReceiveAll(local, Relay.Snapshot(stored)) == stored
  {
    var s := Relay.Snapshot(stored);
    var c1 := SocketHandler.Receive(local, s[0]);
    var c2 := SocketHandler.Receive(c1, s[1]);
    var c3 := SocketHandler.Receive(c2, s[2]);
    var c4 := SocketHandler.Receive(c3, s[3]);
    assert SocketHandler.ReceiveAll(c4, s[4..]) == c4;
    assert SocketHandler.ReceiveAll(c3, s[3..]) == c4;
    assert SocketHandler.ReceiveAll(c2, s[2..]) == c4;
    assert SocketHandler.ReceiveAll(c1, s[1..]) == c4;
  }

  /**
    A client admitted by the legacy relay gets the strokes and voice notes but keeps whatever
    shapes and text it had, since no load event for them arrives.
   */
  lemma LegacyJoinerKeepsStaleShapesAndText(stored: Collections, local: Collections)
    ensures var r := SocketHandler.ReceiveAll(local, LegacyRelay.LegacySnapshot(stored.drawing, stored.voiceNotes));
      r.drawing == stored.drawing && r.voiceNotes == stored.voiceNotes
      && r.shapes == local.shapes && r.texts == local.texts
  {
    var s := LegacyRelay.LegacySnapshot(stored.drawing, stored.voiceNotes);
    var c1 := SocketHandler.Receive(local, s[0]);
    var c2 := SocketHandler.Receive(c1, s[1]);
    assert SocketHandler.ReceiveAll(c2, s[2..]) == c2;
    assert SocketHandler.ReceiveAll(c1, s[1..]) == c2;
  }

  /** The relay or a client applying `IfShrank(.., ev)` does what applying `ev` would. */
  lemma {:induction false} ShrinkEventStep(c: Collections, before: nat, after: nat, ev: Event)
    requires after == before ==> Relay.Apply(c, ev) == c && SocketHandler.Receive(c, ev) == c
    ensures RelayAll(c, CanvasEvents.IfShrank(before, after, ev)) == Relay.Apply(c, ev)
    ensures SocketHandler.ReceiveAll(c, CanvasEvents.IfShrank(before, after, ev)) == SocketHandler.Receive(c, ev)
  {
    var e := CanvasEvents.IfShrank(before, after, ev);
    if after != before {
      assert e == [ev] && e[1..] == [];
    }
  }

  /** Four runs of events, each taking the copy one step further, make one run. */
  lemma RelayFour(c: Collections, e1: seq<Event>, e2: seq<Event>, e3: seq<Event>, e4: seq<Event>,
                  r1: Collections, r2: Collections, r3: Collections, r4: Collections)
    requires RelayAll(c, e1) == r1 && RelayAll(r1, e2) == r2 && RelayAll(r2, e3) == r3 && RelayAll(r3, e4) == r4
    ensures RelayAll(c, e1 + e2 + e3 + e4) == r4
  {
    RelayAllAppend(c, e1, e2);
    RelayAllAppend(c, e1 + e2, e3);
    RelayAllAppend(c, e1 + e2 + e3, e4);
  }

  lemma ReceiveFour(c: Collections, e1: seq<Event>, e2: seq<Event>, e3: seq<Event>, e4: seq<Event>,
                    r1: Collections, r2: Collections, r3: Collections, r4: Collections)
    requires SocketHandler.ReceiveAll(c, e1) == r1 && SocketHandler.ReceiveAll(r1, e2) == r2
    requires SocketHandler.ReceiveAll(r2, e3) == r3 && SocketHandler.ReceiveAll(r3, e4) == r4
    ensures SocketHandler.ReceiveAll(c, e1 + e2 + e3 + e4) == r4
  {
    ReceiveAllAppend(c, e1, e2);
    ReceiveAllAppend(c, e1 + e2, e3);
    ReceiveAllAppend(c, e1 + e2 + e3, e4);
  }

  /** The stroke part of one eraser step, seen by the relay and by a receiving client. */
  lemma DrawingStep(c: Collections, area: EraseArea)
    ensures var e := CanvasEvents.IfShrank(|c.drawing|, |EraseStrokes(c.drawing, area)|, EraseDrawing(area));
      var r := c.(drawing := EraseStrokes(c.drawing, area));
      RelayAll(c, e) == r && SocketHandler.ReceiveAll(c, e) == r
  {
    SameLengthMeansNothingErased(c, area);
    ShrinkEventStep(c, |c.drawing|, |EraseStrokes(c.drawing, area)|, EraseDrawing(area));
  }

  lemma ShapesStep(c: Collections, area: EraseArea)
    ensures var e := CanvasEvents.IfShrank(|c.shapes|, |Erase.EraseShapes(c.shapes, area)|, EraseShapes(area));
      var r := c.(shapes := Erase.EraseShapes(c.shapes, area));
      RelayAll(c, e) == r && SocketHandler.ReceiveAll(c, e) == r
  {
    SameLengthMeansNothingErased(c, area);
    ShrinkEventStep(c, |c.shapes|, |Erase.EraseShapes(c.shapes, area)|, EraseShapes(area));
  }

  lemma TextStep(c: Collections, area: EraseArea)
    ensures var e := CanvasEvents.IfShrank(|c.texts|, |EraseTexts(c.texts, area)|, EraseText(area));
      var r := c.(texts := EraseTexts(c.texts, area));
      RelayAll(c, e) == r && SocketHandler.ReceiveAll(c, e) == r
  {
    SameLengthMeansNothingErased(c, area);
    ShrinkEventStep(c, |c.texts|, |EraseTexts(c.texts, area)|, EraseText(area));
  }

  /** `erase-voice-notes` changes nothing at the relay or at a receiving client. */
  lemma NotesStep(c: Collections, area: EraseArea)
    ensures var e := CanvasEvents.IfShrank(|c.voiceNotes|, |EraseNotes(c.voiceNotes, area)|, EraseVoiceNotes(area));
      RelayAll(c, e) == c && SocketHandler.ReceiveAll(c, e) == c
  {
    ShrinkEventStep(c, |c.voiceNotes|, |EraseNotes(c.voiceNotes, area)|, EraseVoiceNotes(area));
  }

  /** The erase events of one eraser step, applied by the relay or a receiving client. */
  lemma {:induction false} EmissionsApplied(c: Collections, area: EraseArea)
    ensures var r := RelayAll(c, CanvasEvents.EraseEmissions(c, area));
      r == c.(drawing := EraseStrokes(c.drawing, area), shapes := Erase.EraseShapes(c.shapes, area),
              texts := EraseTexts(c.texts, area))
      && SocketHandler.ReceiveAll(c, CanvasEvents.EraseEmissions(c, area)) == r
  {
    var e1 := CanvasEvents.IfShrank(|c.drawing|, |EraseStrokes(c.drawing, area)|, EraseDrawing(area));
    var e2 := CanvasEvents.IfShrank(|c.shapes|, |Erase.EraseShapes(c.shapes, area)|, EraseShapes(area));
    var e3 := CanvasEvents.IfShrank(|c.texts|, |EraseTexts(c.texts, area)|, EraseText(area));
    var e4 := CanvasEvents.IfShrank(|c.voiceNotes|, |EraseNotes(c.voiceNotes, area)|, EraseVoiceNotes(area));
    assert CanvasEvents.EraseEmissions(c, area) == e1 + e2 + e3 + e4;

    var r1 := c.(drawing := EraseStrokes(c.drawing, area));
    var r2 := r1.(shapes := Erase.EraseShapes(c.shapes, area));
    var r3 := r2.(texts := EraseTexts(c.texts, area));
    DrawingStep(c, area);
    ShapesStep(r1, area);
    TextStep(r2, area);
    NotesStep(r3, area);
    RelayFour(c, e1, e2, e3, e4, r1, r2, r3, r3);
    ReceiveFour(c, e1, e2, e3, e4, r1, r2, r3, r3);
  }

  /**
    What the local eraser sends makes the relay and every other client erase the same
    strokes, shapes and text as the eraser's own client; the voice notes it erased locally
    stay everywhere else, because `erase-voice-notes` has no handler.
   */
  lemma LocalEraseReplicates(c: Collections, coords: CanvasUtils.Point)
    ensures var area := CanvasEvents.EraserAt(coords);
      var local := CanvasEvents.ErasedAll(c, area);
      var relay := RelayAll(c, CanvasEvents.EraseEmissions(c, area));
      relay.drawing == local.drawing && relay.shapes == local.shapes && relay.texts == local.texts
      && relay.voiceNotes == c.voiceNotes
      && SocketHandler.ReceiveAll(c, CanvasEvents.EraseEmissions(c, area)) == relay
  {
    EmissionsApplied(c, CanvasEvents.EraserAt(coords));
  }

  /** The eraser's own voice notes differ from everyone else's exactly when it erased one. */
  lemma LocalNoteEraseIsNotReplicated(c: Collections, coords: CanvasUtils.Point)
    ensures var area := CanvasEvents.EraserAt(coords);
      CanvasEvents.ErasedAll(c, area).voiceNotes != RelayAll(c, CanvasEvents.EraseEmissions(c, area)).voiceNotes
      <==> EraseNotes(c.voiceNotes, area) != c.voiceNotes
  {
    LocalEraseReplicates(c, coords);
  }

  /**
    The divergence above lasts until the eraser's client next reconnects, which it does on
    every zoom, pan step or style change (its socket effect depends on the drawing callback,
    which depends on the view and the style). The relay's snapshot then gives it back exactly
    the relay's collections, the voice notes it erased locally included.
   */
  lemma ResyncRestoresErasedNotes(c: Collections, coords: CanvasUtils.Point)
    ensures var area := CanvasEvents.EraserAt(coords);
      var relay := RelayAll(c, CanvasEvents.EraseEmissions(c, area));
      SocketHandler.ReceiveAll(CanvasEvents.ErasedAll(c, area), Relay.Snapshot(relay)) == relay
      && SocketHandler.ReceiveAll(CanvasEvents.ErasedAll(c, area), Relay.Snapshot(relay)).voiceNotes
         == c.voiceNotes
  {
    var area := CanvasEvents.EraserAt(coords);
    LocalEraseReplicates(c, coords);
    JoinerReplicatesRelay(RelayAll(c, CanvasEvents.EraseEmissions(c, area)), CanvasEvents.ErasedAll(c, area));
  }

  /**
    The local clear keeps the voice notes that the relay and the other clients drop; the
    relay echoes `clear-canvas` to the sender too, and that echo empties the sender's notes,
    after which every copy is empty.
   */
  lemma ClearEchoReconciles(c: Collections, members: set<SocketId>, sender: SocketId)
    requires sender in members
    ensures BoardState.LocallyCleared(c).voiceNotes == c.voiceNotes
    ensures Relay.Apply(c, ClearCanvas) == Empty
    ensures Relay.Relayed(members, sender, ClearCanvas) == [Message(members, ClearCanvas)]
    ensures SocketHandler.Receive(BoardState.LocallyCleared(c), ClearCanvas) == Empty
  {}

  /** Two erases of any kinds, at any places, give the same result in either order. */
  lemma ConcurrentErasesCommute(c: Collections, e1: Event, e2: Event)
    requires e1.EraseDrawing? || e1.EraseShapes? || e1.EraseText?
    requires e2.EraseDrawing? || e2.EraseShapes? || e2.EraseText?
    ensures Relay.Apply(Relay.Apply(c, e1), e2) == Relay.Apply(Relay.Apply(c, e2), e1)
  {
    if e1.EraseDrawing? && e2.EraseDrawing? {
      EraseStrokesCommute(c.drawing, e1.area, e2.area);
    } else if e1.EraseShapes? && e2.EraseShapes? {
      EraseShapesCommute(c.shapes, e1.area, e2.area);
    } else if e1.EraseText? && e2.EraseText? {
      EraseTextsCommute(c.texts, e1.area, e2.area);
    }
  }
}
