/**
  Moving a voice note. The relays look the note up with findIndex and overwrite the x and y
  of the FIRST note with that id; a client replaying the event maps over its notes and moves
  EVERY note with that id. The two agree whenever ids are unique.
 */
module NoteMoves {
  import opened Records

  /** findIndex(note => note.id === id): the first position holding `id`, or -1. */
  function FindNoteIndex(notes: seq<VoiceNote>, id: int): (i: int)
    ensures -1 <= i < |notes|
    ensures i >= 0 ==> notes[i].id == id && forall j :: 0 <= j < i ==> notes[j].id != id
    ensures i == -1 <==> forall j :: 0 <= j < |notes| ==> notes[j].id != id
  {
    if notes == [] then -1
    else if notes[0].id == id then 0
    else
      var k := FindNoteIndex(notes[1..], id);
      assert forall j :: 1 <= j < |notes| ==> notes[j] == notes[1..][j - 1];
      if k == -1 then -1 else k + 1
  }

  function Moved(n: VoiceNote, m: NoteMove): VoiceNote
  {
    n.(x := m.x, y := m.y)
  }

  /** The relay's update: the first note with the id gets the new position, if there is one. */
  function MoveFirst(notes: seq<VoiceNote>, m: NoteMove): (r: seq<VoiceNote>)
    ensures |r| == |notes|
    ensures var i := FindNoteIndex(notes, m.id);
      forall j :: 0 <= j < |notes| ==> r[j] == (if j == i then Moved(notes[j], m) else notes[j])
  {
    var i := FindNoteIndex(notes, m.id);
    if i != -1 then notes[i := Moved(notes[i], m)] else notes
  }

  /** The client's update: every note with the id gets the new position. */
  function MoveMatching(notes: seq<VoiceNote>, m: NoteMove): (r: seq<VoiceNote>)
    ensures |r| == |notes|
    ensures forall j :: 0 <= j < |notes| ==>
      r[j] == (if notes[j].id == m.id then Moved(notes[j], m) else notes[j])
  {
    seq(|notes|, j requires 0 <= j < |notes| => if notes[j].id == m.id then Moved(notes[j], m) else notes[j])
  }

  function Ids(notes: seq<VoiceNote>): seq<int>
  {
    seq(|notes|, j requires 0 <= j < |notes| => notes[j].id)
  }

  predicate UniqueIds(notes: seq<VoiceNote>)
  {
    forall i, j :: 0 <= i < j < |notes| ==> notes[i].id != notes[j].id
  }

  /** Neither move changes any id, so uniqueness of ids is preserved. */
  lemma MovesKeepIds(notes: seq<VoiceNote>, m: NoteMove)
    ensures Ids(MoveFirst(notes, m)) == Ids(notes)
    ensures Ids(MoveMatching(notes, m)) == Ids(notes)
  {}

  /** A move to an id that is not present changes nothing, on either side. */
  lemma {:induction false} MoveUnknownIdIsNoOp(notes: seq<VoiceNote>, m: NoteMove)
    requires forall j :: 0 <= j < |notes| ==> notes[j].id != m.id
    ensures MoveFirst(notes, m) == notes
    ensures MoveMatching(notes, m) == notes
  {
    assert FindNoteIndex(notes, m.id) == -1;
  }

  /** With unique ids the relay's and the client's updates agree. */
  lemma {:induction false} MovesAgreeOnUniqueIds(notes: seq<VoiceNote>, m: NoteMove)
    requires UniqueIds(notes)
    ensures MoveFirst(notes, m) == MoveMatching(notes, m)
  {
    var i := FindNoteIndex(notes, m.id);
    var a, b := MoveFirst(notes, m), MoveMatching(notes, m);
    forall j | 0 <= j < |notes| ensures a[j] == b[j]
    {
      if i >= 0 && j > i {
        assert notes[i].id != notes[j].id;
      }
    }
  }

  /** With a repeated id they do not: the relay moves one copy, the client moves both. */
  lemma MovesDisagreeOnDuplicateIds(n: VoiceNote, m: NoteMove)
    requires n.id == m.id && (n.x != m.x || n.y != m.y)
    ensures MoveFirst([n, n], m) == [Moved(n, m), n]
    ensures MoveMatching([n, n], m) == [Moved(n, m), Moved(n, m)]
    ensures MoveFirst([n, n], m) != MoveMatching([n, n], m)
  {
    assert FindNoteIndex([n, n], m.id) == 0;
    assert MoveMatching([n, n], m)[1] == Moved(n, m);
  }
}
