# Collaborative whiteboard: relay, client mirror and gestures

A two-person whiteboard. A relay keeps one room of at most two connections and four ordered
collections: pen strokes, shapes, text elements and voice notes. Every client draws locally
and sends what it did to the relay. The relay stores it and rebroadcasts it to the other
member. Each client applies what it receives to its own copy of the four collections.

The model has three parts.

- **The relay** (`api/socket.js`, and the older `backend/server.js` that stores only strokes
  and voice notes). Each is a class (`Relay.Room`, `LegacyRelay.LegacyRoom`). Its fields are
  the membership set, the stored lists and an outbox. Every `emit` is appended to the outbox
  as a message with its set of recipients: the connection itself, every other member
  (`broadcast`), or every member (`io.emit`).
- **The client mirror** (`useSocketHandler.js`). `SocketHandler.Receive` is the pure effect of
  one received event. `SocketHandler.OnRemoteEvent` applies it to the component's state cells,
  which are the fields of `BoardState.Board`.
- **Local gestures, geometry and zoom** (`useCanvasEvents.js`, `canvasUtils.js`, `Canvas.jsx`,
  `ZoomControls.jsx`). The hook's state cells are the fields of `CanvasEvents.Gestures`, and its
  handlers are methods on that class. Point-to-segment distance, the screen/logical
  transform and the zoom steps are pure functions.

The erase rules live in `Erase`. They are shared by the relay, the mirror and the local
eraser, exactly as the three copies of the same predicates in the source are identical.
`Replication` relates the copies:

- a client that joins holds the relay's collections;
- relay and client agree on every handled event when voice-note ids are unique;
- they diverge on a move when an id repeats (the relay moves the first match, a client
  moves every match);
- the local eraser's events reproduce its strokes, shapes and text everywhere, but not its
  voice notes, because nobody handles `erase-voice-notes`;
- the local clear keeps voice notes until the relay's echoed `clear-canvas` empties them;
- erases at any two places commute.

Geometry is over reals. `Math.sqrt(d2) > r` is modelled as `FartherThan(d2, r)`, which is
`r < 0 || d2 > r * r`. `CanvasUtils.FartherThanIsRootComparison` proves this is the same
test, so distances are carried squared.

The `user-count` listener calls `setUserCount`, which `frontend/src/components/Canvas.jsx:74-82`
never passes to the hook, so the listener changes no state; `SocketHandler.OnRemoteEvent`
treats it that way.

The client's connection is not long-lived. The socket hook's effect
(`frontend/src/hooks/useSocketHandler.js:17-126`) depends on the drawing callback, which is
re-created whenever the scale, the pan or the drawing style changes. Every zoom, pan step or
style change therefore closes the connection and opens a new one. The relay sees a
disconnect and a connect (`Relay.Room.Reconnect`). The client announces itself again and
receives the relay's snapshot, which replaces its four collections
(`Replication.JoinerReplicatesRelay`). In particular, voice notes that the eraser removed only
locally come back at the next such change (`Replication.ResyncRestoresErasedNotes`).

## Model

| member | source | states |
|---|---|---|
| Seqs.FilterIsSubsequence | api/socket.js:101-108 | a filter only deletes: what survives keeps its relative order |
| Seqs.FilterIdempotent | api/socket.js:101-108 | filtering twice with the same predicate equals filtering once |
| Seqs.FilterKeepsLength | frontend/src/hooks/useCanvasEvents.js:79 | the filtered list has the original length iff it is the original list iff every element passes |
| Seqs.FilterCommutes | frontend/src/hooks/useSocketHandler.js:79-114 | two filters give the same list in either order |
| CanvasUtils.DistSq | frontend/src/utils/canvasUtils.js:19-22 | the squared distance is never negative and is zero between equal points |
| CanvasUtils.FartherThanIsRootComparison | frontend/src/utils/canvasUtils.js:22 | for a non-negative root s of d2, `FartherThan(d2, r)` holds iff `s > r`, so dropping the square root loses nothing |
| CanvasUtils.NearestParam | frontend/src/utils/canvasUtils.js:11-14 | the projection parameter is clamped to [0, 1] |
| CanvasUtils.DistanceToSegmentSq | frontend/src/utils/canvasUtils.js:2-23 | the result is never negative and is the squared distance to the segment point at the clamped parameter |
| CanvasUtils.AlongExpansion | frontend/src/utils/canvasUtils.js:16-22 | the squared distance to the point at t is the quadratic `k - 2*t*dot + t*t*len` |
| CanvasUtils.StartIsNearest | frontend/src/utils/canvasUtils.js:13-14 | when the projection falls before the start, t = 0 minimises the quadratic over t >= 0 |
| CanvasUtils.EndIsNearest | frontend/src/utils/canvasUtils.js:13-14 | when the projection falls past the end, t = 1 minimises the quadratic over t <= 1 |
| CanvasUtils.ProjectionIsNearest | frontend/src/utils/canvasUtils.js:13 | the unclamped projection `dot / lenSq` minimises the quadratic |
| CanvasUtils.DistanceIsMinimumOverSegment | frontend/src/utils/canvasUtils.js:2-23 | no point of the segment, at any parameter in [0, 1], is nearer to the point than the one chosen |
| CanvasUtils.DegenerateSegment | frontend/src/utils/canvasUtils.js:9-11 | for a zero-length segment the result is the distance to the start point |
| CanvasUtils.DistanceExample | frontend/src/utils/canvasUtils.js:2-23 | segment (0,0)-(10,0) is at distance 1 from (5,1): a radius-1.5 erase removes it, a radius-0.5 erase does not |
| CanvasUtils.ScreenToLogical | frontend/src/utils/canvasUtils.js:43-44 | the logical point maps back to the screen point under `logical * scale + pan` |
| CanvasUtils.GetLogicalCoordinates | frontend/src/utils/canvasUtils.js:36-47 | per axis, `p * scale + pan` equals the pointer position minus the canvas origin |
| CanvasUtils.LogicalRoundTrip | frontend/src/utils/canvasUtils.js:43-44 | for a non-zero scale, logical to screen and back is the identity |
| CanvasUtils.GetUserInitials | frontend/src/utils/canvasUtils.js:30-33 | 'U' for an absent or empty id, otherwise the first one or two characters upper-cased, so 1 to 2 characters and no lower-case letter |
| JsStrings.Trim | frontend/src/hooks/useCanvasEvents.js:280-283 | the result is the slice between an all-whitespace prefix and suffix; it is empty iff the input is all whitespace, and otherwise starts and ends with non-whitespace |
| JsStrings.TrimIdempotent | frontend/src/hooks/useCanvasEvents.js:283 | trimming a trimmed string changes nothing |
| JsStrings.ToUpperCase | frontend/src/utils/canvasUtils.js:32 | same length, no lower-case ASCII letter left, and each character is kept or is its lower-case letter shifted to upper case |
| Erase.StrokeSurvivesIffSegmentClear | api/socket.js:97-110 | a stroke survives iff every point of its segment is farther than the radius; an erased stroke has a point of the segment within the radius |
| Erase.ShapeHitIsGrownBox | api/socket.js:112-125 | a shape is hit iff the centre lies in the min/max bounding box of its corners grown by the radius on every side |
| Erase.ShapeHitIgnoresDragDirection | api/socket.js:114-117 | replacing (x, width) by (x + width, -width), or the same for y and height, gives the same hit test |
| Erase.TextSurvivesIffFar | api/socket.js:127-135 | a text element survives iff the Euclidean distance from the centre to its anchor exceeds the radius |
| Erase.EraseStrokesIdempotent | api/socket.js:97-110 | erasing twice at one place equals erasing once |
| Erase.EraseStrokesCommute | frontend/src/hooks/useSocketHandler.js:79-89 | two stroke erases give the same list in either order |
| Erase.EraseShapesCommute | frontend/src/hooks/useSocketHandler.js:91-104 | two shape erases give the same list in either order |
| Erase.EraseTextsCommute | frontend/src/hooks/useSocketHandler.js:106-114 | two text erases give the same list in either order |
| Erase.NegativeRadiusErasesNothing | api/socket.js:100-108 | with a negative radius no stroke, text element or voice note is removed |
| Erase.NegativeRadiusCanStillEraseShape | api/socket.js:112-125 | shapes differ: a 100 by 100 shape at the origin is still hit, and erased, by a radius −8 erase centred at (50, 50) |
| Erase.SameLengthMeansNothingErased | frontend/src/hooks/useCanvasEvents.js:79 | for each collection, the erased list has the old length iff it equals the old list, so the length test detects exactly whether anything was erased |
| NoteMoves.FindNoteIndex | api/socket.js:155 | -1 iff no note has the id, otherwise the first index holding it |
| NoteMoves.MoveFirst | api/socket.js:155-159 | same length; only the first note with the id gets the new x and y |
| NoteMoves.MoveMatching | frontend/src/hooks/useSocketHandler.js:64-68 | same length; every note with the id gets the new x and y and every other note is unchanged |
| NoteMoves.MovesKeepIds | api/socket.js:153-161 | neither move changes any id |
| NoteMoves.MoveUnknownIdIsNoOp | api/socket.js:156 | a move to an absent id changes nothing, on either side |
| NoteMoves.MovesAgreeOnUniqueIds | frontend/src/hooks/useSocketHandler.js:64-68 | with unique ids the relay's and the client's moves give the same list |
| NoteMoves.MovesDisagreeOnDuplicateIds | frontend/src/hooks/useSocketHandler.js:65-67 | with a repeated id the relay moves one copy and the client moves both |
| Relay.ToOne | api/socket.js:64-67 | one message per event, in order, each addressed to that connection alone |
| Relay.Room.constructor | api/socket.js:5-11 | no members, four empty collections, nothing sent |
| Relay.Room.Connect | api/socket.js:54-70 | admitted iff fewer than two members; a refused connection gets `room-full` and is not added; an admitted one is added, gets the four stored collections, then every member gets the new count; membership stays at most two |
| Relay.Room.Disconnect | api/socket.js:163-167 | only that id leaves, the size drops by one, and the remaining members get the new count |
| Relay.Room.Reconnect | api/socket.js:54-167 | a member's client closing and reopening its connection is always admitted; the collections are kept, the remaining member is told the lower count, then the new connection gets the snapshot and everyone the new count |
| Relay.Room.OnDrawing | api/socket.js:73-76 | the stroke is appended, the other lists are untouched, and it is rebroadcast to the other members |
| Relay.Room.OnShape | api/socket.js:84-88 | the shape is appended, the other lists are untouched, and it is rebroadcast to the other members |
| Relay.Room.OnText | api/socket.js:91-94 | the text element is appended, the other lists are untouched, and it is rebroadcast to the other members |
| Relay.Room.OnVoiceNote | api/socket.js:147-150 | the voice note is appended, the other lists are untouched, and it is rebroadcast to the other members |
| Relay.Room.OnEraseDrawing | api/socket.js:97-110 | strokes become the erase-filtered strokes, the rest is untouched, and the erase is rebroadcast |
| Relay.Room.OnEraseShapes | api/socket.js:112-125 | shapes become the erase-filtered shapes, the rest is untouched, and the erase is rebroadcast |
| Relay.Room.OnEraseText | api/socket.js:127-135 | text becomes the erase-filtered text, the rest is untouched, and the erase is rebroadcast |
| Relay.Room.OnClearCanvas | api/socket.js:138-144 | all four collections are emptied and every member, the sender included, is told |
| Relay.Room.OnVoiceNoteMoved | api/socket.js:153-161 | the scan finds the first note with the id, and the notes become `MoveFirst` of the old notes; the event is rebroadcast whether or not a note matched |
| Relay.Room.Deliver | api/socket.js:72-161 | any event from a member changes the collections by `Apply` and appends `Relayed`; membership is unchanged |
| Relay.RelayedReachesOthers | api/socket.js:75 | at most one message per event, addressed to members only, carrying the event unchanged, and reaching the sender iff it is `clear-canvas` |
| Relay.UnhandledIsDropped | api/socket.js:72-167 | an event without a handler changes nothing and sends nothing |
| Relay.ClientOnlyEventsUnhandled | frontend/src/hooks/useCanvasEvents.js:127-131 | `user-join` and `erase-voice-notes`, which clients emit, have no relay handler |
| Relay.AppendTouchesOneCollection | api/socket.js:73-94 | an append event grows the total by exactly one and keeps every collection's old elements as its prefix |
| Relay.EraseDrawingIsIdempotentSubsequence | api/socket.js:97-110 | the stored strokes after an erase are a subsequence of those before, and repeating the erase changes nothing |
| Relay.EraseTextTouchesOnlyText | api/socket.js:127-135 | `erase-text` leaves strokes, shapes and voice notes as they were |
| LegacyRelay.LegacySnapshot | backend/server.js:38-39 | the snapshot is `load-drawing` then `load-voice-notes`, nothing else |
| LegacyRelay.LegacyRoom.constructor | backend/server.js:19-23 | no members, both lists empty, nothing sent |
| LegacyRelay.LegacyRoom.Connect | backend/server.js:28-42 | admitted iff fewer than two members; refused gets `room-full` and is not added; admitted gets the two lists, then every member gets the count |
| LegacyRelay.LegacyRoom.Disconnect | backend/server.js:74-78 | only that id leaves and the remaining members get the new count |
| LegacyRelay.LegacyRoom.OnDrawing | backend/server.js:45-48 | the stroke is appended, voice notes are untouched, and it is rebroadcast to the others |
| LegacyRelay.LegacyRoom.OnClearCanvas | backend/server.js:51-55 | both lists are emptied and every member is told |
| LegacyRelay.LegacyRoom.OnVoiceNote | backend/server.js:58-61 | the note is appended, strokes are untouched, and it is rebroadcast to the others |
| LegacyRelay.LegacyRoom.OnVoiceNoteMoved | backend/server.js:64-72 | the first note with the id is moved and the event is always rebroadcast |
| LegacyRelay.LegacyRoom.Deliver | backend/server.js:44-72 | any event changes the two lists by `LegacyApply`; only handled events are relayed |
| LegacyRelay.LegacyAgreesOnSharedEvents | backend/server.js:45-72 | on the events both relays handle, the legacy lists evolve exactly as the newer relay's strokes and voice notes |
| LegacyRelay.LegacySnapshotOmitsShapesAndText | backend/server.js:37-39 | the legacy snapshot has no shape or text load and is the first two events of the newer snapshot |
| LegacyRelay.LegacyDropsShapesTextAndErases | backend/server.js:44-78 | `shape`, `text` and the three erase events are handled by the newer relay but not by the legacy one |
| ZoomControls.ZoomOut | frontend/src/components/ZoomControls.jsx:17 | `scale - 0.25` when that is at least 0.25, otherwise 0.25; so never below 0.25, and inside the range it stays inside and decreases iff the scale is above 0.25 |
| ZoomControls.ZoomIn | frontend/src/components/ZoomControls.jsx:24 | `scale + 0.25` when that is at most 3, otherwise 3; so never above 3, and inside the range it stays inside and increases iff the scale is below 3 |
| ZoomControls.Magnify | frontend/src/components/ZoomControls.jsx:42 | `scale * 1.2` when that is at most 3, otherwise 3; so never above 3, and inside the range it stays inside and increases iff the scale is below 3 |
| ZoomControls.Click | frontend/src/components/ZoomControls.jsx:15-46 | "−", "+" and the magnifier give the scale of `ZoomOut`, `ZoomIn` and `Magnify` and keep the pan; reset gives scale 1 and pan (0, 0); every button keeps the scale in range |
| BoardState.Board.constructor | frontend/src/components/Canvas.jsx:24-45 | pen tool, scale 1, pan (0, 0), four empty collections, pointer at (100, 100) |
| BoardState.Board.ClearCanvas | frontend/src/components/Canvas.jsx:177-181 | strokes, shapes and text are emptied; the voice notes, the view, the tool, the style, the pointer position and what was sent are kept |
| BoardState.Board.HandleClearCanvas | frontend/src/components/Canvas.jsx:183-186 | the local clear, then exactly one `clear-canvas` sent; the view, the tool, the style and the pointer position are kept |
| BoardState.Board.ClickZoom | frontend/src/components/Canvas.jsx:248-255 | the view becomes `Click` of the old view and stays in range; the collections, the tool, the style, the pointer position and what was sent are kept |
| SocketHandler.OnConnect | frontend/src/hooks/useSocketHandler.js:26-29 | one `user-join` with the user's id is sent; nothing else changes; it runs again on every reconnection |
| SocketHandler.OnRemoteEvent | frontend/src/hooks/useSocketHandler.js:31-121 | the collections become `Receive` of the old ones; `room-full` only raises the flag; nothing is sent and the view is untouched |
| SocketHandler.OnLiveEvent | frontend/src/hooks/useSocketHandler.js:39-114 | the append, move and erase listeners update the collections as `Receive` does |
| SocketHandler.ReceiveAppendsOne | frontend/src/hooks/useSocketHandler.js:39-77 | a received append grows the total by one and puts its record at the end of its own collection, after the old elements |
| SocketHandler.ReceiveMoveOnlyTarget | frontend/src/hooks/useSocketHandler.js:64-68 | a received move keeps the note count and the other collections, and changes no note with another id |
| SocketHandler.StatusEventsKeepCollections | frontend/src/hooks/useSocketHandler.js:31-37 | `room-full` and `user-count` leave the collections alone |
| CanvasEvents.Recent | frontend/src/hooks/useCanvasEvents.js:61-66 | exactly the trail points younger than 300 ms, in order; same length iff same trail iff nothing expired |
| CanvasEvents.EraserAt | frontend/src/hooks/useCanvasEvents.js:51 | the erase circle is centred on the pointer with radius half the eraser size (8) |
| CanvasEvents.EraseEmissions | frontend/src/hooks/useCanvasEvents.js:79-131 | at most four events, and each erase event is present iff its collection actually changed |
| CanvasEvents.ReleaseEmission | frontend/src/hooks/useCanvasEvents.js:394-402 | one `voice-note-moved` with the note's current position iff a note with the id exists, otherwise nothing |
| CanvasEvents.WheelDelta | frontend/src/hooks/useCanvasEvents.js:414-418 | -0.1 iff `deltaY > 0`, otherwise +0.1 |
| CanvasEvents.Gestures.constructor | frontend/src/hooks/useCanvasEvents.js:28-47 | no gesture in progress, empty text input and trail |
| CanvasEvents.Gestures.Segment | frontend/src/hooks/useCanvasEvents.js:199-208 | the segment runs from the given start to the given end |
| CanvasEvents.Gestures.EraseAtPosition | frontend/src/hooks/useCanvasEvents.js:49-132 | the trail gains the screen point and drops expired ones; the four collections are filtered by the circle; the erase events sent are `EraseEmissions` |
| CanvasEvents.Gestures.EraseCollections | frontend/src/hooks/useCanvasEvents.js:68-131 | the collections become `ErasedAll` and the events sent are `EraseEmissions` |
| CanvasEvents.Gestures.FilterDrawing | frontend/src/hooks/useCanvasEvents.js:68-83 | strokes are erase-filtered, and `erase-drawing` is sent iff their number dropped |
| CanvasEvents.Gestures.FilterShapes | frontend/src/hooks/useCanvasEvents.js:85-103 | shapes are erase-filtered, and `erase-shapes` is sent iff their number dropped |
| CanvasEvents.Gestures.FilterTexts | frontend/src/hooks/useCanvasEvents.js:105-117 | text is erase-filtered, and `erase-text` is sent iff its number dropped |
| CanvasEvents.Gestures.FilterVoiceNotes | frontend/src/hooks/useCanvasEvents.js:119-131 | voice notes are erase-filtered, and `erase-voice-notes` is sent iff their number dropped |
| CanvasEvents.Gestures.StartDrawing | frontend/src/hooks/useCanvasEvents.js:134-188 | ignored while a note is held; the hand starts a pan at pointer minus pan; any other tool has the effect `StartedWith` at the logical pointer and leaves the pan cells alone; every branch keeps the other tools' cells |
| CanvasEvents.Gestures.StartWithTool | frontend/src/hooks/useCanvasEvents.js:143-187 | `StartedWith`: the pen records only its start point; the eraser erases, with the trail updated; text opens an empty editor; a shape tool starts a zero-sized shape; each tool leaves the other tools' cells unchanged |
| CanvasEvents.Gestures.PenTo | frontend/src/hooks/useCanvasEvents.js:196-222 | with a last position, one segment from it to the pointer is stored and sent; the pointer becomes the last position, so the next segment starts where this one ends |
| CanvasEvents.Gestures.Draw | frontend/src/hooks/useCanvasEvents.js:190-247 | ignored while a note is held; the pen chains a segment and keeps the trail; the eraser erases and updates the trail; a shape being dragged gets width and height equal to pointer minus start |
| CanvasEvents.Gestures.StopDrawing | frontend/src/hooks/useCanvasEvents.js:249-277 | the pen lifts; a shape is stored and sent (after `test`) with id `now` iff its width or height exceeds 5 in size; the shape state is reset either way |
| CanvasEvents.Gestures.HandleTextSubmit | frontend/src/hooks/useCanvasEvents.js:279-293 | text is stored and sent iff an editor is open and the trimmed input is non-empty, and the stored text is the trimmed input; the editor always closes |
| CanvasEvents.Gestures.HandleVoiceNoteMouseDown | frontend/src/hooks/useCanvasEvents.js:301-333 | the note is held but not dragged; the press point, the offset from the note and the time are recorded; the release timer is armed |
| CanvasEvents.Gestures.DragTimeout | frontend/src/hooks/useCanvasEvents.js:326-332 | a still-armed timer releases the held note and clears the drag state; otherwise nothing changes |
| CanvasEvents.Gestures.HandleMouseMove | frontend/src/hooks/useCanvasEvents.js:335-378 | while panning it returns pointer minus pan start and changes nothing; otherwise it records the pointer, a held note becomes a drag iff the pointer is strictly more than 5 from the press point, and a note already being dragged moves to pointer minus offset |
| CanvasEvents.Gestures.HandleMouseUp | frontend/src/hooks/useCanvasEvents.js:380-412 | the timer is cancelled; a pan ends with every drag cell kept and nothing sent; a held note is released with all drag state reset (`NoteReleased`), and `voice-note-moved` is sent once with its current position iff it was dragged; with no note held the drag cells are kept and nothing is sent |
| CanvasComponent.WheelZoom | frontend/src/components/Canvas.jsx:190 | the result is in [0.25, 3], equals `scale + delta` when that is in range, and is the nearer bound otherwise |
| CanvasComponent.CleanupTrail | frontend/src/components/Canvas.jsx:167-171 | only points younger than 300 ms are kept, and the very same trail is returned when none expired |
| CanvasComponent.HandleCanvasWheel | frontend/src/components/Canvas.jsx:188-192 | the scale becomes the clamped wheel step, so it stays in range |
| CanvasComponent.HandleCanvasMouseMove | frontend/src/components/Canvas.jsx:194-200 | while panning, only the pan changes, to pointer minus pan start; otherwise the pan is kept and the hook's `PointerMoved` effect holds (pointer recorded, drag threshold crossing, note following the pointer) |
| CanvasComponent.HandleCanvasMouseUp | frontend/src/components/Canvas.jsx:202-205 | panning is off and the timer cancelled; a held note is released as `NoteReleased` states; on the pan and no-note paths every drag cell is kept and nothing is sent |
| CanvasComponent.TrailCleanupTick | frontend/src/components/Canvas.jsx:163-175 | the trail becomes `CleanupTrail` of the old trail |
| CanvasComponent.ScaleStaysInRange | frontend/src/components/Canvas.jsx:188-192 | from a scale in [0.25, 3], any run of wheel steps and zoom-button clicks stays in [0.25, 3] |
| Replication.ReceiveAgreesWithRelay | frontend/src/hooks/useSocketHandler.js:39-121 | on every event the relay handles, a receiving client computes what the relay stores, given unique note ids |
| Replication.ReceiveDivergesOnRepeatedId | frontend/src/hooks/useSocketHandler.js:64-68 | with a repeated note id, a move leaves client and relay with different notes |
| Replication.ReplicasConverge | frontend/src/hooks/useSocketHandler.js:39-121 | after any run of handled events without moves, a receiving client holds exactly the relay's collections |
| Replication.JoinerReplicatesRelay | frontend/src/hooks/useSocketHandler.js:44-58 | a client that receives the relay's snapshot holds exactly the relay's collections, whatever it held before |
| Replication.LegacyJoinerKeepsStaleShapesAndText | backend/server.js:37-39 | through the legacy relay, a joining client gets the strokes and notes but keeps its own shapes and text |
| Replication.EmissionsApplied | frontend/src/hooks/useCanvasEvents.js:68-131 | the relay and a receiving client, applying the eraser's events, erase strokes, shapes and text and keep the voice notes |
| Replication.LocalEraseReplicates | frontend/src/hooks/useCanvasEvents.js:68-131 | after one eraser step, the relay and every receiving client hold the eraser's strokes, shapes and text, and the voice notes from before the erase |
| Replication.LocalNoteEraseIsNotReplicated | frontend/src/hooks/useCanvasEvents.js:119-131 | the eraser's own voice notes differ from the relay's iff it erased a note |
| Replication.ResyncRestoresErasedNotes | frontend/src/hooks/useSocketHandler.js:17-126 | after an eraser step and a reconnection, the eraser holds exactly the relay's collections, with the voice notes it erased locally back |
| Replication.ClearEchoReconciles | frontend/src/components/Canvas.jsx:177-186 | the local clear keeps voice notes that the relay drops; the echoed `clear-canvas` then empties the sender too |
| Replication.ConcurrentErasesCommute | api/socket.js:97-135 | two erases of any kinds, at any places, leave the relay in the same state in either order |

## Left out

- Transport: Socket.io and HTTP setup, CORS, ports, `res.end()`, socket.io's own automatic reconnection after a dropped link, and the `socket.disconnect()` of a refused connection. The reconnection that the hook's effect performs on every view or style change is modelled (`Relay.Room.Reconnect`, `Replication.ResyncRestoresErasedNotes`); what the model does not capture is when it happens relative to other events, since React schedules it. Emissions are messages appended to an outbox or a `sent` list.
- The `test` event. It only logs, so the relay's `Apply` and `Relayed` do nothing with it.
- Logging (`console.log`) in every handler.
- Rendering: canvas painting, the in-progress shape preview, `drawLine` and `redrawCanvas` calls, the eraser cursor, and all styling.
- Voice recording and playback (MediaRecorder, Audio, base64): `useVoiceRecording.js` is not part of this model. A voice note is a record that can be added, moved, erased and cleared.
- Floating point: coordinates are reals, and `Math.sqrt`/`Math.pow` comparisons are made on squares. IEEE-754 rounding is not modelled.
- Time and randomness. `Date.now()` is a `now` parameter; the two reads in `eraseAtPosition` are taken as one instant. `generateUserId` is not modelled; the id is a constructor parameter.
- CanvasEvents.TrailPoint: drops the `Math.random()` trail-point id, which only serves as a rendering key.
- CanvasEvents.Gestures.DragTimeout: the 150 ms timer is a method that the environment may call at any time. Its delay is not modelled.
- React scheduling: each handler runs to completion and reads the state as it was when the handler started. Two clients' events are never interleaved inside a handler.
- Events with an unknown name, and payloads of the wrong shape. The event vocabulary is a closed datatype.
- CanvasEvents.Gestures.HandleMouseMove: assumes the canvas is mounted. The early return when `canvasRef.current` is null is not modelled.
- CanvasUtils.GetUserInitials: upper-cases ASCII letters only, since user ids are base-36 strings. Other scripts' case mappings are not modelled.
- Relay.Room.Disconnect: requires the id to be a member. The disconnect handler is registered only after the connection was admitted, and socket ids are unique.
- Relay.Room.Reconnect: requires the new id not to be a member, because socket.io gives every connection a fresh id.
- Replication.ReplicasConverge: excludes `voice-note-moved`. With a repeated note id the two sides differ (`Replication.ReceiveDivergesOnRepeatedId`); with unique ids they agree (`Replication.ReceiveAgreesWithRelay`).
- The membership display and the voice-note view. `setUserCount` is never passed to the socket hook, so the model's `user-count` listener changes no state. `hasMoved` is not passed to the voice-note view, so its click-to-play decision is outside this model.
- The first render before `userId` is set, and the text editor's `text` and `id`, which exist only once it is committed. The open editor is a text element with empty text and id 0.
