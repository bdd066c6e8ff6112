# Collaborative drawing canvas — client session model

This project models the client side of a real-time collaborative drawing
canvas in Dafny, and proves properties of that model. Several people draw on
one shared surface. Each browser keeps two raster surfaces: the local drawing
and an overlay of other people's strokes. It also keeps a bounded history of
local snapshots. The server holds the authoritative stroke log and answers
undo and redo by re-sending the whole log. The client clears both surfaces
and replays that log.

The model covers:

- the drawing session of the canvas page (`client/canvas.js`): tool state;
  the mouse/touch stroke-capture state machine; the 50-entry history and the
  redo stack; the per-tool stroke dispatch; the reconciliation handlers; the
  presence roster; and the undo/redo debounce;
- the room-entry page (`client/main.js`): room-id generation, the checks of
  the create and join forms, and the local-storage writes that follow them.

Modules:

- `Wrappers` (`wrappers.dfy`): the `Option` type.
- `Strokes` (`strokes.dfy`): tools, strokes and the abstract surface
  operations (`ClearAll`, `ClearRect`, `StrokeLine`, `StrokeRect`,
  `StrokeArc`). It also holds the local drawing helpers, the one dispatch
  `RenderStroke`, log replay, and `Visible`, which is what a surface shows:
  the operations applied since its last full clear.
- `Presence` (`presence.dfy`): the roster map and its updates.
- `Canvas` (`canvas.dfy`): the class `Session`. Its fields are the page's
  module-level variables. Its methods are the page's event handlers. Every
  message sent to the server is appended to the `outbox` field.
- `RoomEntry` (`room_entry.dfy`): JavaScript `trim` and UTF-16 `length`;
  `GenerateRoomId`; the form checks; and the class `EntryPage`, whose
  `storage` map stands for local storage.
- `Scenarios` (`scenarios.dfy`): whole sessions driven through a fresh `Session`:
  a freehand stroke, a rectangle drag, a full-history replace, and rapid
  undo clicks.

Modelling choices:

- A surface is the sequence of operations applied to it. Clearing appends
  `ClearAll`.
- A history snapshot is a copy of the local surface's sequence.
  Restoring a snapshot (`putImageData`) makes the local surface equal that
  copy.
- Coordinates and widths are `real`, so `width / 2` is exact.
- A circle keeps its centre and one point on its edge. The radius
  (`Math.sqrt`) is not computed.
- These are method parameters:
  - canvas-relative pointer coordinates (`clientX - rect.left`);
  - the socket's "connected" flag (a missing socket manager counts as not
    connected);
  - the clock (`Date.now()`, read once per click);
  - our own socket id;
  - fresh stroke ids;
  - the `confirm` answer of `clearCanvas`;
  - the twelve `Math.random()` draws of `generateRoomId`, each a real in
    [0, 1).
- Stroke tools from the server are a datatype. `ToolNamed` reads the wire
  string: each of the five names the client compares against gives its
  tool, and any other name becomes `Other(name)`. The dispatch draws
  `Other` as a line, just as the source's final `else` branch does.
  `WellFormedTool` rules out `Other` carrying a known name, such as
  `Other("eraser")`, and every result of `ToolNamed` satisfies it.
- The debounce timestamps are `Option<int>`. The source tests them for
  truthiness, so a timestamp of 0 counts as "no earlier request".
  `Debounced` includes that test.
- `HandleTouchStart` delegates to `StartDrawing`: the two handlers make the
  same assignments in a different order. The brush/eraser branch, which
  appears in both move handlers, is factored into `DrawSegment`.

Further points about the code that the model follows:

- The code does not check log entries before replaying them
  (canvas.js:169-221), and neither does the model. A well-formed entry is
  drawn whatever its fields hold. A tool name the client does not know
  is drawn as a line. `null` entries are covered under "## Left out".
- Nothing ever pushes onto `redoStack`; it is only emptied
  (canvas.js:152, 165, 545). The model keeps the field and empties it at
  the same points.
- The line tool snapshots on press (canvas.js:260-262, 344-346) as well as
  on release (canvas.js:428). `StartDrawing` does the same. Brush, eraser,
  rectangle and circle gestures snapshot only on release.

## Model

| member | source | states |
|---|---|---|
| `Strokes.Erase` | client/canvas.js:480-482 | the local eraser clears one size×size box centred on the given point |
| `Strokes.DrawRectangle` | client/canvas.js:485-489 | the local rectangle helper outlines the rectangle whose opposite corners are the two given points |
| `Strokes.ToolNamed` | client/canvas.js:448-466 | a stroke's tool string maps to the tool it is compared against; `Other` exactly for a name that is none of the five, keeping that name; the result is always well-formed |
| `Strokes.ToolNameRoundTrip` | client/canvas.js:416-425 | a tool name read and written back is the string sent, and a well-formed tool written and read back is the same tool |
| `Strokes.RenderStroke` | client/canvas.js:448-477 | the shared dispatch never clears the whole surface; eraser: two boxes of side `width`, centred on the two endpoints; rectangle: an outline spanning the endpoints; circle: centred at (fromX,fromY), through (toX,toY); any other tool: one round-capped segment between the endpoints |
| `Strokes.ShapeRendersAsLocalHelper` | client/canvas.js:435-499 | a committed line, rectangle or circle is drawn by the dispatch exactly as the local helper drew its preview |
| `Strokes.FreehandRendersAsLocalHelper` | client/canvas.js:435-482 | the dispatch draws a brush stroke as the local line helper does, and an eraser stroke as two local eraser boxes, one at each endpoint |
| `Strokes.Replay` | client/canvas.js:169-221 | replaying a log renders every stroke in order through the one dispatch, and never produces a full clear |
| `Strokes.ReplayConcat` | client/canvas.js:227-232 | replaying a log in two pieces (the join backlog, then strokes that arrive one at a time) gives the same operations as replaying it whole |
| `Strokes.Visible` | client/canvas.js:148-150 | what a surface shows is a suffix of its operations that contains no full clear |
| `Strokes.VisibleAfterClear` | client/canvas.js:161-162 | a surface that was fully cleared and then drawn on shows exactly what was drawn after the clear, whatever it showed before |
| `Strokes.VisibleExtends` | client/canvas.js:435-499 | drawing operations other than a full clear add to what a surface shows and remove nothing |
| `Presence.WithUser` | client/canvas.js:679-682 | adding a user inserts or overwrites its entry with cursor (0,0) and leaves the other entries alone; the roster grows by one only for a new id |
| `Presence.WithoutUser` | client/canvas.js:685-690 | removing a user deletes exactly that id and leaves the other entries alone; the roster shrinks by one only if the id was present |
| `Presence.WithCursor` | client/canvas.js:235-241 | a cursor report moves only the cursor of an id already in the roster; an unknown id changes nothing, and no entry is ever added |
| `Presence.ListedIds` | client/canvas.js:114-118 | the ids a users list adds are exactly the listed ids other than our own |
| `Presence.WithUsers` | client/canvas.js:113-120 | after a users list, the roster holds the old ids plus every listed id except our own |
| `Presence.WithUsersSkipsSelf` | client/canvas.js:115 | a users list never adds our own socket id |
| `Presence.WithUsersLastEntryWins` | client/canvas.js:114-116 | a listed user ends up with the name and colour of the last list entry for its id, and a reset cursor |
| `Presence.WithUsersKeepsUnlisted` | client/canvas.js:114-118 | an existing entry whose id is not listed is unchanged |
| `Canvas.Pushed` | client/canvas.js:536-542 | saving appends the snapshot as the newest entry; the single oldest entry is dropped only when the length would exceed 50; a history of at most 50 stays at most 50 |
| `Canvas.PushedAtCapacity` | client/canvas.js:540-542 | at capacity the length stays at 50 and the former second entry becomes the oldest |
| `Canvas.DebounceSpacing` | client/canvas.js:563-567 | after a request accepted at a non-zero time t, a later click is accepted exactly when at least 500 ms have passed |
| `Canvas.SegmentRendersAsDrawnLocally` | client/canvas.js:281-317 | peers draw a brush segment exactly as it was drawn locally; for an eraser segment they draw the local box at the new point plus a second box at the previous anchor |
| `Canvas.PreviewShowsOneShape` | client/canvas.js:318-332 | after a shape move the local surface shows the last snapshot (or nothing, with no history) plus exactly one preview, so previews do not accumulate |
| `Canvas.TouchShapeCollapsesAsWritten` | client/canvas.js:410-413 | as written, a one-finger touch release commits the shape at the anchor, wherever the finger was lifted |
| `Canvas.ReleasePointCorrection` | client/canvas.js:405-413 | the correction changes nothing for mouse and missing events, and commits a one-finger touch shape where the finger left |
| `Canvas.FullHistoryShowsLog` | client/canvas.js:161-224 | after a full-history update the local surface shows exactly the replayed log, and is blank when the log is empty |
| `Canvas.Session.constructor` | client/canvas.js:20-45 | a new page starts with the brush, colour #000000, width 3, no gesture, empty history, redo stack, surfaces, roster and outbox, and no earlier undo or redo request |
| `Canvas.Session.InitCanvas` | client/canvas.js:67 | page start-up takes the first snapshot and empties the redo stack |
| `Canvas.Session.SelectTool` | client/canvas.js:502-503 | selecting a tool sets the current tool |
| `Canvas.Session.ChangeColor` | client/canvas.js:526-527 | sets the current colour |
| `Canvas.Session.ChangeStrokeWidth` | client/canvas.js:531-532 | sets the current stroke width |
| `Canvas.Session.SaveHistory` | client/canvas.js:536-546 | the history becomes `Pushed(old history, local surface)`, stays within 50 entries, and the redo stack is emptied; nothing else changes |
| `Canvas.Session.StartDrawing` | client/canvas.js:251-263 | starts a gesture at the press point with the fresh id; only the line tool saves history here, and nothing is sent |
| `Canvas.Session.HandleTouchStart` | client/canvas.js:335-347 | the same effect as a mouse press |
| `Canvas.Session.DrawSegment` | client/canvas.js:281-317 | a brush draws a local segment from the anchor, and an eraser clears one local box at the new point; connected, exactly one segment is sent; the anchor moves to the new point |
| `Canvas.Session.HandleMouseMove` | client/canvas.js:265-333 | a cursor report is sent when connected. While drawing, a freehand tool behaves as `DrawSegment`. A shape tool sends nothing, keeps the anchor, and leaves the local surface as the restored snapshot plus one preview. When idle, nothing else happens |
| `Canvas.Session.DrawPreview` | client/canvas.js:319-331 | the local surface becomes the last snapshot (or the surface cleared, with no history) plus the one preview shape from the anchor to the pointer |
| `Canvas.Session.HandleTouchMove` | client/canvas.js:349-394 | while drawing, a freehand tool behaves as `DrawSegment`; a shape tool, and any touch while idle, changes nothing and sends nothing |
| `Canvas.Session.StopDrawing` | client/canvas.js:396-432 | no-op when idle. Otherwise the gesture ends. A shape tool, when connected, sends exactly one shape from the anchor to the release point under the fresh id. The history is saved and the gesture id is cleared |
| `Canvas.Session.DrawLineRemote` | client/canvas.js:137-144 | a remote stroke is rendered through the dispatch on the overlay only |
| `Canvas.Session.OnDrawingHistory` | client/canvas.js:227-232 | the join backlog is replayed in order on the overlay only |
| `Canvas.Session.OnFullHistoryUpdate` | client/canvas.js:157-225 | both surfaces are cleared and then show the replay of the log (an absent log counts as empty); history is exactly one entry equal to the local surface; the redo stack is empty |
| `Canvas.Session.OnRemoteClearCanvas` | client/canvas.js:146-154 | both surfaces are cleared; history is exactly one snapshot of the cleared local surface; the redo stack is empty |
| `Canvas.Session.ClearCanvas` | client/canvas.js:608-620 | unconfirmed: nothing changes. Confirmed: both surfaces are cleared, the history is saved, and a clear request is sent when connected |
| `Canvas.Session.RedrawCanvas` | client/canvas.js:623-627 | restores the last snapshot when there is one; otherwise leaves the surface alone |
| `Canvas.Session.UndoAction` | client/canvas.js:549-576 | one undo request is sent, and its time recorded, exactly when connected and not debounced; otherwise nothing changes; the redo timer is untouched |
| `Canvas.Session.RedoAction` | client/canvas.js:579-606 | the same as undo, on the redo timer alone |
| `Canvas.Session.AddRemoteUser` | client/canvas.js:679-682 | the roster becomes `WithUser(...)`; the user count (remote users + 1) grows by one only for a new id |
| `Canvas.Session.RemoveRemoteUser` | client/canvas.js:685-690 | the roster becomes `WithoutUser(...)`; the user count drops by one only for a known id |
| `Canvas.Session.OnUsersList` | client/canvas.js:113-120 | the roster becomes `WithUsers(old roster, list, own id)` |
| `Canvas.Session.OnRemoteCursorMove` | client/canvas.js:235-241 | the roster becomes `WithCursor(...)` |
| `RoomEntry.TrimStart` | client/main.js:32 | the result is a suffix of the input, only whitespace was dropped, and it does not start with whitespace |
| `RoomEntry.TrimEnd` | client/main.js:32 | the result is a prefix of the input, only whitespace was dropped, and it does not end with whitespace |
| `RoomEntry.TrimEmpty` | client/main.js:37 | a trimmed field is empty exactly when the field is all whitespace |
| `RoomEntry.TrimNoWhitespace` | client/main.js:72 | trimming leaves a string without whitespace unchanged |
| `RoomEntry.Utf16Length` | client/main.js:86 | a string's JavaScript length is between its character count and twice that |
| `RoomEntry.Utf16LengthBmp` | client/main.js:86 | for characters of the Basic Multilingual Plane, the JavaScript length is the character count |
| `RoomEntry.AlphabetChars` | client/main.js:3 | every character a room id is drawn from is an upper-case letter or a digit |
| `RoomEntry.AlphabetIsPlain` | client/main.js:3 | no character of the alphabet is whitespace, and each is one UTF-16 code unit, so a generated id survives trimming and has length 12 |
| `RoomEntry.PickIndexInRange` | client/main.js:6 | each `Math.random()` draw in [0,1) picks an index inside the 36-character alphabet |
| `RoomEntry.GenerateRoomId` | client/main.js:2-9 | the id has exactly 12 characters, all in A-Z0-9, and the i-th character is the one picked by the i-th draw (`PickedBy`) |
| `RoomEntry.CreateError` | client/main.js:37-45 | create is refused for a blank name, then for a blank room name, and accepted exactly when both are non-blank |
| `RoomEntry.JoinError` | client/main.js:75-89 | join is refused for a blank name, then for a blank id, then for an id whose JavaScript length is not 12; it is accepted exactly when the name is non-blank and the length is 12, whatever the characters |
| `RoomEntry.TrimStartPadded` | client/main.js:72 | leading whitespace of any length is removed, up to the first other character |
| `RoomEntry.TrimEndPadded` | client/main.js:72 | trailing whitespace of any length is removed, back to the last other character |
| `RoomEntry.TrimPadded` | client/main.js:72 | trimming removes independent whitespace runs before and after a string that has no whitespace at its ends; either run may be empty, e.g. a pasted id followed only by a newline |
| `RoomEntry.GeneratedIdJoins` | client/main.js:2-9 | round trip: a generated id, as shown or with any whitespace before and any whitespace after it, passes the join checks for any non-blank name |
| `RoomEntry.EntryPage.CreateRoom` | client/main.js:31-59 | refused: the reason is returned and storage is unchanged. Accepted: the returned id is the one the draws spell (`PickedBy`) and is well-formed, and userName, that roomId, roomName, roomCapacity (stored untrimmed) and isHost="true" are written |
| `RoomEntry.EntryPage.JoinRoom` | client/main.js:70-94 | refused: the reason is returned and storage is unchanged. Accepted: exactly userName, the trimmed roomId and isHost="false" are written, and every other key (roomName, roomCapacity) keeps its value |
| `Scenarios.FreehandStroke` | client/canvas.js:281-298 | a brush stroke from (10,10) to (50,50) in three moves sends three chained segments with one shared id, besides the cursor reports, and nothing on release |
| `Scenarios.RectangleDrag` | client/canvas.js:318-332 | a rectangle dragged from (0,0) to (100,50) sends only cursor reports during the drag, then exactly one rectangle from (0,0) to (100,50) |
| `Scenarios.ReplaceWithTwoStrokes` | client/canvas.js:157-225 | after local and remote drawing, a two-stroke full-history update leaves both surfaces showing exactly those two strokes, and one history entry |
| `Scenarios.RapidUndo` | client/canvas.js:562-567 | two undo clicks less than 500 ms apart send one request; a third click 500 ms after the first sends a second |

## Findings

| source | as written | input that shows it | evidently intended | confidence | as-written member | corrected member |
|---|---|---|---|---|---|---|
| client/canvas.js:410-413 | on a touch release, the shape's end point is read from `e.touches[0]`, and the anchor is used when `touches` is empty | a one-finger rectangle drag on a touch screen: at `touchend`, `touches` is empty and the lifted finger is only in `changedTouches`, so the shape is sent from the anchor to the anchor | commit the shape where the finger was lifted (`changedTouches[0]`) | medium; follows from the DOM TouchEvent definition of `touches`; not executed | `Canvas.TouchShapeCollapsesAsWritten` | `Canvas.ReleasePointCorrection` |

`Canvas.ReleasePointAsWritten` models the code as written, and
`Canvas.ReleasePoint` is the corrected rule. `Canvas.Session.StopDrawing` uses
the corrected rule. It therefore differs from the source only for touch
releases.

## Left out

- Pixel rendering: the 2D-context calls are abstract operations, and
  `getImageData`/`putImageData` snapshots are copies of the operation
  sequence. Line caps, joins, anti-aliasing and floating-point coordinates
  are not modelled.
- The socket manager (`connectWebSocket`, `wsManager`, the join-room
  message): its code is not part of this model. Sends are appends to
  `outbox`. The connected flag is a parameter. Send errors caught by
  `try`/`catch` in undo and redo are not modelled.
- The `room-error` handler (alert and redirect), fullscreen, download,
  `leaveRoom`, `switchMode`, and the key-press wiring: DOM and navigation
  only.
- Resizing the window: the model has no resize event. `resizeCanvas`
  (canvas.js:8-14) runs on load and on every window resize
  (canvas.js:17-18). It sets the width and height of both canvases, which
  blanks both bitmaps. It then calls `redrawCanvas`, which restores only
  the local surface from the last snapshot. So every resize wipes all
  remote strokes from the overlay until the next full-history replay.
  The model has no canvas size, so it cannot express what comes after.
  After a resize, the last snapshot can be smaller than the canvas:
  - on every page load, `initCanvas` runs on `DOMContentLoaded`
    (canvas.js:736-738) and takes its snapshot (canvas.js:67) before the
    load-time resize;
  - after any window growth, the last snapshot has the old size.

  `putImageData` then restores only the snapshot's own area
  (canvas.js:320, 625).
- `Canvas.Session.DrawPreview` and `Canvas.PreviewShowsOneShape`: restoring
  the last snapshot is modelled as covering the whole surface, which holds
  only while that snapshot has the canvas's current size. When the snapshot
  is smaller (see the resize line above), each shape preview drawn outside
  the snapshot's area is never erased. Previews then pile up as trails
  there until the next `saveHistory`, and "previews never accumulate" does
  not hold in that area.
- The badge rendering of `updateUsersCount` and `updateRemoteCursor`'s cursor
  elements. Only the count (`UsersCount`) and the roster map are modelled.
- `generateUserColor` and the stroke-id string format: the colour and fresh
  ids are parameters.
- Start-up reads of local storage (`currentUser`), the storage removals in
  `leaveRoom`, and the room-created banner and redirect of `createRoom` and
  `joinRoom`.
- The cursor-position readout of `handleMouseMove`, and the
  `preventDefault` call of `handleTouchMove` (canvas.js:393), the one touch
  handler that makes it.
- `Canvas.Session.OnFullHistoryUpdate`: the server's message is assumed
  well-formed, since every log entry is typed as a `Stroke`. A `null` entry
  makes `stroke.tool` (canvas.js:170) throw, which aborts the `forEach`.
  Both surfaces then stay partly redrawn and the history stays empty: it
  was cleared at canvas.js:164, and the push at canvas.js:224 never runs.
  So the promise of exactly one history entry does not hold in that case.
- `Canvas.Session.OnDrawingHistory`: the backlog is assumed present and
  well-formed. A drawing-history message without a `history` array makes
  `data.history.forEach` (canvas.js:229) throw before anything is drawn.
- `Canvas.Session.StopDrawing`: for touch releases it follows the corrected
  release point (see Findings), not the code as written.
- `Canvas.Session.UndoAction` and `Canvas.Session.RedoAction`: the clock is
  read once per click, while the source calls `Date.now()` twice. They can
  only differ by the time between two adjacent statements.
