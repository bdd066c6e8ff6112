/**
 * The drawing session of the canvas page: tool state, the pointer/touch
 * stroke-capture state machine, the bounded local history and redo stack,
 * the two surfaces (local drawing and remote overlay), the roster of remote
 * participants, the undo/redo debounce, and the handlers for the server's
 * reconciliation messages.
 *
 * Every message the page sends over the socket is appended to `outbox`.
 * Whether the socket is connected, the clock, socket ids and fresh stroke
 * ids are parameters of the methods that consult them.
 */
module Canvas {
  import opened Wrappers
  import opened Strokes
  import opened Presence

  /** Most snapshots the local history keeps. */
  const MaxHistory: nat := 50

  /** Least time, in milliseconds, between two accepted undo (or redo) requests. */
  const DebounceMs: int := 500

  /** A capture of the local surface: the operations that produced it. */
  type Snapshot = seq<Op>

  /** The messages the page sends to the server. */
  datatype Intent =
    | DrawIntent(stroke: Stroke)      // sendDraw: one freehand segment
    | DrawLineIntent(stroke: Stroke)  // sendDrawLine: one committed shape
    | CursorIntent(x: real, y: real)  // sendCursorMove
    | ClearIntent                     // clearCanvas
    | UndoIntent                      // sendUndo
    | RedoIntent                      // sendRedo

  /** saveHistory on the histories: append the snapshot as the newest entry
      and, only when that makes one too many, drop the single oldest. */
  function Pushed(h: seq<Snapshot>, s: Snapshot): (r: seq<Snapshot>)
    ensures |r| > 0 && r[|r| - 1] == s
    ensures r[..|r| - 1] == if |h| + 1 > MaxHistory then h[1..] else h
    ensures |h| <= MaxHistory ==> |r| <= MaxHistory
  {
    var appended := h + [s];
    if |appended| > MaxHistory then appended[1..] else appended
  }

  /** A request is ignored when one was accepted before, at a truthy time
      (the source tests the timestamp for truthiness, so 0 reads as none),
      less than DebounceMs ago. */
  predicate Debounced(last: Option<int>, now: int) {
    last.Some? && last.value != 0 && now - last.value < DebounceMs
  }

  /** The intent a freehand move emits: from the anchor to the new point,
      tagged with the gesture's id, colourless for the eraser. */
  function Segment(fromX: real, fromY: real, x: real, y: real, color: string, width: real, tool: Tool, id: string): Stroke
    requires IsFreehand(tool)
  {
    Stroke(fromX, fromY, x, y, if tool == Eraser then "transparent" else color, width, tool, id)
  }

  /** What a freehand move draws locally: a segment for the brush, one box
      at the new point for the eraser. */
  function SegmentOp(tool: Tool, fromX: real, fromY: real, x: real, y: real, color: string, width: real): Op
    requires IsFreehand(tool)
  {
    if tool == Brush then DrawLine(fromX, fromY, x, y, color, width) else Erase(x, y, width)
  }

  /** Peers draw a freehand segment ending in exactly what was drawn
      locally: the same segment for the brush; for the eraser, the local box
      at the new point after a second box at the previous one. */
  lemma SegmentRendersAsDrawnLocally(tool: Tool, fromX: real, fromY: real, x: real, y: real, color: string, width: real, id: string)
    requires IsFreehand(tool)
    ensures var ops := RenderStroke(Segment(fromX, fromY, x, y, color, width, tool, id));
      && ops[|ops| - 1] == SegmentOp(tool, fromX, fromY, x, y, color, width)
      && (tool == Brush ==> ops == [SegmentOp(tool, fromX, fromY, x, y, color, width)])
      && (tool == Eraser ==> ops == [Erase(fromX, fromY, width), SegmentOp(tool, fromX, fromY, x, y, color, width)])
  {
  }

  /** What a shape move previews locally, from the anchor to the pointer. */
  function PreviewOp(tool: Tool, fromX: real, fromY: real, x: real, y: real, color: string, width: real): Op
    requires IsShape(tool)
  {
    if tool == Line then DrawLine(fromX, fromY, x, y, color, width)
    else if tool == Rectangle then DrawRectangle(fromX, fromY, x, y, color, width)
    else DrawCircle(fromX, fromY, x, y, color, width)
  }

  /** The surface a preview is drawn on: the last snapshot, or the current
      surface cleared when there is none. */
  function PreviewBase(history: seq<Snapshot>, local: seq<Op>): seq<Op> {
    if |history| > 0 then history[|history| - 1] else local + [ClearAll]
  }

  /** Previews never accumulate: a shape move shows the restored surface
      plus exactly the one preview, whatever earlier previews had drawn. */
  lemma PreviewShowsOneShape(history: seq<Snapshot>, local: seq<Op>, preview: Op)
    requires preview != ClearAll
    ensures Visible(PreviewBase(history, local) + [preview])
         == (if |history| > 0 then Visible(history[|history| - 1]) else []) + [preview]
  {
    var base := PreviewBase(history, local);
    VisibleExtends(base, [preview]);
    if |history| == 0 {
      VisibleAfterClear(local, []);
      assert local + [ClearAll] + [] == base;
    }
  }

  /** The event that ends a gesture, in canvas coordinates: none at all, a
      mouse event (mouseup, mouseout), or a touch event with its `touches`
      (fingers still down) and `changedTouches` (fingers just lifted). */
  datatype ReleaseEvent =
    | NoEvent
    | PointerRelease(x: real, y: real)
    | TouchRelease(touches: seq<(real, real)>, changedTouches: seq<(real, real)>)

  /** Where stopDrawing commits a shape, as written: the pointer position,
      or the first finger still down, falling back to the anchor. */
  function ReleasePointAsWritten(e: ReleaseEvent, anchorX: real, anchorY: real): (real, real)
  {
    match e
    case NoEvent => (anchorX, anchorY)
    case PointerRelease(x, y) => (x, y)
    case TouchRelease(touches, _) => if |touches| > 0 then touches[0] else (anchorX, anchorY)
  }

  /** On touchend the lifted finger is no longer in `touches`, so a
      one-finger shape is committed from the anchor to the anchor, whatever
      was dragged. */
  lemma TouchShapeCollapsesAsWritten(anchorX: real, anchorY: real, liftedX: real, liftedY: real)
    ensures ReleasePointAsWritten(TouchRelease([], [(liftedX, liftedY)]), anchorX, anchorY) == (anchorX, anchorY)
  {
  }

  /** Where a shape is committed to: the pointer position, or the finger
      just lifted, falling back to the anchor when the event gives neither. */
  function ReleasePoint(e: ReleaseEvent, anchorX: real, anchorY: real): (real, real)
  {
    match e
    case NoEvent => (anchorX, anchorY)
    case PointerRelease(x, y) => (x, y)
    case TouchRelease(_, changed) => if |changed| > 0 then changed[0] else (anchorX, anchorY)
  }

  /** The corrected release point differs from the written one only for
      touch events, and commits a one-finger shape where the finger left. */
  lemma ReleasePointCorrection(e: ReleaseEvent, anchorX: real, anchorY: real, liftedX: real, liftedY: real)
    ensures !e.TouchRelease? ==> ReleasePoint(e, anchorX, anchorY) == ReleasePointAsWritten(e, anchorX, anchorY)
    ensures ReleasePoint(TouchRelease([], [(liftedX, liftedY)]), anchorX, anchorY) == (liftedX, liftedY)
  {
  }

  class Session {
    // Tool state
    var currentTool: Tool
    var currentColor: string
    var currentStrokeWidth: real

    // Stroke capture
    var isDrawing: bool
    var startX: real
    var startY: real
    var currentStrokeId: Option<string>

    // Local history and redo stack
    var history: seq<Snapshot>
    var redoStack: seq<Snapshot>

    // The two surfaces, the roster, sent messages
    var local: seq<Op>
    var remote: seq<Op>
    var remoteUsers: Roster
    var outbox: seq<Intent>

    // Time of the last accepted undo and redo request
    var lastUndo: Option<int>
    var lastRedo: Option<int>

    /** The history never exceeds its capacity, and a gesture in progress
        always has an id. */
    ghost predicate Valid()
      reads this
    {
      |history| <= MaxHistory && (isDrawing ==> currentStrokeId.Some?)
    }

    /** The page's initial state: brush, black, width 3, idle, empty
        history, nobody else in the room, nothing sent. */
    constructor ()
      ensures Valid()
      ensures currentTool == Brush && currentColor == "#000000" && currentStrokeWidth == 3.0
      ensures !isDrawing && startX == 0.0 && startY == 0.0 && currentStrokeId == None
      ensures history == [] && redoStack == [] && local == [] && remote == []
      ensures remoteUsers == map[] && outbox == [] && lastUndo == None && lastRedo == None
    {
      currentTool, currentColor, currentStrokeWidth := Brush, "#000000", 3.0;
      isDrawing, startX, startY, currentStrokeId := false, 0.0, 0.0, None;
      history, redoStack := [], [];
      local, remote := [], [];
      remoteUsers, outbox := map[], [];
      lastUndo, lastRedo := None, None;
    }

    /** The number of people in the room: the remote participants and us. */
    function UsersCount(): nat
      reads this
    {
      |remoteUsers| + 1
    }

    /** initCanvas: the first snapshot of the blank surface. */
    method InitCanvas()
      requires Valid()
      modifies this`history, this`redoStack
      ensures Valid()
      ensures history == Pushed(old(history), local) && redoStack == []
    {
      SaveHistory();
    }

    method SelectTool(tool: Tool)
      modifies this`currentTool
      ensures currentTool == tool
    {
      currentTool := tool;
    }

    method ChangeColor(color: string)
      modifies this`currentColor
      ensures currentColor == color
    {
      currentColor := color;
    }

    method ChangeStrokeWidth(width: real)
      modifies this`currentStrokeWidth
      ensures currentStrokeWidth == width
    {
      currentStrokeWidth := width;
    }

    /** saveHistory: capture the local surface as the newest snapshot,
        keep at most MaxHistory, and empty the redo stack. */
    method SaveHistory()
      requires Valid()
      modifies this`history, this`redoStack
      ensures Valid()
      ensures history == Pushed(old(history), local)
      ensures redoStack == []
    {
      history := history + [local];
      if |history| > MaxHistory {
        history := history[1..];
      }
      redoStack := [];
    }

    /** startDrawing (mousedown at canvas point (x, y)): start a gesture
        with the fresh id; only the line tool snapshots here. */
    method StartDrawing(x: real, y: real, freshId: string)
      requires Valid()
      modifies this`isDrawing, this`startX, this`startY, this`currentStrokeId, this`history, this`redoStack
      ensures Valid()
      ensures isDrawing && startX == x && startY == y && currentStrokeId == Some(freshId)
      ensures currentTool == Line ==> history == Pushed(old(history), local) && redoStack == []
      ensures currentTool != Line ==> history == old(history) && redoStack == old(redoStack)
    {
      isDrawing := true;
      startX, startY := x, y;
      currentStrokeId := Some(freshId);
      if currentTool == Line {
        SaveHistory();
      }
    }

    /** handleTouchStart: the same assignments as startDrawing, in another order. */
    method HandleTouchStart(x: real, y: real, freshId: string)
      requires Valid()
      modifies this`isDrawing, this`startX, this`startY, this`currentStrokeId, this`history, this`redoStack
      ensures Valid()
      ensures isDrawing && startX == x && startY == y && currentStrokeId == Some(freshId)
      ensures currentTool == Line ==> history == Pushed(old(history), local) && redoStack == []
      ensures currentTool != Line ==> history == old(history) && redoStack == old(redoStack)
    {
      StartDrawing(x, y, freshId);
    }

    /** A brush or eraser move during a gesture: draw locally, send one
        segment from the anchor to the new point, advance the anchor. */
    method DrawSegment(x: real, y: real, connected: bool)
      requires Valid() && isDrawing && IsFreehand(currentTool)
      modifies this`local, this`outbox, this`startX, this`startY
      ensures Valid()
      ensures local == old(local) + [SegmentOp(currentTool, old(startX), old(startY), x, y, currentColor, currentStrokeWidth)]
      ensures outbox == old(outbox) + if connected then
        [DrawIntent(Segment(old(startX), old(startY), x, y, currentColor, currentStrokeWidth, currentTool, currentStrokeId.value))]
        else []
      ensures startX == x && startY == y
    {
      if currentTool == Brush {
        local := local + [DrawLine(startX, startY, x, y, currentColor, currentStrokeWidth)];
        if connected {
          outbox := outbox + [DrawIntent(Stroke(startX, startY, x, y, currentColor, currentStrokeWidth, Brush, currentStrokeId.value))];
        }
      } else {
        local := local + [Erase(x, y, currentStrokeWidth)];
        if connected {
          outbox := outbox + [DrawIntent(Stroke(startX, startY, x, y, "transparent", currentStrokeWidth, Eraser, currentStrokeId.value))];
        }
      }
      startX, startY := x, y;
    }

    /** handleMouseMove at canvas point (x, y): report the cursor; during a
        gesture, a freehand tool draws a segment and a shape tool restores
        the last snapshot and previews the shape, sending nothing. */
    method HandleMouseMove(x: real, y: real, connected: bool)
      requires Valid()
      modifies this`local, this`outbox, this`startX, this`startY
      ensures Valid()
      ensures var cursor := if connected then [CursorIntent(x, y)] else [];
        if isDrawing && IsFreehand(currentTool) then
          && local == old(local) + [SegmentOp(currentTool, old(startX), old(startY), x, y, currentColor, currentStrokeWidth)]
          && outbox == old(outbox) + cursor + (if connected then
               [DrawIntent(Segment(old(startX), old(startY), x, y, currentColor, currentStrokeWidth, currentTool, currentStrokeId.value))]
               else [])
          && startX == x && startY == y
        else if isDrawing && IsShape(currentTool) then
          && local == PreviewBase(history, old(local)) + [PreviewOp(currentTool, startX, startY, x, y, currentColor, currentStrokeWidth)]
          && outbox == old(outbox) + cursor
          && startX == old(startX) && startY == old(startY)
        else
          && local == old(local)
          && outbox == old(outbox) + cursor
          && startX == old(startX) && startY == old(startY)
    {
      if connected {
        outbox := outbox + [CursorIntent(x, y)];
      }
      if !isDrawing {
        return;
      }
      if IsFreehand(currentTool) {
        DrawSegment(x, y, connected);
      } else if IsShape(currentTool) {
        DrawPreview(x, y);
      }
    }

    /** A shape move during a gesture: restore the last snapshot (or clear
        when there is none) and preview the shape from the anchor. */
    method DrawPreview(x: real, y: real)
      requires IsShape(currentTool)
      modifies this`local
      ensures local == PreviewBase(history, old(local)) + [PreviewOp(currentTool, startX, startY, x, y, currentColor, currentStrokeWidth)]
    {
      if |history| > 0 {
        local := history[|history| - 1];
      } else {
        local := local + [ClearAll];
      }
      if currentTool == Line {
        local := local + [DrawLine(startX, startY, x, y, currentColor, currentStrokeWidth)];
      } else if currentTool == Rectangle {
        local := local + [DrawRectangle(startX, startY, x, y, currentColor, currentStrokeWidth)];
      } else {
        local := local + [DrawCircle(startX, startY, x, y, currentColor, currentStrokeWidth)];
      }
    }

    /** handleTouchMove at canvas point (x, y): during a gesture, a freehand
        tool draws a segment; shape tools and idle touches do nothing. */
    method HandleTouchMove(x: real, y: real, connected: bool)
      requires Valid()
      modifies this`local, this`outbox, this`startX, this`startY
      ensures Valid()
      ensures if isDrawing && IsFreehand(currentTool) then
          && local == old(local) + [SegmentOp(currentTool, old(startX), old(startY), x, y, currentColor, currentStrokeWidth)]
          && outbox == old(outbox) + (if connected then
               [DrawIntent(Segment(old(startX), old(startY), x, y, currentColor, currentStrokeWidth, currentTool, currentStrokeId.value))]
               else [])
          && startX == x && startY == y
        else
          local == old(local) && outbox == old(outbox) && startX == old(startX) && startY == old(startY)
    {
      if !isDrawing {
        return;
      }
      if IsFreehand(currentTool) {
        DrawSegment(x, y, connected);
      }
    }

    /** stopDrawing (mouseup, mouseout, touchend): end the gesture; a shape
        is committed once, with a fresh id, from the anchor to the release
        point; the surface is snapshotted and the gesture id dropped. */
    method StopDrawing(release: ReleaseEvent, connected: bool, freshId: string)
      requires Valid()
      modifies this`isDrawing, this`outbox, this`history, this`redoStack, this`currentStrokeId
      ensures Valid()
      ensures !old(isDrawing) ==>
        && !isDrawing && outbox == old(outbox) && history == old(history)
        && redoStack == old(redoStack) && currentStrokeId == old(currentStrokeId)
      ensures old(isDrawing) ==>
        && !isDrawing && currentStrokeId == None
        && history == Pushed(old(history), local) && redoStack == []
        && outbox == old(outbox) + if IsShape(currentTool) && connected then
             var end := ReleasePoint(release, startX, startY);
             [DrawLineIntent(Stroke(startX, startY, end.0, end.1, currentColor, currentStrokeWidth, currentTool, freshId))]
           else []
    {
      if !isDrawing {
        return;
      }
      isDrawing := false;
      if IsShape(currentTool) && connected {
        var endX, endY := startX, startY;
        match release {
          case NoEvent =>
          case PointerRelease(x, y) =>
            endX, endY := x, y;
          case TouchRelease(_, changed) =>
            if |changed| > 0 {
              endX, endY := changed[0].0, changed[0].1;
            }
        }
        outbox := outbox + [DrawLineIntent(Stroke(startX, startY, endX, endY, currentColor, currentStrokeWidth, currentTool, freshId))];
      }
      SaveHistory();
      currentStrokeId := None;
    }

    /** drawLineRemote (remote-draw, remote-draw-line): render one stroke
        on the remote overlay only. */
    method DrawLineRemote(s: Stroke)
      modifies this`remote
      ensures remote == old(remote) + RenderStroke(s)
    {
      remote := remote + RenderStroke(s);
    }

    /** drawing-history: replay the join-time backlog on the remote overlay only. */
    method OnDrawingHistory(log: seq<Stroke>)
      modifies this`remote
      ensures remote == old(remote) + Replay(log)
    {
      var i := 0;
      while i < |log|
        invariant 0 <= i <= |log|
        invariant remote == old(remote) + Replay(log[..i])
      {
        assert log[..i + 1][..i] == log[..i];
        DrawLineRemote(log[i]);
        i := i + 1;
      }
      assert log[..|log|] == log;
    }

    /** full-history-update: clear both surfaces and both histories, replay
        the server's log (absent counts as empty) onto both surfaces, and
        snapshot the result as the only history entry. */
    method OnFullHistoryUpdate(log: Option<seq<Stroke>>)
      requires Valid()
      modifies this`local, this`remote, this`history, this`redoStack
      ensures Valid()
      ensures var strokes := log.GetOr([]);
        && local == old(local) + [ClearAll] + Replay(strokes)
        && remote == old(remote) + [ClearAll] + Replay(strokes)
      ensures history == [local] && redoStack == []
    {
      local := local + [ClearAll];
      remote := remote + [ClearAll];
      history := [];
      redoStack := [];
      if log.Some? && |log.value| > 0 {
        var strokes := log.value;
        var i := 0;
        while i < |strokes|
          invariant 0 <= i <= |strokes|
          invariant local == old(local) + [ClearAll] + Replay(strokes[..i])
          invariant remote == old(remote) + [ClearAll] + Replay(strokes[..i])
          invariant history == [] && redoStack == []
        {
          assert strokes[..i + 1][..i] == strokes[..i];
          remote := remote + RenderStroke(strokes[i]);
          local := local + RenderStroke(strokes[i]);
          i := i + 1;
        }
        assert strokes[..|strokes|] == strokes;
      }
      history := history + [local];
    }

    /** remote-clear-canvas: blank both surfaces, and reset the history to
        one snapshot of the blank surface with an empty redo stack. */
    method OnRemoteClearCanvas()
      requires Valid()
      modifies this`local, this`remote, this`history, this`redoStack
      ensures Valid()
      ensures local == old(local) + [ClearAll] && remote == old(remote) + [ClearAll]
      ensures history == [local] && redoStack == []
    {
      local := local + [ClearAll];
      remote := remote + [ClearAll];
      history := [];
      redoStack := [];
      history := history + [local];
    }

    /** clearCanvas: when the user confirms, blank both surfaces, snapshot,
        and ask the server to clear when connected. */
    method ClearCanvas(confirmed: bool, connected: bool)
      requires Valid()
      modifies this`local, this`remote, this`history, this`redoStack, this`outbox
      ensures Valid()
      ensures !confirmed ==>
        local == old(local) && remote == old(remote) && history == old(history)
        && redoStack == old(redoStack) && outbox == old(outbox)
      ensures confirmed ==>
        && local == old(local) + [ClearAll] && remote == old(remote) + [ClearAll]
        && history == Pushed(old(history), local) && redoStack == []
        && outbox == old(outbox) + (if connected then [ClearIntent] else [])
    {
      if confirmed {
        local := local + [ClearAll];
        remote := remote + [ClearAll];
        SaveHistory();
        if connected {
          outbox := outbox + [ClearIntent];
        }
      }
    }

    /** redrawCanvas: restore the last snapshot, if there is one. */
    method RedrawCanvas()
      modifies this`local
      ensures local == if |history| > 0 then history[|history| - 1] else old(local)
    {
      if |history| > 0 {
        local := history[|history| - 1];
      }
    }

    /** undoAction at time `now`: send an undo request when connected and
        not debounced, and record the time; otherwise change nothing. */
    method UndoAction(connected: bool, now: int)
      modifies this`outbox, this`lastUndo
      ensures connected && !Debounced(old(lastUndo), now) ==>
        outbox == old(outbox) + [UndoIntent] && lastUndo == Some(now)
      ensures !(connected && !Debounced(old(lastUndo), now)) ==>
        outbox == old(outbox) && lastUndo == old(lastUndo)
    {
      if !connected {
        return;
      }
      if Debounced(lastUndo, now) {
        return;
      }
      lastUndo := Some(now);
      outbox := outbox + [UndoIntent];
    }

    /** redoAction at time `now`: as undoAction, on its own timer. */
    method RedoAction(connected: bool, now: int)
      modifies this`outbox, this`lastRedo
      ensures connected && !Debounced(old(lastRedo), now) ==>
        outbox == old(outbox) + [RedoIntent] && lastRedo == Some(now)
      ensures !(connected && !Debounced(old(lastRedo), now)) ==>
        outbox == old(outbox) && lastRedo == old(lastRedo)
    {
      if !connected {
        return;
      }
      if Debounced(lastRedo, now) {
        return;
      }
      lastRedo := Some(now);
      outbox := outbox + [RedoIntent];
    }

    /** addRemoteUser (user-joined): insert or overwrite, cursor at the origin. */
    method AddRemoteUser(id: string, name: string, color: string)
      modifies this`remoteUsers
      ensures remoteUsers == WithUser(old(remoteUsers), id, name, color)
      ensures UsersCount() == old(UsersCount()) + (if id in old(remoteUsers) then 0 else 1)
    {
      remoteUsers := remoteUsers[id := Participant(name, color, 0.0, 0.0)];
    }

    /** removeRemoteUser (user-left): forget the participant. */
    method RemoveRemoteUser(id: string)
      modifies this`remoteUsers
      ensures remoteUsers == WithoutUser(old(remoteUsers), id)
      ensures UsersCount() == old(UsersCount()) - (if id in old(remoteUsers) then 1 else 0)
    {
      remoteUsers := remoteUsers - {id};
    }

    /** users-list: add every listed user except ourselves (`selfId`). */
    method OnUsersList(users: seq<UserInfo>, selfId: string)
      modifies this`remoteUsers
      ensures remoteUsers == WithUsers(old(remoteUsers), users, selfId)
    {
      var i := 0;
      while i < |users|
        invariant 0 <= i <= |users|
        invariant remoteUsers == WithUsers(old(remoteUsers), users[..i], selfId)
      {
        assert users[..i + 1][..i] == users[..i];
        if users[i].id != selfId {
          AddRemoteUser(users[i].id, users[i].name, users[i].color);
        }
        i := i + 1;
      }
      assert users[..|users|] == users;
    }

    /** remote-cursor-move: record the position of a known participant;
        an unknown id leaves the roster as it is. */
    method OnRemoteCursorMove(id: string, x: real, y: real)
      modifies this`remoteUsers
      ensures remoteUsers == WithCursor(old(remoteUsers), id, x, y)
    {
      if id in remoteUsers {
        remoteUsers := remoteUsers[id := remoteUsers[id].(x := x, y := y)];
      }
    }
  }

  /** After a full-history update the local surface shows exactly the
      replayed log (nothing at all for an absent or empty log), and that is
      what the single history entry holds. */
  lemma FullHistoryShowsLog(before: seq<Op>, log: seq<Stroke>)
    ensures Visible(before + [ClearAll] + Replay(log)) == Replay(log)
    ensures log == [] ==> Visible(before + [ClearAll] + Replay(log)) == []
  {
    VisibleAfterClear(before, Replay(log));
  }

  /** saveHistory at capacity keeps the length at MaxHistory. */
  lemma PushedAtCapacity(h: seq<Snapshot>, s: Snapshot)
    requires |h| == MaxHistory
    ensures |Pushed(h, s)| == MaxHistory && Pushed(h, s)[0] == h[1]
  {
  }

  /** Two accepted requests are at least DebounceMs apart: once a request
      is accepted at `t` (t != 0), none is accepted before t + DebounceMs. */
  lemma DebounceSpacing(t: int, now: int)
    requires t != 0
    ensures !Debounced(Some(t), now) <==> now >= t + DebounceMs
  {
  }
}
