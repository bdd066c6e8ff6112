/**
 * Whole sessions driven through the canvas page's handlers, with what the
 * server receives and what the surfaces show at the end.
 */
module Scenarios {
  import opened Wrappers
  import opened Strokes
  import opened Canvas

  /** A brush stroke from (10,10) to (50,50) in three mouse moves sends,
      besides the cursor reports, three chained segments that all carry the
      gesture's id, and nothing on release. */
  method FreehandStroke(gestureId: string, shapeId: string) returns (sent: seq<Intent>)
    ensures sent == [
      CursorIntent(20.0, 20.0), DrawIntent(Stroke(10.0, 10.0, 20.0, 20.0, "#000000", 3.0, Brush, gestureId)),
      CursorIntent(35.0, 35.0), DrawIntent(Stroke(20.0, 20.0, 35.0, 35.0, "#000000", 3.0, Brush, gestureId)),
      CursorIntent(50.0, 50.0), DrawIntent(Stroke(35.0, 35.0, 50.0, 50.0, "#000000", 3.0, Brush, gestureId))]
  {
    var s := new Session();
    s.InitCanvas();
    s.StartDrawing(10.0, 10.0, gestureId);
    s.HandleMouseMove(20.0, 20.0, true);
    s.HandleMouseMove(35.0, 35.0, true);
    s.HandleMouseMove(50.0, 50.0, true);
    s.StopDrawing(PointerRelease(50.0, 50.0), true, shapeId);
    sent := s.outbox;
  }

  /** A rectangle dragged from (0,0) to (100,50) sends only cursor reports
      during the drag, and on release exactly one shape spanning the two
      points, under the fresh id. */
  method RectangleDrag(gestureId: string, shapeId: string) returns (sent: seq<Intent>)
    ensures sent == [
      CursorIntent(40.0, 20.0), CursorIntent(100.0, 50.0),
      DrawLineIntent(Stroke(0.0, 0.0, 100.0, 50.0, "#000000", 3.0, Rectangle, shapeId))]
  {
    var s := new Session();
    s.InitCanvas();
    s.SelectTool(Rectangle);
    s.StartDrawing(0.0, 0.0, gestureId);
    s.HandleMouseMove(40.0, 20.0, true);
    s.HandleMouseMove(100.0, 50.0, true);
    s.StopDrawing(PointerRelease(100.0, 50.0), true, shapeId);
    sent := s.outbox;
  }

  /** After drawing, a full-history update with two strokes leaves both
      surfaces showing exactly those strokes and one history entry. */
  method ReplaceWithTwoStrokes(a: Stroke, b: Stroke) returns (localShown: seq<Op>, remoteShown: seq<Op>, entries: nat)
    ensures localShown == RenderStroke(a) + RenderStroke(b)
    ensures remoteShown == RenderStroke(a) + RenderStroke(b)
    ensures entries == 1
  {
    var s := new Session();
    s.InitCanvas();
    s.StartDrawing(1.0, 1.0, "g");
    s.HandleTouchMove(2.0, 2.0, false);
    s.StopDrawing(TouchRelease([], [(2.0, 2.0)]), false, "f");
    s.DrawLineRemote(b);
    ghost var localBefore, remoteBefore := s.local, s.remote;
    s.OnFullHistoryUpdate(Some([a, b]));
    assert [a, b][..1] == [a];
    assert [a][..0] == [];
    assert Replay([a]) == RenderStroke(a);
    assert Replay([a, b]) == RenderStroke(a) + RenderStroke(b);
    FullHistoryShowsLog(localBefore, [a, b]);
    FullHistoryShowsLog(remoteBefore, [a, b]);
    localShown := Visible(s.local);
    remoteShown := Visible(s.remote);
    entries := |s.history|;
  }

  /** Two undo clicks less than DebounceMs apart send one undo request; a
      third click DebounceMs after the first sends another. */
  method RapidUndo(t0: int, t1: int) returns (afterTwo: seq<Intent>, afterThree: seq<Intent>)
    requires 0 < t0 <= t1 < t0 + DebounceMs
    ensures afterTwo == [UndoIntent] && afterThree == [UndoIntent, UndoIntent]
  {
    var s := new Session();
    s.UndoAction(true, t0);
    assert s.outbox == [UndoIntent] && s.lastUndo == Some(t0);
    s.UndoAction(true, t1);
    assert s.outbox == [UndoIntent];
    afterTwo := s.outbox;
    s.UndoAction(true, t0 + DebounceMs);
    assert s.outbox == [UndoIntent, UndoIntent];
    afterThree := s.outbox;
  }
}
