/**
 * Strokes, the abstract drawing operations of a 2D surface, and the one
 * per-tool dispatch that turns a stroke into operations.
 *
 * A surface is modelled as the sequence of operations applied to it; what
 * is on screen is whatever was applied after the last full clear.
 */
module Strokes {

  /** The drawing tools. A stroke that arrives from the server may carry a
      tool name the client does not know; it is kept as `Other`. */
  datatype Tool = Brush | Eraser | Line | Rectangle | Circle | Other(name: string)

  predicate IsFreehand(t: Tool) { t == Brush || t == Eraser }

  predicate IsShape(t: Tool) { t == Line || t == Rectangle || t == Circle }

  /** The tool names the client compares a stroke's `tool` field against. */
  predicate IsKnownName(name: string) {
    name == "brush" || name == "eraser" || name == "line" || name == "rectangle" || name == "circle"
  }

  /** A tool as it can arrive from the server: `Other` only for a name the
      client does not know. */
  predicate WellFormedTool(t: Tool) {
    t.Other? ==> !IsKnownName(t.name)
  }

  /** The `tool` string a stroke carries on the wire. */
  function ToolName(t: Tool): string {
    match t
    case Brush => "brush"
    case Eraser => "eraser"
    case Line => "line"
    case Rectangle => "rectangle"
    case Circle => "circle"
    case Other(name) => name
  }

  /** Reading a stroke's `tool` string: each of the five names the client
      checks gives its tool, and any other string is kept as `Other`. */
  function ToolNamed(name: string): (t: Tool)
    ensures WellFormedTool(t)
    ensures t.Other? <==> !IsKnownName(name)
    ensures t.Other? ==> t.name == name
  {
    if name == "brush" then Brush
    else if name == "eraser" then Eraser
    else if name == "line" then Line
    else if name == "rectangle" then Rectangle
    else if name == "circle" then Circle
    else Other(name)
  }

  /** Reading a tool name back gives the string that was sent, and writing
      a well-formed tool and reading it gives the same tool. */
  lemma ToolNameRoundTrip(name: string, t: Tool)
    requires WellFormedTool(t)
    ensures ToolName(ToolNamed(name)) == name
    ensures ToolNamed(ToolName(t)) == t
  {
  }

  /** One drawable unit, as sent to and received from the server. */
  datatype Stroke = Stroke(
    fromX: real, fromY: real, toX: real, toY: real,
    color: string, width: real, tool: Tool, strokeId: string)

  /** Colour and line width in force for a stroked operation. */
  datatype Style = Style(color: string, width: real)

  /** The 2D-context calls the client makes, one constructor per call. */
  datatype Op =
    | ClearAll                                          // clearRect over the whole surface
    | ClearRect(x: real, y: real, w: real, h: real)     // clearRect of one box
    | StrokeLine(x0: real, y0: real, x1: real, y1: real, style: Style)  // round cap and join
    | StrokeRect(x: real, y: real, w: real, h: real, style: Style)      // strokeRect outline
    | StrokeArc(cx: real, cy: real, edgeX: real, edgeY: real, style: Style)  // full circle;
                                                        // radius = distance from centre to edge

  /** `op` clears a size×size box whose centre is (cx, cy). */
  predicate BoxCentredAt(op: Op, cx: real, cy: real, size: real) {
    && op.ClearRect?
    && op.w == size && op.h == size
    && op.x + size / 2.0 == cx && op.y + size / 2.0 == cy
  }

  /** `op` outlines the axis-parallel rectangle with opposite corners (x0, y0) and (x1, y1). */
  predicate OutlineSpans(op: Op, x0: real, y0: real, x1: real, y1: real, style: Style) {
    && op.StrokeRect?
    && op.x == x0 && op.y == y0
    && op.x + op.w == x1 && op.y + op.h == y1
    && op.style == style
  }

  /** `op` strokes the circle centred at (cx, cy) that passes through (ex, ey). */
  predicate CircleThrough(op: Op, cx: real, cy: real, ex: real, ey: real, style: Style) {
    op.StrokeArc? && op.cx == cx && op.cy == cy && op.edgeX == ex && op.edgeY == ey && op.style == style
  }

  /** `op` strokes a round-capped segment from (x0, y0) to (x1, y1). */
  predicate SegmentJoins(op: Op, x0: real, y0: real, x1: real, y1: real, style: Style) {
    op.StrokeLine? && op.x0 == x0 && op.y0 == y0 && op.x1 == x1 && op.y1 == y1 && op.style == style
  }

  // The local drawing helpers of the canvas page, each giving the one
  // operation it performs on the local surface.

  /** drawLine: a round-capped segment. */
  function DrawLine(fromX: real, fromY: real, toX: real, toY: real, color: string, width: real): Op
  {
    StrokeLine(fromX, fromY, toX, toY, Style(color, width))
  }

  /** erase: one box of side `size` centred on the point. */
  function Erase(x: real, y: real, size: real): (op: Op)
    ensures BoxCentredAt(op, x, y, size)
  {
    ClearRect(x - size / 2.0, y - size / 2.0, size, size)
  }

  /** drawRectangle: the outline given by its corner and its signed extent. */
  function DrawRectangle(fromX: real, fromY: real, toX: real, toY: real, color: string, width: real): (op: Op)
    ensures OutlineSpans(op, fromX, fromY, toX, toY, Style(color, width))
  {
    StrokeRect(fromX, fromY, toX - fromX, toY - fromY, Style(color, width))
  }

  /** drawCircle: centred on the first point, through the second. */
  function DrawCircle(fromX: real, fromY: real, toX: real, toY: real, color: string, width: real): Op
  {
    StrokeArc(fromX, fromY, toX, toY, Style(color, width))
  }

  /**
   * The per-tool dispatch of drawLineRemote, repeated inline for both
   * surfaces by the full-history handler: the eraser clears two boxes, one
   * centred on each endpoint; a rectangle is an outline; a circle is
   * centred at the start point; every other tool is a round-capped line.
   */
  function RenderStroke(s: Stroke): (ops: seq<Op>)
    ensures ClearAll !in ops
    ensures s.tool == Eraser ==>
      |ops| == 2 && BoxCentredAt(ops[0], s.fromX, s.fromY, s.width) && BoxCentredAt(ops[1], s.toX, s.toY, s.width)
    ensures s.tool == Rectangle ==>
      |ops| == 1 && OutlineSpans(ops[0], s.fromX, s.fromY, s.toX, s.toY, Style(s.color, s.width))
    ensures s.tool == Circle ==>
      |ops| == 1 && CircleThrough(ops[0], s.fromX, s.fromY, s.toX, s.toY, Style(s.color, s.width))
    ensures s.tool != Eraser && s.tool != Rectangle && s.tool != Circle ==>
      |ops| == 1 && SegmentJoins(ops[0], s.fromX, s.fromY, s.toX, s.toY, Style(s.color, s.width))
  {
    var w := s.width;
    if s.tool == Eraser then
      [ClearRect(s.fromX - w / 2.0, s.fromY - w / 2.0, w, w), ClearRect(s.toX - w / 2.0, s.toY - w / 2.0, w, w)]
    else if s.tool == Rectangle then
      [StrokeRect(s.fromX, s.fromY, s.toX - s.fromX, s.toY - s.fromY, Style(s.color, w))]
    else if s.tool == Circle then
      [StrokeArc(s.fromX, s.fromY, s.toX, s.toY, Style(s.color, w))]
    else
      [StrokeLine(s.fromX, s.fromY, s.toX, s.toY, Style(s.color, w))]
  }

  /** The remote dispatch draws a shape exactly as the local helper that
      previews it does, so a committed shape looks like its last preview. */
  lemma ShapeRendersAsLocalHelper(s: Stroke)
    requires IsShape(s.tool)
    ensures s.tool == Line ==> RenderStroke(s) == [DrawLine(s.fromX, s.fromY, s.toX, s.toY, s.color, s.width)]
    ensures s.tool == Rectangle ==> RenderStroke(s) == [DrawRectangle(s.fromX, s.fromY, s.toX, s.toY, s.color, s.width)]
    ensures s.tool == Circle ==> RenderStroke(s) == [DrawCircle(s.fromX, s.fromY, s.toX, s.toY, s.color, s.width)]
  {
  }

  /** A brush segment renders remotely exactly as it was drawn locally; an
      eraser segment renders remotely as the local box at the new point
      preceded by a second box at the previous point. */
  lemma FreehandRendersAsLocalHelper(s: Stroke)
    requires IsFreehand(s.tool)
    ensures s.tool == Brush ==> RenderStroke(s) == [DrawLine(s.fromX, s.fromY, s.toX, s.toY, s.color, s.width)]
    ensures s.tool == Eraser ==> RenderStroke(s) == [Erase(s.fromX, s.fromY, s.width), Erase(s.toX, s.toY, s.width)]
  {
  }

  /** Replaying a log: every stroke in order, through the one dispatch. */
  function Replay(log: seq<Stroke>): (ops: seq<Op>)
    ensures ClearAll !in ops
    ensures |ops| >= |log|
  {
    if log == [] then [] else Replay(log[..|log| - 1]) + RenderStroke(log[|log| - 1])
  }

  /** Replaying a log in two pieces (a join-time backlog, then strokes that
      arrive one by one) gives the same operations as replaying it whole. */
  lemma {:induction false} ReplayConcat(a: seq<Stroke>, b: seq<Stroke>)
    ensures Replay(a + b) == Replay(a) + Replay(b)
    decreases |b|
  {
    if b == [] {
      assert a + b == a;
    } else {
      var b' := b[..|b| - 1];
      assert (a + b)[..|a + b| - 1] == a + b';
      assert (a + b)[|a + b| - 1] == b[|b| - 1];
      ReplayConcat(a, b');
    }
  }

  /** What a surface shows: the operations applied since the last full clear. */
  function Visible(ops: seq<Op>): (v: seq<Op>)
    ensures ClearAll !in v
    ensures |v| <= |ops| && v == ops[|ops| - |v|..]
  {
    if ops == [] then []
    else if ops[|ops| - 1] == ClearAll then []
    else Visible(ops[..|ops| - 1]) + [ops[|ops| - 1]]
  }

  /** A surface that was fully cleared and then drawn with `drawn` (which
      holds no full clear) shows exactly `drawn`, whatever it held before. */
  lemma {:induction false} VisibleAfterClear(before: seq<Op>, drawn: seq<Op>)
    requires ClearAll !in drawn
    ensures Visible(before + [ClearAll] + drawn) == drawn
    decreases |drawn|
  {
    var all := before + [ClearAll] + drawn;
    if drawn == [] {
      assert all[|all| - 1] == ClearAll;
    } else {
      var d' := drawn[..|drawn| - 1];
      assert all[..|all| - 1] == before + [ClearAll] + d';
      assert all[|all| - 1] == drawn[|drawn| - 1];
      VisibleAfterClear(before, d');
    }
  }

  /** Drawing more onto a surface adds to what it shows. */
  lemma {:induction false} VisibleExtends(before: seq<Op>, drawn: seq<Op>)
    requires ClearAll !in drawn
    ensures Visible(before + drawn) == Visible(before) + drawn
    decreases |drawn|
  {
    var all := before + drawn;
    if drawn == [] {
      assert all == before;
    } else {
      var d' := drawn[..|drawn| - 1];
      assert all[..|all| - 1] == before + d';
      assert all[|all| - 1] == drawn[|drawn| - 1];
      VisibleExtends(before, d');
    }
  }
}
