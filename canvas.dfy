/** The drawing surface: capture of a stroke by `startDrawing`, `draw` and `stopDrawing`,
    the sabotage predicates over the active effects, the time window that hides strokes
    drawn in invisible ink, and the geometry `renderStroke` draws. */
module Canvas {
  import opened Wrappers

  /** A point in the fixed 800 x 600 logical space of the SVG view box. */
  datatype Point = Point(x: real, y: real)

  datatype Tool = Pen | Eraser | RectTool | CircleTool

  /** The `type` string a stroke drawn with the tool carries. */
  function ToolName(t: Tool): (name: string)
    ensures name != ""
  {
    match t
    case Pen => "pen"
    case Eraser => "eraser"
    case RectTool => "rect"
    case CircleTool => "circle"
  }

  /** A committed stroke. `kind` is the JavaScript `type` field; strokes received from the
      server may carry any string there, and "" stands for a missing type (both are falsy
      and render as a pen). */
  datatype Stroke = Stroke(points: seq<Point>, color: string, width: int, kind: string,
                           createdAt: int, invisible: bool)

  /** One entry of `Object.values(sabotagesActive)`. */
  datatype Effect = Effect(kind: string, targetId: string)

  const ALL_GUESSERS := "all_guessers"
  const ERASER_COLOR := "#ffffff"
  const DEFAULT_COLOR := "#000000"
  const DEFAULT_WIDTH := 3
  const REVEAL_DELAY_MS := 3000

  // ---------------------------------------------------------------------------------------
  // Sabotage predicates (folds over every active effect)
  // ---------------------------------------------------------------------------------------

  /** `Object.values(sabotagesActive).some(p)`. */
  function AnyEffect(effects: seq<Effect>, p: Effect -> bool): (r: bool)
    ensures r <==> exists i :: 0 <= i < |effects| && p(effects[i])
  {
    if effects == [] then false else p(effects[0]) || AnyEffect(effects[1..], p)
  }

  predicate IsEarthquake(effects: seq<Effect>, myId: string) {
    AnyEffect(effects, (e: Effect) => e.kind == "earthquake" && e.targetId == myId)
  }

  /** `isMirror` (computed by the component but not used by anything it renders). */
  predicate IsMirror(effects: seq<Effect>, myId: string, isDrawer: bool) {
    AnyEffect(effects, (e: Effect) => e.kind == "mirror" && (e.targetId == myId || (!isDrawer && e.targetId == ALL_GUESSERS)))
  }

  /** `shouldMirror`, which decides the `scaleX(-1)` transform: any mirror effect, whatever
      its target, flips the view of everyone but the drawer. */
  predicate ShouldMirror(effects: seq<Effect>, isDrawer: bool) {
    !isDrawer && AnyEffect(effects, (e: Effect) => e.kind == "mirror")
  }

  predicate IsCensored(effects: seq<Effect>) {
    AnyEffect(effects, (e: Effect) => e.kind == "censorship")
  }

  predicate IsInvisibleInk(effects: seq<Effect>, myId: string) {
    AnyEffect(effects, (e: Effect) => e.kind == "invisible_ink" && e.targetId == myId)
  }

  /** The fold looks at every effect: joining two effect lists yields the disjunction, so a
      later effect never hides an earlier one. */
  lemma AnyEffectAppend(a: seq<Effect>, b: seq<Effect>, p: Effect -> bool)
    ensures AnyEffect(a + b, p) == (AnyEffect(a, p) || AnyEffect(b, p))
  {
    if AnyEffect(a + b, p) {
      var i :| 0 <= i < |a + b| && p((a + b)[i]);
      if i >= |a| {
        assert b[i - |a|] == (a + b)[i];
      }
    }
    if AnyEffect(a, p) {
      var i :| 0 <= i < |a| && p(a[i]);
      assert (a + b)[i] == a[i];
    }
    if AnyEffect(b, p) {
      var i :| 0 <= i < |b| && p(b[i]);
      assert (a + b)[|a| + i] == b[i];
    }
  }

  /** The order in which `Object.values` lists the effects does not matter. */
  lemma AnyEffectOrderFree(a: seq<Effect>, b: seq<Effect>, p: Effect -> bool)
    requires multiset(a) == multiset(b)
    ensures AnyEffect(a, p) == AnyEffect(b, p)
  {
    if AnyEffect(a, p) {
      var i :| 0 <= i < |a| && p(a[i]);
      assert a[i] in multiset(b);
      var j :| 0 <= j < |b| && b[j] == a[i];
    }
    if AnyEffect(b, p) {
      var j :| 0 <= j < |b| && p(b[j]);
      assert b[j] in multiset(a);
      var i :| 0 <= i < |a| && a[i] == b[j];
    }
  }

  /** Mirroring never applies to the drawer, applies to a guesser whenever any mirror effect
      is active, and so covers every case the unused `isMirror` test covers for a guesser. */
  lemma MirrorScope(effects: seq<Effect>, myId: string)
    ensures !ShouldMirror(effects, true)
    ensures ShouldMirror(effects, false) <==> exists i :: 0 <= i < |effects| && effects[i].kind == "mirror"
    ensures IsMirror(effects, myId, false) ==> ShouldMirror(effects, false)
  {
    if IsMirror(effects, myId, false) {
      var i :| 0 <= i < |effects| && effects[i].kind == "mirror" &&
        (effects[i].targetId == myId || effects[i].targetId == ALL_GUESSERS);
    }
  }

  /** Censorship depends on the effect list alone, not on who is looking. */
  lemma CensorshipIffAny(effects: seq<Effect>)
    ensures IsCensored(effects) <==> exists i :: 0 <= i < |effects| && effects[i].kind == "censorship"
  {
  }

  /** The offset `(Math.random() - 0.5) * 20` added to each coordinate of a sampled point
      while the drawer is under an earthquake; `rx`, `ry` are the two draws. */
  function Jitter(p: Point, applies: bool, rx: real, ry: real): (q: Point)
    requires 0.0 <= rx < 1.0 && 0.0 <= ry < 1.0
    ensures !applies ==> q == p
    ensures -10.0 <= q.x - p.x < 10.0 && -10.0 <= q.y - p.y < 10.0
  {
    if applies then Point(p.x + (rx - 0.5) * 20.0, p.y + (ry - 0.5) * 20.0) else p
  }

  /** `isEarthquake && isDrawer`: the condition under which sampled input is jittered. */
  predicate JitterApplies(effects: seq<Effect>, myId: string, isDrawer: bool) {
    IsEarthquake(effects, myId) && isDrawer
  }

  lemma JitterOnlyForTargetedDrawer(effects: seq<Effect>, myId: string, isDrawer: bool)
    ensures JitterApplies(effects, myId, isDrawer) <==>
      isDrawer && exists i :: 0 <= i < |effects| && effects[i].kind == "earthquake" && effects[i].targetId == myId
  {
  }

  // ---------------------------------------------------------------------------------------
  // Committing a stroke
  // ---------------------------------------------------------------------------------------

  /** The points a committed stroke keeps: rectangles and circles only their first and last
      point, pens and erasers the whole draft. */
  function CommitPoints(tool: Tool, draft: seq<Point>): (r: seq<Point>)
    requires draft != []
    ensures r != [] && r[0] == draft[0] && r[|r| - 1] == draft[|draft| - 1]
    ensures (tool.RectTool? || tool.CircleTool?) ==> |r| == 2
    ensures (tool.Pen? || tool.Eraser?) ==> r == draft
  {
    if tool.RectTool? || tool.CircleTool? then [draft[0], draft[|draft| - 1]] else draft
  }

  /** However many points were captured after the first, a shape keeps exactly the anchor
      and the last point. */
  lemma ShapeKeepsEnds(tool: Tool, anchor: Point, moves: seq<Point>)
    requires tool.RectTool? || tool.CircleTool?
    ensures CommitPoints(tool, [anchor] + moves) == [anchor, if moves == [] then anchor else moves[|moves| - 1]]
  {
  }

  function StrokeColor(tool: Tool, color: string): string {
    if tool.Eraser? then ERASER_COLOR else color
  }

  function StrokeWidth(tool: Tool, width: int): int {
    if tool.Eraser? then width * 2 else width
  }

  /** The stroke object `stopDrawing` builds from the draft. */
  function MakeStroke(tool: Tool, draft: seq<Point>, color: string, width: int,
                      invisible: bool, createdAt: int): Stroke
    requires draft != []
  {
    Stroke(CommitPoints(tool, draft), StrokeColor(tool, color), StrokeWidth(tool, width),
           ToolName(tool), createdAt, invisible)
  }

  /** An eraser stroke paints white at twice the selected width; any other tool uses the
      selected colour and width. The stroke's type is the tool's name, never missing. */
  lemma StrokeStyle(tool: Tool, draft: seq<Point>, color: string, width: int, invisible: bool,
                    createdAt: int)
    requires draft != []
    ensures var s := MakeStroke(tool, draft, color, width, invisible, createdAt);
      (tool.Eraser? ==> s.color == ERASER_COLOR && s.width == 2 * width) &&
      (!tool.Eraser? ==> s.color == color && s.width == width) &&
      s.invisible == invisible && s.createdAt == createdAt &&
      EffectiveKind(s) == ToolName(tool)
  {
  }

  // ---------------------------------------------------------------------------------------
  // Rendering
  // ---------------------------------------------------------------------------------------

  /** The SVG element drawn for a stroke. A circle is kept as its centre and a rim point;
      its radius, a square root, is not computed here. */
  datatype Shape =
    | Path(points: seq<Point>, color: string, width: int)
    | Rect(x: real, y: real, w: real, h: real, color: string, width: int)
    | Circle(center: Point, rim: Point, color: string, width: int)

  function MinReal(a: real, b: real): real {
    if a <= b then a else b
  }

  function AbsReal(a: real): real {
    if a < 0.0 then -a else a
  }

  /** The rectangle `(x, y, w, h)` runs from one of the two corners to the other along each
      axis. */
  predicate Spans(x: real, y: real, w: real, h: real, a: Point, b: Point) {
    ((x == a.x && x + w == b.x) || (x == b.x && x + w == a.x)) &&
    ((y == a.y && y + h == b.y) || (y == b.y && y + h == a.y))
  }

  predicate IsKnownKind(kind: string) {
    kind == "pen" || kind == "eraser" || kind == "rect" || kind == "circle"
  }

  /** The geometry shared by `renderStroke` and `renderPreview` for a kind and its points. */
  function RenderShape(kind: string, points: seq<Point>, color: string, width: int): (r: Option<Shape>)
    ensures r.Some? <==> points != [] && IsKnownKind(kind)
    ensures r.Some? && (kind == "pen" || kind == "eraser") ==> r.value == Path(points, color, width)
    ensures r.Some? && kind == "rect" ==>
      r.value.Rect? && r.value.w >= 0.0 && r.value.h >= 0.0 &&
      Spans(r.value.x, r.value.y, r.value.w, r.value.h, points[0], points[|points| - 1]) &&
      r.value.color == color && r.value.width == width
    ensures r.Some? && kind == "circle" ==>
      r.value == Circle(points[0], points[|points| - 1], color, width)
  {
    if points == [] then None
    else if kind == "pen" || kind == "eraser" then Some(Path(points, color, width))
    else if kind == "rect" then
      var start, end := points[0], points[|points| - 1];
      Some(Rect(MinReal(start.x, end.x), MinReal(start.y, end.y),
                AbsReal(end.x - start.x), AbsReal(end.y - start.y), color, width))
    else if kind == "circle" then
      Some(Circle(points[0], points[|points| - 1], color, width))
    else None
  }

  /** `stroke.type || 'pen'`. */
  function EffectiveKind(s: Stroke): string {
    if s.kind == "" then "pen" else s.kind
  }

  /** `renderStroke(stroke)`: nothing for a stroke without points or of an unknown type, a
      path for a pen (also when the type is missing) or an eraser. */
  function RenderStroke(s: Stroke): (r: Option<Shape>)
    ensures r.None? <==> s.points == [] || !IsKnownKind(EffectiveKind(s))
    ensures s.kind == "" && s.points != [] ==> r == Some(Path(s.points, s.color, s.width))
  {
    RenderShape(EffectiveKind(s), s.points, s.color, s.width)
  }

  /** `renderPreview()` for the draft being captured. */
  function PreviewShape(tool: Tool, draft: seq<Point>, color: string, width: int): Option<Shape> {
    RenderShape(ToolName(tool), draft, StrokeColor(tool, color), StrokeWidth(tool, width))
  }

  /** Committing a draft does not change the picture: the stroke renders as the preview of
      the draft did, whatever points the commit dropped. */
  lemma CommitKeepsPicture(tool: Tool, draft: seq<Point>, color: string, width: int,
                           invisible: bool, createdAt: int)
    requires draft != []
    ensures RenderStroke(MakeStroke(tool, draft, color, width, invisible, createdAt)) ==
            PreviewShape(tool, draft, color, width)
  {
  }

  // ---------------------------------------------------------------------------------------
  // Concealment window
  // ---------------------------------------------------------------------------------------

  /** A stroke is shown unless it was drawn in invisible ink less than (or exactly) three
      seconds ago. */
  predicate Revealed(s: Stroke, now: int) {
    !s.invisible || now > s.createdAt + REVEAL_DELAY_MS
  }

  /** `visibleStrokes`: the strokes that are revealed at `now`, in log order. */
  function VisibleStrokes(strokes: seq<Stroke>, now: int): (r: seq<Stroke>)
    ensures |r| <= |strokes|
    ensures forall s :: s in r ==> s in strokes && Revealed(s, now)
    ensures forall s :: s in strokes && Revealed(s, now) ==> s in r
  {
    if strokes == [] then []
    else (if Revealed(strokes[0], now) then [strokes[0]] else []) + VisibleStrokes(strokes[1..], now)
  }

  /** The filter distributes over concatenation, so it keeps log order. */
  lemma {:induction false} VisibleStrokesAppend(a: seq<Stroke>, b: seq<Stroke>, now: int)
    ensures VisibleStrokes(a + b, now) == VisibleStrokes(a, now) + VisibleStrokes(b, now)
  {
    if a == [] {
      assert a + b == b;
    } else {
      assert (a + b)[0] == a[0];
      assert (a + b)[1..] == a[1..] + b;
      VisibleStrokesAppend(a[1..], b, now);
    }
  }

  /** A log without pending invisible strokes is shown whole. */
  lemma {:induction false} VisibleStrokesAllRevealed(strokes: seq<Stroke>, now: int)
    requires forall i :: 0 <= i < |strokes| ==> Revealed(strokes[i], now)
    ensures VisibleStrokes(strokes, now) == strokes
  {
    if strokes != [] {
      VisibleStrokesAllRevealed(strokes[1..], now);
    }
  }

  /** Once shown, a stroke stays shown as the clock advances. */
  lemma {:induction false} VisibleStrokesGrow(strokes: seq<Stroke>, t1: int, t2: int)
    requires t1 <= t2
    ensures forall s :: s in VisibleStrokes(strokes, t1) ==> s in VisibleStrokes(strokes, t2)
    ensures |VisibleStrokes(strokes, t1)| <= |VisibleStrokes(strokes, t2)|
  {
    if strokes != [] {
      VisibleStrokesGrow(strokes[1..], t1, t2);
    }
  }

  /** An invisible stroke created at `T` is hidden at `T + 1000` and at `T + 3000`, and shown
      at `T + 3001`. */
  lemma ConcealmentWindow(s: Stroke)
    requires s.invisible
    ensures s !in VisibleStrokes([s], s.createdAt + 1000)
    ensures s !in VisibleStrokes([s], s.createdAt + 3000)
    ensures VisibleStrokes([s], s.createdAt + 3001) == [s]
  {
  }

  /** The shapes drawn for the visible strokes, in order; React renders nothing for `null`. */
  function Shapes(strokes: seq<Stroke>): (r: seq<Shape>)
    ensures |r| <= |strokes|
    ensures forall i :: 0 <= i < |strokes| && RenderStroke(strokes[i]).Some? ==> RenderStroke(strokes[i]).value in r
  {
    if strokes == [] then []
    else (match RenderStroke(strokes[0]) case Some(sh) => [sh] case None => []) + Shapes(strokes[1..])
  }

  /** Rendering works stroke by stroke, so the shapes keep log order. */
  lemma {:induction false} ShapesAppend(a: seq<Stroke>, b: seq<Stroke>)
    ensures Shapes(a + b) == Shapes(a) + Shapes(b)
  {
    if a == [] {
      assert a + b == b;
    } else {
      assert (a + b)[0] == a[0];
      assert (a + b)[1..] == a[1..] + b;
      ShapesAppend(a[1..], b);
    }
  }

  /** One stroke gives its shape, or nothing when it does not render. */
  lemma ShapesOne(s: Stroke)
    ensures Shapes([s]) == if RenderStroke(s).Some? then [RenderStroke(s).value] else []
  {
    assert [s][1..] == [];
  }

  /** When every stroke renders, the `i`-th shape is the `i`-th stroke's. */
  lemma {:induction false} ShapesAllRender(strokes: seq<Stroke>)
    requires forall i :: 0 <= i < |strokes| ==> RenderStroke(strokes[i]).Some?
    ensures |Shapes(strokes)| == |strokes|
    ensures forall i :: 0 <= i < |strokes| ==> Shapes(strokes)[i] == RenderStroke(strokes[i]).value
  {
    if strokes != [] {
      ShapesAllRender(strokes[1..]);
    }
  }

  /** What one viewer's canvas shows: the shake animation, the mirror transform, the
      censorship bar, the committed strokes and the draft preview. */
  datatype Scene = Scene(shaking: bool, mirrored: bool, censored: bool, shapes: seq<Shape>,
                         preview: Option<Shape>)

  function RenderScene(strokes: seq<Stroke>, effects: seq<Effect>, myId: string, isDrawer: bool,
                       now: int, preview: Option<Shape>): Scene
  {
    Scene(IsEarthquake(effects, myId), ShouldMirror(effects, isDrawer), IsCensored(effects),
          Shapes(VisibleStrokes(strokes, now)), preview)
  }

  /** Concealment and censorship are the same for every viewer; only the mirror transform
      and the shake depend on who is looking, and the drawer is never mirrored. */
  lemma SceneViewerScope(strokes: seq<Stroke>, effects: seq<Effect>, now: int,
                         id1: string, id2: string, d1: bool, d2: bool, p1: Option<Shape>, p2: Option<Shape>)
    ensures RenderScene(strokes, effects, id1, d1, now, p1).shapes == RenderScene(strokes, effects, id2, d2, now, p2).shapes
    ensures RenderScene(strokes, effects, id1, d1, now, p1).censored == RenderScene(strokes, effects, id2, d2, now, p2).censored
    ensures !RenderScene(strokes, effects, id1, true, now, p1).mirrored
  {
  }

  // ---------------------------------------------------------------------------------------
  // The component's drawing state
  // ---------------------------------------------------------------------------------------

  class CanvasState {
    var isDrawing: bool
    var currentPoints: seq<Point>
    var color: string
    var width: int
    var tool: Tool

    /** A drag is in progress exactly when the draft holds points. */
    predicate Valid()
      reads this
    {
      isDrawing == (currentPoints != [])
    }

    constructor()
      ensures Valid() && !isDrawing && currentPoints == []
      ensures color == DEFAULT_COLOR && width == DEFAULT_WIDTH && tool == Pen
    {
      isDrawing := false;
      currentPoints := [];
      color := DEFAULT_COLOR;
      width := DEFAULT_WIDTH;
      tool := Pen;
    }

    method SelectTool(t: Tool)
      modifies this
      ensures tool == t
      ensures isDrawing == old(isDrawing) && currentPoints == old(currentPoints)
      ensures color == old(color) && width == old(width)
    {
      tool := t;
    }

    /** A palette click picks the colour and switches back to the pen. */
    method SelectColor(c: string)
      modifies this
      ensures color == c && tool == Pen
      ensures isDrawing == old(isDrawing) && currentPoints == old(currentPoints) && width == old(width)
    {
      color := c;
      tool := Pen;
    }

    method SetWidth(w: int)
      modifies this
      ensures width == w
      ensures isDrawing == old(isDrawing) && currentPoints == old(currentPoints)
      ensures color == old(color) && tool == old(tool)
    {
      width := w;
    }

    /** Press at the (already scaled and possibly jittered) point `p`. */
    method StartDrawing(isDrawer: bool, p: Point)
      requires Valid()
      modifies this
      ensures Valid()
      ensures isDrawer ==> isDrawing && currentPoints == [p]
      ensures !isDrawer ==> isDrawing == old(isDrawing) && currentPoints == old(currentPoints)
      ensures color == old(color) && width == old(width) && tool == old(tool)
    {
      if !isDrawer {
        return;
      }
      isDrawing := true;
      currentPoints := [p];
    }

    /** Drag move: one more point at the end of the draft, during a drag only. */
    method Draw(isDrawer: bool, p: Point)
      requires Valid()
      modifies this
      ensures Valid()
      ensures isDrawing == old(isDrawing)
      ensures currentPoints == if old(isDrawing) && isDrawer then old(currentPoints) + [p] else old(currentPoints)
      ensures color == old(color) && width == old(width) && tool == old(tool)
    {
      if !isDrawing || !isDrawer {
        return;
      }
      currentPoints := currentPoints + [p];
    }

    /** Release or leave: ends the drag and hands at most one stroke to `onDrawStroke`;
        `clock` is `Date.now()` at that moment. */
    method StopDrawing(isDrawer: bool, effects: seq<Effect>, myId: string, clock: int)
      returns (emitted: Option<Stroke>)
      requires Valid()
      modifies this
      ensures Valid()
      ensures !old(isDrawing) || !isDrawer ==>
        emitted.None? && isDrawing == old(isDrawing) && currentPoints == old(currentPoints)
      ensures old(isDrawing) && isDrawer ==>
        !isDrawing && currentPoints == [] &&
        emitted == (if old(currentPoints) == [] then None
                    else Some(MakeStroke(tool, old(currentPoints), color, width, IsInvisibleInk(effects, myId), clock)))
      ensures color == old(color) && width == old(width) && tool == old(tool)
    {
      emitted := None;
      if !isDrawing || !isDrawer {
        return;
      }
      isDrawing := false;
      if |currentPoints| > 0 {
        emitted := Some(MakeStroke(tool, currentPoints, color, width, IsInvisibleInk(effects, myId), clock));
      }
      currentPoints := [];
    }

    /** The draft preview, drawn only while a drag is in progress. */
    function Preview(): Option<Shape>
      reads this
    {
      if isDrawing then PreviewShape(tool, currentPoints, color, width) else None
    }

    /** The whole canvas as this viewer sees it at `now`. */
    function View(strokes: seq<Stroke>, effects: seq<Effect>, myId: string, isDrawer: bool, now: int): Scene
      reads this
    {
      RenderScene(strokes, effects, myId, isDrawer, now, Preview())
    }
  }
}
