/**
 * `CanvasManager` (canvas.js): the stroke being drawn, the completed strokes, the redo stack
 * and the commands issued to the 2-D context, updated in place by the stroke lifecycle
 * (`startDrawing`, `drawLine`, `stopDrawing`), `undo`, `redo` and the full replay.
 */
module Canvas {
  import opened Wrappers
  import opened Seqs
  import opened Strokes
  import opened StrokeHistory
  import opened Context2D
  import opened HexColor
  import opened Brushes
  import opened Replay

  class CanvasManager {
    var isDrawing: bool
    /** `undefined` before the first stroke and `null` after each stroke are both `None`. */
    var currentPath: Option<Path>
    var paths: seq<Path>
    var redoStack: seq<Path>
    var brushType: Brush
    /** Every command issued to the 2-D context so far, oldest first. */
    var log: seq<Command>

    ghost predicate Valid()
      reads this`paths, this`redoStack, this`isDrawing, this`currentPath, this`brushType
    {
      && AllRecorded(paths) && AllRecorded(redoStack) && Canonical(brushType)
      && AllCanonical(paths) && AllCanonical(redoStack)
      && (isDrawing <==> currentPath.Some?)
      && (currentPath.Some? ==>
            |currentPath.value.points| > 0 && currentPath.value.brushType == brushType)
    }

    /** The two stacks as a history value. */
    function Stacks(): History
      reads this`paths, this`redoStack
    {
      History(paths, redoStack)
    }

    /** The constructor: empty history, brush "normal", then `resizeCanvas`. */
    constructor ()
      ensures Valid()
      ensures !isDrawing && currentPath == None && brushType == Normal
      ensures paths == [] && redoStack == []
      ensures log == ResizeCommands([])
    {
      isDrawing := false;
      currentPath := None;
      paths := [];
      redoStack := [];
      brushType := Normal;
      log := [];
      new;
      ResizeCanvas();
    }

    /**
     * `resizeCanvas` (canvas.js:15-30): setting the canvas size resets the context, then a white
     * background in source-over and a full replay. The pixel size and scaling are not modelled.
     */
    method ResizeCanvas()
      requires Valid()
      modifies this`log
      ensures log == old(log) + ResizeCommands(paths)
    {
      log := log + [Reset] + ClearCommands();
      RedrawAll();
    }

    /**
     * `startDrawing` (canvas.js:32-40): a new current path holding exactly the one point and the
     * given style. Whatever stroke was in progress is dropped without being recorded.
     */
    method StartDrawing(x: real, y: real, color: string, size: int, b: Brush)
      requires Valid() && Canonical(b)
      modifies this`isDrawing, this`brushType, this`currentPath, this`log
      ensures Valid()
      ensures isDrawing && brushType == b
      ensures currentPath == Some(Path([Point(x, y)], color, size, b))
      ensures Stacks() == old(Stacks())
      ensures log == old(log) + [BeginPath, MoveTo(x, y)]
    {
      isDrawing := true;
      brushType := b;
      currentPath := Some(Path([Point(x, y)], color, size, b));
      log := log + [BeginPath, MoveTo(x, y)];
    }

    /**
     * `drawLine` (canvas.js:42-90): nothing unless a stroke is in progress; otherwise exactly one
     * point is appended to the current path and the segment is drawn with the brush's style.
     */
    method DrawLine(x: real, y: real)
      requires Valid()
      modifies this`currentPath, this`log
      ensures Valid()
      ensures !old(isDrawing) || old(currentPath).None? ==>
        currentPath == old(currentPath) && log == old(log)
      ensures old(isDrawing) && old(currentPath).Some? ==>
        var p := old(currentPath).value;
        && currentPath == Some(p.(points := p.points + [Point(x, y)]))
        && log == old(log) + SegmentCommands(brushType, p.color, p.size, x, y)
      ensures isDrawing == old(isDrawing) && Stacks() == old(Stacks())
    {
      if !isDrawing || currentPath.None? {
        return;
      }
      var p := currentPath.value;
      currentPath := Some(p.(points := p.points + [Point(x, y)]));
      log := log + [SetLineCap("round"), SetLineJoin("round")];
      DrawSegment(p.color, p.size, x, y);
    }

    /** The `switch (this.brushType)` of `drawLine` (canvas.js:51-89). */
    method DrawSegment(color: string, size: int, x: real, y: real)
      modifies this`log
      ensures log == old(log) + SegmentBody(brushType, color, size, x, y)
    {
      match brushType
      case Normal =>
        log := log + LineSegment(Css(color), size as real, x, y);
      case Calligraphy =>
        log := log + LineSegment(Css(color), size as real * 1.4, x, y);
      case Highlighter =>
        log := log + LineSegment(Rgba(color, HighlighterAlpha), size as real * 3.0, x, y);
      case Spray() =>
        log := log + [SetComposite(SourceOver)];
        Spray(x, y, color, size);
      case Eraser =>
        log := log + [Save, SetComposite(DestinationOut), SetLineWidth(size as real * 3.0),
                      LineTo(x, y), Stroke, Restore];
      case Other(_) =>
    }

    /**
     * `stopDrawing` (canvas.js:92-102): nothing unless a stroke is in progress; otherwise the
     * stroke is recorded (when it has a point), the redo stack is emptied and drawing stops.
     */
    method StopDrawing()
      requires Valid()
      modifies this`isDrawing, this`currentPath, this`paths, this`redoStack, this`log
      ensures Valid()
      ensures !old(isDrawing) ==>
        isDrawing == old(isDrawing) && currentPath == old(currentPath)
        && Stacks() == old(Stacks()) && log == old(log)
      ensures old(isDrawing) ==>
        && !isDrawing && currentPath == None
        && Stacks() == Finalized(old(Stacks()), old(currentPath).value)
        && log == old(log) + [BeginPath]
    {
      if !isDrawing {
        return;
      }
      isDrawing := false;
      if |currentPath.value.points| > 0 {
        paths := paths + [currentPath.value];
      }
      currentPath := None;
      log := log + [BeginPath];
      redoStack := [];
    }

    /**
     * `spray` (canvas.js:104-115): the fill colour at alpha 0.4, then one dot per integer
     * `i >= 0` below `max(10, size * 1.5)`.
     */
    method Spray(x: real, y: real, color: string, size: int)
      modifies this`log
      ensures log == old(log) + SprayCommands(x, y, color, size)
    {
      log := log + [SetFillStyle(Rgba(color, SprayAlpha))];
      ghost var head := log;
      ghost var dot := DotCommands(x, y, size);
      var density := if 10.0 >= size as real * 1.5 then 10.0 else size as real * 1.5;
      var i := 0;
      while (i as real) < density
        invariant 0 <= i <= DotCount(size)
        invariant log == head + Repeat(dot, i)
        decreases DotCount(size) - i
      {
        log := log + [BeginPath, RandomDot(x, y, size as real, size as real / 10.0), Fill];
        assert Repeat(dot, i + 1) == Repeat(dot, i) + dot;
        i := i + 1;
      }
      assert density == Density(size);
      assert i == DotCount(size);
      assert log == old(log) + ([SetFillStyle(Rgba(color, SprayAlpha))] + Repeat(dot, i));
    }

    /** `undo` (canvas.js:117-121): nothing on an empty history; otherwise move one stroke and replay. */
    method Undo()
      requires Valid()
      modifies this`paths, this`redoStack, this`log
      ensures Valid()
      ensures Stacks() == Undone(old(Stacks()))
      ensures log == old(log) + (if |old(paths)| == 0 then [] else RedrawCommands(paths))
    {
      if |paths| == 0 {
        return;
      }
      var last := paths[|paths| - 1];
      AllRecordedPrefix(paths, |paths| - 1);
      AllCanonicalPrefix(paths, |paths| - 1);
      redoStack := redoStack + [last];
      paths := paths[..|paths| - 1];
      RedrawAll();
    }

    /** `redo` (canvas.js:123-127): nothing on an empty redo stack; otherwise move one stroke back and replay. */
    method Redo()
      requires Valid()
      modifies this`paths, this`redoStack, this`log
      ensures Valid()
      ensures Stacks() == Redone(old(Stacks()))
      ensures log == old(log) + (if |old(redoStack)| == 0 then [] else RedrawCommands(paths))
    {
      if |redoStack| == 0 {
        return;
      }
      var last := redoStack[|redoStack| - 1];
      AllRecordedPrefix(redoStack, |redoStack| - 1);
      AllCanonicalPrefix(redoStack, |redoStack| - 1);
      paths := paths + [last];
      redoStack := redoStack[..|redoStack| - 1];
      RedrawAll();
    }

    /**
     * `redrawAll` (canvas.js:129-152): clears to white and replays every completed path in
     * order, leaving both stacks as they are.
     */
    method RedrawAll()
      requires AllRecorded(paths)
      modifies this`log
      ensures log == old(log) + RedrawCommands(paths)
    {
      log := log + ClearCommands();
      ghost var head := log;
      var k := 0;
      AllRecordedPrefix(paths, 0);
      while k < |paths|
        invariant 0 <= k <= |paths|
        invariant AllRecorded(paths[..k])
        invariant log == head + BodyCommands(paths[..k])
      {
        ghost var done := BodyCommands(paths[..k]);
        ReplayPath(paths[k]);
        assert AllRecorded(paths[..k + 1]) && log == head + BodyCommands(paths[..k + 1]) by {
          BodyStep(paths, k);
          AppendAssoc(head, done, PathCommands(paths[k]));
        }
        k := k + 1;
      }
      assert paths[..k] == paths;
    }

    /** One pass of the outer loop of `redrawAll` (canvas.js:137-151): the replay of `p`. */
    method ReplayPath(p: Path)
      requires |p.points| > 0
      modifies this`log
      ensures log == old(log) + PathCommands(p)
    {
      log := log + [BeginPath, MoveTo(p.points[0].x, p.points[0].y)];
      ApplyStyle(p);
      ghost var head := log;
      var j := 0;
      while j < |p.points|
        invariant 0 <= j <= |p.points|
        invariant log == head + PointsCommands(p, p.points[..j])
      {
        PointsStep(p, j);
        ghost var done := PointsCommands(p, p.points[..j]);
        DrawPoint(p, p.points[j]);
        AppendAssoc(head, done, PointCommands(p, p.points[j]));
        j := j + 1;
      }
      assert p.points[..j] == p.points;
      log := log + [SetComposite(SourceOver)];
      AppendAssoc5(old(log), [BeginPath, MoveTo(p.points[0].x, p.points[0].y)], StyleCommands(p),
                   PointsCommands(p, p.points), [SetComposite(SourceOver)]);
    }

    /** The body of the inner loop of `redrawAll` (canvas.js:143-148) at the point `pt` of `p`. */
    method DrawPoint(p: Path, pt: Point)
      modifies this`log
      ensures log == old(log) + PointCommands(p, pt)
    {
      if p.brushType == Strokes.Spray {
        Spray(pt.x, pt.y, p.color, p.size);
      } else {
        log := log + [LineTo(pt.x, pt.y), Stroke];
      }
    }

    /** `applyStyle` (canvas.js:154-179). */
    method ApplyStyle(p: Path)
      modifies this`log
      ensures log == old(log) + StyleCommands(p)
    {
      StyleShape(p);
      match p.brushType
      case Highlighter =>
        log := log + [SetStrokeStyle(Rgba(p.color, HighlighterAlpha)), SetLineWidth(p.size as real * 3.0)];
      case Calligraphy =>
        log := log + [SetStrokeStyle(Css(p.color)), SetLineWidth(p.size as real * 1.4)];
      case Eraser =>
        log := log + [SetComposite(DestinationOut), SetLineWidth(p.size as real * 3.0)];
      case _ =>
        log := log + [SetStrokeStyle(Css(p.color)), SetLineWidth(p.size as real), SetComposite(SourceOver)];
    }
  }
}
