/**
 * How each brush is painted (canvas.js): the style table, `applyStyle` (154-179), the per-segment
 * switch of `drawLine` (47-89) and `spray` (104-115), each as the list of context commands the
 * source issues, with lemmas that relate the two code paths to the one table.
 */
module Brushes {
  import opened Strokes
  import opened Context2D
  import opened HexColor

  /** The alpha texts the source passes to `_alpha`. */
  const HighlighterAlpha := "0.3"
  const SprayAlpha := "0.4"

  /** The compositing mode each brush paints with: only the eraser removes pixels. */
  function ModeOf(b: Brush): Composite {
    if b == Eraser then DestinationOut else SourceOver
  }

  /** The line width each brush draws with, for a brush size `size`. */
  function WidthOf(b: Brush, size: int): real {
    match b
    case Highlighter => 3.0 * size as real
    case Eraser => 3.0 * size as real
    case Calligraphy => 1.4 * size as real
    case _ => size as real
  }

  /** The stroke colour of a brush that sets one: translucent (alpha 0.3) for the highlighter. */
  function StrokeColorOf(b: Brush, color: string): Style {
    if b == Highlighter then Rgba(color, HighlighterAlpha) else Css(color)
  }

  /** The string a style value assigns: what `_alpha(hex, val)` returns for a translucent one. */
  function StyleText(st: Style): string {
    match st
    case Css(t) => t
    case Rgba(hex, val) => Alpha(hex, val)
  }

  /**
   * For a colour `#rrggbb` the highlighter strokes with `rgba(r,g,b,0.3)` and spray fills with
   * `rgba(r,g,b,0.4)`, where r, g and b are the values of the three digit pairs.
   */
  lemma TranslucentText(hex: string)
    requires |hex| == 7
    requires forall i :: 1 <= i < 7 ==> IsHexDigit(hex[i])
    ensures var r, g, b := PairValue(hex[1], hex[2]), PairValue(hex[3], hex[4]), PairValue(hex[5], hex[6]);
      && StyleText(StrokeColorOf(Highlighter, hex)) == RgbaText(Int(r), Int(g), Int(b), "0.3")
      && StyleText(Rgba(hex, SprayAlpha)) == RgbaText(Int(r), Int(g), Int(b), "0.4")
  {
    AlphaLongForm(hex, HighlighterAlpha);
    AlphaLongForm(hex, SprayAlpha);
  }

  /** The brushes that paint a line segment (all but spray and unknown names). */
  predicate IsLineBrush(b: Brush) {
    b == Normal || b == Calligraphy || b == Highlighter || b == Eraser
  }

  /** `applyStyle(p)`: the commands it issues for the path's brush. */
  function StyleCommands(p: Path): seq<Command> {
    match p.brushType
    case Highlighter =>
      [SetStrokeStyle(Rgba(p.color, HighlighterAlpha)), SetLineWidth(p.size as real * 3.0)]
    case Calligraphy =>
      [SetStrokeStyle(Css(p.color)), SetLineWidth(p.size as real * 1.4)]
    case Eraser =>
      [SetComposite(DestinationOut), SetLineWidth(p.size as real * 3.0)]
    case _ =>
      [SetStrokeStyle(Css(p.color)), SetLineWidth(p.size as real), SetComposite(SourceOver)]
  }

  /** The cases of `applyStyle`, one by one. */
  lemma StyleShape(p: Path)
    ensures p.brushType == Highlighter ==>
      StyleCommands(p) == [SetStrokeStyle(Rgba(p.color, HighlighterAlpha)), SetLineWidth(p.size as real * 3.0)]
    ensures p.brushType == Calligraphy ==>
      StyleCommands(p) == [SetStrokeStyle(Css(p.color)), SetLineWidth(p.size as real * 1.4)]
    ensures p.brushType == Eraser ==>
      StyleCommands(p) == [SetComposite(DestinationOut), SetLineWidth(p.size as real * 3.0)]
    ensures p.brushType !in {Highlighter, Calligraphy, Eraser} ==>
      StyleCommands(p) == [SetStrokeStyle(Css(p.color)), SetLineWidth(p.size as real), SetComposite(SourceOver)]
  {
  }

  /**
   * `applyStyle` sets the table's width (when positive: the context ignores other widths) and,
   * starting from source-over, the table's compositing mode: the eraser and the default branch
   * set their mode from any state, while the highlighter and calligraphy branches keep the mode
   * they find. Every brush but the eraser sets the table's stroke colour. It paints nothing and
   * saves nothing.
   */
  lemma ApplyStyleEffect(s: CtxState, p: Path)
    ensures var t := Run(s, StyleCommands(p));
      && (s.mode == SourceOver ==> t.mode == ModeOf(p.brushType))
      && (p.brushType == Eraser ==> t.mode == DestinationOut)
      && (p.brushType == Highlighter || p.brushType == Calligraphy ==> t.mode == s.mode)
      && (p.brushType !in {Highlighter, Calligraphy, Eraser} ==> t.mode == SourceOver)
      && t.lineWidth == (if p.size > 0 then WidthOf(p.brushType, p.size) else s.lineWidth)
      && t.strokeStyle == (if p.brushType == Eraser then s.strokeStyle
                           else StrokeColorOf(p.brushType, p.color))
      && t.fillStyle == s.fillStyle && t.stack == s.stack
    ensures Paints(s, StyleCommands(p)) == []
    ensures PaintCount(StyleCommands(p)) == 0
  {
    var c := StyleCommands(p);
    if |c| == 2 {
      RunPair(s, c[0], c[1]);
      assert c == [c[0], c[1]];
    } else {
      RunTriple(s, c[0], c[1], c[2]);
      assert c == [c[0], c[1], c[2]];
    }
  }

  /** Two commands that paint nothing. */
  lemma RunPair(s: CtxState, c1: Command, c2: Command)
    requires PaintOf(s, c1) == [] && PaintOf(Exec(s, c1), c2) == []
    requires !(c1.Stroke? || c1.Fill? || c1.FillRect?) && !(c2.Stroke? || c2.Fill? || c2.FillRect?)
    ensures Run(s, [c1, c2]) == Exec(Exec(s, c1), c2)
    ensures Paints(s, [c1, c2]) == [] && PaintCount([c1, c2]) == 0
  {
    assert [c1, c2][1..] == [c2];
    assert [c2][1..] == [];
    Step(s, [c1, c2]);
    Step(Exec(s, c1), [c2]);
    assert PaintCount([c2]) == 0;
  }

  /** Three commands that paint nothing. */
  lemma RunTriple(s: CtxState, c1: Command, c2: Command, c3: Command)
    requires PaintOf(s, c1) == [] && PaintOf(Exec(s, c1), c2) == []
    requires PaintOf(Exec(Exec(s, c1), c2), c3) == []
    requires !(c1.Stroke? || c1.Fill? || c1.FillRect?) && !(c2.Stroke? || c2.Fill? || c2.FillRect?)
    requires !(c3.Stroke? || c3.Fill? || c3.FillRect?)
    ensures Run(s, [c1, c2, c3]) == Exec(Exec(Exec(s, c1), c2), c3)
    ensures Paints(s, [c1, c2, c3]) == [] && PaintCount([c1, c2, c3]) == 0
  {
    assert [c1, c2, c3][1..] == [c2, c3];
    RunPair(Exec(s, c1), c2, c3);
  }

  /** The number of dots `spray` paints: the integers `i >= 0` with `i < max(10, size * 1.5)`. */
  function DotCount(size: int): (n: nat)
    ensures n >= 10
    ensures n as real >= Density(size) && (n - 1) as real < Density(size)
  {
    if 3 * size <= 20 then 10 else (3 * size + 1) / 2
  }

  /** `Math.max(10, size * 1.5)`. */
  function Density(size: int): real {
    if 10.0 >= size as real * 1.5 then 10.0 else size as real * 1.5
  }

  /** One dot of `spray`: `beginPath`, an `arc` of radius `size / 10` near (x, y), `fill`. */
  function DotCommands(x: real, y: real, size: int): seq<Command> {
    [BeginPath, RandomDot(x, y, size as real, size as real / 10.0), Fill]
  }

  /** `spray(x, y, color, size)`: the fill colour at alpha 0.4, then `DotCount(size)` dots. */
  function SprayCommands(x: real, y: real, color: string, size: int): seq<Command> {
    [SetFillStyle(Rgba(color, SprayAlpha))] + Repeat(DotCommands(x, y, size), DotCount(size))
  }

  /** `spray` keeps the compositing mode and paints exactly `DotCount(size)` fills under it. */
  lemma SprayPaints(s: CtxState, x: real, y: real, color: string, size: int)
    ensures Run(s, SprayCommands(x, y, color, size)).mode == s.mode
    ensures Modes(Paints(s, SprayCommands(x, y, color, size))) == Copies(s.mode, DotCount(size))
    ensures KeepsMode(SprayCommands(x, y, color, size))
    ensures PaintCount(SprayCommands(x, y, color, size)) == DotCount(size)
  {
    DotsPaint(s, x, y, Rgba(color, SprayAlpha), size, DotCount(size));
  }

  /** `n` dots after setting the fill colour `fill`. */
  lemma DotsPaint(s: CtxState, x: real, y: real, fill: Style, size: int, n: nat)
    ensures var cmds := [SetFillStyle(fill)] + Repeat(DotCommands(x, y, size), n);
      && KeepsMode(cmds) && PaintCount(cmds) == n
      && Run(s, cmds).mode == s.mode && Modes(Paints(s, cmds)) == Copies(s.mode, n)
  {
    var dot := DotCommands(x, y, size);
    assert KeepsMode(dot);
    assert PaintCount(dot) == 1 by {
      assert dot[1..][1..][1..] == [];
      assert PaintCount(dot[1..][1..]) == 1;
    }
    RepeatKeepsMode(dot, n);
    KeepsModeAppend([SetFillStyle(fill)], Repeat(dot, n));
    PaintCountAppend([SetFillStyle(fill)], Repeat(dot, n));
    KeptMode(s, [SetFillStyle(fill)] + Repeat(dot, n));
  }

  /** The commands of `drawLine(x, y)` after the point is recorded, for the manager's brush. */
  function SegmentCommands(b: Brush, color: string, size: int, x: real, y: real): seq<Command> {
    [SetLineCap("round"), SetLineJoin("round")] + SegmentBody(b, color, size, x, y)
  }

  /** The `switch (this.brushType)` of `drawLine`. */
  function SegmentBody(b: Brush, color: string, size: int, x: real, y: real): seq<Command> {
    match b
    case Normal => LineSegment(Css(color), size as real, x, y)
    case Calligraphy => LineSegment(Css(color), size as real * 1.4, x, y)
    case Highlighter => LineSegment(Rgba(color, HighlighterAlpha), size as real * 3.0, x, y)
    case Spray => [SetComposite(SourceOver)] + SprayCommands(x, y, color, size)
    case Eraser =>
      [Save, SetComposite(DestinationOut), SetLineWidth(size as real * 3.0), LineTo(x, y), Stroke, Restore]
    case Other(_) => []
  }

  /** The common shape of the normal, calligraphy and highlighter cases. */
  function LineSegment(style: Style, width: real, x: real, y: real): seq<Command> {
    [SetComposite(SourceOver), SetStrokeStyle(style), SetLineWidth(width), LineTo(x, y), Stroke]
  }

  /** Running a non-empty command list: the first command, then the rest. */
  lemma Step(s: CtxState, cmds: seq<Command>)
    requires cmds != []
    ensures Run(s, cmds) == Run(Exec(s, cmds[0]), cmds[1..])
    ensures Paints(s, cmds) == PaintOf(s, cmds[0]) + Paints(Exec(s, cmds[0]), cmds[1..])
  {
  }

  lemma LineSegmentRun(s: CtxState, style: Style, width: real, x: real, y: real)
    ensures var w := if width > 0.0 then width else s.lineWidth;
      && Run(s, LineSegment(style, width, x, y)) == s.(mode := SourceOver, strokeStyle := style, lineWidth := w)
      && Paints(s, LineSegment(style, width, x, y)) == [Paint(StrokeOp, SourceOver, w, style)]
  {
    var c := LineSegment(style, width, x, y);
    var s1 := Exec(s, c[0]);
    var s2 := Exec(s1, c[1]);
    var s3 := Exec(s2, c[2]);
    assert c[4..][1..] == [];
    Step(s3, c[4..]);
    Step(s3, c[3..]);
    Step(s2, c[2..]);
    Step(s1, c[1..]);
    Step(s, c);
  }

  lemma EraserSegmentRun(s: CtxState, size: int, x: real, y: real)
    ensures var w := if size > 0 then WidthOf(Eraser, size) else s.lineWidth;
      && Run(s, SegmentBody(Eraser, "", size, x, y)) == s
      && Paints(s, SegmentBody(Eraser, "", size, x, y)) == [Paint(StrokeOp, DestinationOut, w, s.strokeStyle)]
  {
    var w := if size > 0 then WidthOf(Eraser, size) else s.lineWidth;
    var head := [Save, SetComposite(DestinationOut), SetLineWidth(size as real * 3.0)];
    var tail := [LineTo(x, y), Stroke, Restore];
    assert SegmentBody(Eraser, "", size, x, y) == head + tail;
    var saved := s.(stack := s.stack + [Saved(s.mode, s.strokeStyle, s.fillStyle, s.lineWidth)]);
    var t := Run(s, head);
    assert t == saved.(mode := DestinationOut, lineWidth := w) && Paints(s, head) == [] by {
      RunTriple(s, head[0], head[1], head[2]);
      assert head == [head[0], head[1], head[2]];
    }
    assert Run(t, tail) == s && Paints(t, tail) == [Paint(StrokeOp, DestinationOut, w, s.strokeStyle)] by {
      StrokeThenRestore(t, x, y);
      assert t.stack[..|t.stack| - 1] == s.stack;
    }
    RunAppend(s, head, tail);
  }

  /** `lineTo`, `stroke`, `restore`: one stroke in the current state, then the saved state back. */
  lemma StrokeThenRestore(t: CtxState, x: real, y: real)
    ensures Run(t, [LineTo(x, y), Stroke, Restore]) == Exec(t, Restore)
    ensures Paints(t, [LineTo(x, y), Stroke, Restore]) == [Paint(StrokeOp, t.mode, t.lineWidth, t.strokeStyle)]
  {
    var c := [LineTo(x, y), Stroke, Restore];
    var r := Exec(t, Restore);
    assert Run(t, [Restore]) == r && Paints(t, [Restore]) == [] by {
      assert [Restore][1..] == [];
      Step(t, [Restore]);
    }
    assert Run(t, [Stroke, Restore]) == r
        && Paints(t, [Stroke, Restore]) == [Paint(StrokeOp, t.mode, t.lineWidth, t.strokeStyle)] by {
      assert [Stroke, Restore][1..] == [Restore];
      Step(t, [Stroke, Restore]);
    }
    assert c[1..] == [Stroke, Restore];
    Step(t, c);
  }

  /** The cases of the switch, one by one. */
  lemma BodyShape(b: Brush, color: string, size: int, x: real, y: real)
    ensures b == Normal || b == Calligraphy || b == Highlighter ==>
      SegmentBody(b, color, size, x, y) == LineSegment(StrokeColorOf(b, color), LineArg(b, size), x, y)
    ensures b == Spray ==>
      SegmentBody(b, color, size, x, y) == [SetComposite(SourceOver)] + SprayCommands(x, y, color, size)
  {
  }

  /** The eraser case does not read the colour. */
  lemma EraserBodyColorFree(color: string, size: int, x: real, y: real)
    ensures SegmentBody(Eraser, color, size, x, y) == SegmentBody(Eraser, "", size, x, y)
  {
  }

  /**
   * A `drawLine` segment of a line brush is one stroke painted with the table's mode and width
   * (the same ones `applyStyle` gives the brush on replay) and, except for the eraser, the
   * table's colour. Afterwards the mode is source-over; the eraser's save/restore puts back the
   * whole state it found.
   */
  lemma SegmentPaint(s: CtxState, b: Brush, color: string, size: int, x: real, y: real)
    requires IsLineBrush(b)
    ensures Paints(s, SegmentCommands(b, color, size, x, y)) ==
      [Paint(StrokeOp, ModeOf(b), if size > 0 then WidthOf(b, size) else s.lineWidth,
             if b == Eraser then s.strokeStyle else StrokeColorOf(b, color))]
    ensures Run(s, SegmentCommands(b, color, size, x, y)) ==
      if b == Eraser then s
      else s.(mode := SourceOver, strokeStyle := StrokeColorOf(b, color),
              lineWidth := if size > 0 then WidthOf(b, size) else s.lineWidth)
  {
    SegmentHead(s, b, color, size, x, y);
    BodyPaint(s, b, color, size, x, y);
  }

  lemma BodyPaint(s: CtxState, b: Brush, color: string, size: int, x: real, y: real)
    requires IsLineBrush(b)
    ensures Paints(s, SegmentBody(b, color, size, x, y)) ==
      [Paint(StrokeOp, ModeOf(b), if size > 0 then WidthOf(b, size) else s.lineWidth,
             if b == Eraser then s.strokeStyle else StrokeColorOf(b, color))]
    ensures Run(s, SegmentBody(b, color, size, x, y)) ==
      if b == Eraser then s
      else s.(mode := SourceOver, strokeStyle := StrokeColorOf(b, color),
              lineWidth := if size > 0 then WidthOf(b, size) else s.lineWidth)
  {
    if b == Eraser {
      EraserBodyColorFree(color, size, x, y);
      EraserSegmentRun(s, size, x, y);
    } else {
      LineBodyPaint(s, b, color, size, x, y);
    }
  }

  lemma LineBodyPaint(s: CtxState, b: Brush, color: string, size: int, x: real, y: real)
    requires b == Normal || b == Calligraphy || b == Highlighter
    ensures var w := if size > 0 then WidthOf(b, size) else s.lineWidth;
      && Paints(s, SegmentBody(b, color, size, x, y)) ==
         [Paint(StrokeOp, SourceOver, w, StrokeColorOf(b, color))]
      && Run(s, SegmentBody(b, color, size, x, y)) ==
         s.(mode := SourceOver, strokeStyle := StrokeColorOf(b, color), lineWidth := w)
  {
    BodyShape(b, color, size, x, y);
    LineSegmentRun(s, StrokeColorOf(b, color), LineArg(b, size), x, y);
  }

  /** The width the three line cases of the switch write, as the source writes it. */
  function LineArg(b: Brush, size: int): real {
    if b == Normal then size as real
    else if b == Calligraphy then size as real * 1.4
    else size as real * 3.0
  }

  /** The `lineCap`/`lineJoin` settings in front of the switch change nothing this model tracks. */
  lemma SegmentHead(s: CtxState, b: Brush, color: string, size: int, x: real, y: real)
    ensures Run(s, SegmentCommands(b, color, size, x, y)) == Run(s, SegmentBody(b, color, size, x, y))
    ensures Paints(s, SegmentCommands(b, color, size, x, y)) == Paints(s, SegmentBody(b, color, size, x, y))
  {
    var head := [SetLineCap("round"), SetLineJoin("round")];
    var body := SegmentBody(b, color, size, x, y);
    RunAppend(s, head, body);
    Step(s, head);
    Step(s, head[1..]);
  }

  /** A spray segment paints `DotCount(size)` fills under source-over and ends in source-over. */
  lemma SpraySegmentPaints(s: CtxState, color: string, size: int, x: real, y: real)
    ensures Modes(Paints(s, SegmentCommands(Spray, color, size, x, y))) == Copies(SourceOver, DotCount(size))
    ensures Run(s, SegmentCommands(Spray, color, size, x, y)).mode == SourceOver
  {
    SegmentHead(s, Spray, color, size, x, y);
    SprayBodyPaints(s, color, size, x, y);
  }

  lemma SprayBodyPaints(s: CtxState, color: string, size: int, x: real, y: real)
    ensures Modes(Paints(s, SegmentBody(Spray, color, size, x, y))) == Copies(SourceOver, DotCount(size))
    ensures Run(s, SegmentBody(Spray, color, size, x, y)).mode == SourceOver
  {
    var head := [SetComposite(SourceOver)];
    var spray := SprayCommands(x, y, color, size);
    BodyShape(Spray, color, size, x, y);
    RunAppend(s, head, spray);
    Step(s, head);
    SprayPaints(s.(mode := SourceOver), x, y, color, size);
  }

  /** For a brush name the page does not offer, `drawLine` paints nothing and changes no state. */
  lemma UnknownBrushSegment(s: CtxState, name: string, color: string, size: int, x: real, y: real)
    ensures Paints(s, SegmentCommands(Other(name), color, size, x, y)) == []
    ensures Run(s, SegmentCommands(Other(name), color, size, x, y)) == s
  {
    var head := [SetLineCap("round"), SetLineJoin("round")];
    assert SegmentCommands(Other(name), color, size, x, y) == head;
    Step(s, head);
    Step(s, head[1..]);
  }
}
