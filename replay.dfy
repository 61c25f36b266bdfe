/**
 * `redrawAll` (canvas.js:129-152): clear the canvas to white, then replay every completed path
 * in order: move to its first point, apply its style, draw (or spray) at each of its points, and
 * put the compositing mode back to source-over.
 */
module Replay {
  import opened Strokes
  import opened Context2D
  import opened Brushes

  const Background := Css("#ffffff")

  /** The white background: source-over, fill style white, `fillRect` over the canvas. */
  function ClearCommands(): seq<Command> {
    [SetComposite(SourceOver), SetFillStyle(Background), FillRect]
  }

  /** What replay does at one point of `p`: spray there, or extend the line and stroke it. */
  function PointCommands(p: Path, pt: Point): seq<Command> {
    if p.brushType == Spray then SprayCommands(pt.x, pt.y, p.color, p.size)
    else [LineTo(pt.x, pt.y), Stroke]
  }

  function PointsCommands(p: Path, pts: seq<Point>): seq<Command> {
    if pts == [] then [] else PointsCommands(p, pts[..|pts| - 1]) + PointCommands(p, pts[|pts| - 1])
  }

  /** One more point of the replay loop. */
  lemma PointsStep(p: Path, j: nat)
    requires j < |p.points|
    ensures PointsCommands(p, p.points[..j + 1]) ==
      PointsCommands(p, p.points[..j]) + PointCommands(p, p.points[j])
  {
    assert p.points[..j + 1][..j] == p.points[..j];
  }

  /** The replay of one path. */
  function PathCommands(p: Path): seq<Command>
    requires |p.points| > 0
  {
    [BeginPath, MoveTo(p.points[0].x, p.points[0].y)] + StyleCommands(p)
    + PointsCommands(p, p.points) + [SetComposite(SourceOver)]
  }

  function BodyCommands(ps: seq<Path>): seq<Command>
    requires AllRecorded(ps)
  {
    if ps == [] then []
    else
      AllRecordedPrefix(ps, |ps| - 1);
      BodyCommands(ps[..|ps| - 1]) + PathCommands(ps[|ps| - 1])
  }

  /** One more path of the replay loop. */
  lemma BodyStep(ps: seq<Path>, k: nat)
    requires AllRecorded(ps) && k < |ps|
    ensures AllRecorded(ps[..k]) && AllRecorded(ps[..k + 1])
    ensures BodyCommands(ps[..k + 1]) == BodyCommands(ps[..k]) + PathCommands(ps[k])
  {
    AllRecordedPrefix(ps, k);
    AllRecordedPrefix(ps, k + 1);
    assert ps[..k + 1][..k] == ps[..k];
  }

  /** Everything `redrawAll` issues for the completed paths `ps`. */
  function RedrawCommands(ps: seq<Path>): seq<Command>
    requires AllRecorded(ps)
  {
    ClearCommands() + BodyCommands(ps)
  }

  /**
   * Everything `resizeCanvas` issues: setting the canvas size resets the context, then the
   * white background, then `redrawAll`.
   */
  function ResizeCommands(ps: seq<Path>): seq<Command>
    requires AllRecorded(ps)
  {
    [Reset] + ClearCommands() + RedrawCommands(ps)
  }

  /** Paint operations per point: a spray point paints `DotCount` dots, any other one stroke. */
  function PerPoint(p: Path): nat {
    if p.brushType == Spray then DotCount(p.size) else 1
  }

  /**
   * The reference: each path's paint operations all use that path's own brush mode, and there
   * are `PerPoint` of them per point.
   */
  function ExpectedModes(ps: seq<Path>): seq<Composite> {
    if ps == [] then []
    else
      var p := ps[|ps| - 1];
      ExpectedModes(ps[..|ps| - 1]) + Copies(ModeOf(p.brushType), |p.points| * PerPoint(p))
  }

  lemma PointKeepsMode(p: Path, pt: Point)
    ensures KeepsMode(PointCommands(p, pt))
    ensures PaintCount(PointCommands(p, pt)) == PerPoint(p)
  {
    if p.brushType == Spray {
      SprayPaints(Initial, pt.x, pt.y, p.color, p.size);
    } else {
      var c := [LineTo(pt.x, pt.y), Stroke];
      assert c[1..] == [Stroke];
      assert [Stroke][1..] == [];
    }
  }

  lemma MulSucc(n: nat, k: nat)
    ensures n * k + k == (n + 1) * k
  {
  }

  lemma {:induction false} PointsKeepMode(p: Path, pts: seq<Point>)
    ensures KeepsMode(PointsCommands(p, pts))
    ensures PaintCount(PointsCommands(p, pts)) == |pts| * PerPoint(p)
  {
    if pts != [] {
      var init := pts[..|pts| - 1];
      PointsKeepMode(p, init);
      PointKeepsMode(p, pts[|pts| - 1]);
      KeepsModeAppend(PointsCommands(p, init), PointCommands(p, pts[|pts| - 1]));
      PaintCountAppend(PointsCommands(p, init), PointCommands(p, pts[|pts| - 1]));
      MulSucc(|init|, PerPoint(p));
    }
  }

  /**
   * Replaying one path from a source-over context paints every operation with the path's own
   * brush mode, `PerPoint` operations per point, and leaves the context in source-over.
   */
  lemma PathModes(s: CtxState, p: Path)
    requires |p.points| > 0
    requires s.mode == SourceOver
    ensures Run(s, PathCommands(p)).mode == SourceOver
    ensures Modes(Paints(s, PathCommands(p))) == Copies(ModeOf(p.brushType), |p.points| * PerPoint(p))
  {
    var a := [BeginPath, MoveTo(p.points[0].x, p.points[0].y)];
    var b := StyleCommands(p);
    var c := PointsCommands(p, p.points);
    var d := [SetComposite(SourceOver)];
    assert PathCommands(p) == a + b + c + d;
    RunPair(s, a[0], a[1]);
    assert a == [a[0], a[1]];
    RunAppend(s, a, b);
    ApplyStyleEffect(s, p);
    var t := Run(s, a + b);
    assert t.mode == ModeOf(p.brushType);
    assert Paints(s, a + b) == [];
    RunAppend(s, a + b, c);
    PointsKeepMode(p, p.points);
    KeptMode(t, c);
    var u := Run(s, a + b + c);
    RunAppend(s, a + b + c, d);
    Step(u, d);
    assert Paints(u, d) == [];
    assert Paints(s, a + b + c + d) == Paints(t, c);
  }

  /**
   * From a source-over context, replaying `ps` paints each path's operations with that path's
   * own brush mode and ends in source-over.
   */
  lemma {:induction false} BodyModes(s: CtxState, ps: seq<Path>)
    requires AllRecorded(ps)
    requires s.mode == SourceOver
    ensures Run(s, BodyCommands(ps)).mode == SourceOver
    ensures Modes(Paints(s, BodyCommands(ps))) == ExpectedModes(ps)
  {
    if ps != [] {
      var init := ps[..|ps| - 1];
      var p := ps[|ps| - 1];
      AllRecordedPrefix(ps, |ps| - 1);
      BodyModes(s, init);
      RunAppend(s, BodyCommands(init), PathCommands(p));
      PathModes(Run(s, BodyCommands(init)), p);
      ModesAppend(Paints(s, BodyCommands(init)), Paints(Run(s, BodyCommands(init)), PathCommands(p)));
    } else {
      assert Paints(s, []) == [];
    }
  }

  /**
   * Whatever state the context is in, `redrawAll` first paints the white background in
   * source-over; then every path is painted with its own brush mode, so an eraser's
   * destination-out never carries into a later path; and the context ends in source-over.
   */
  lemma RedrawModes(s: CtxState, ps: seq<Path>)
    requires AllRecorded(ps)
    ensures Run(s, RedrawCommands(ps)).mode == SourceOver
    ensures Modes(Paints(s, RedrawCommands(ps))) == [SourceOver] + ExpectedModes(ps)
  {
    var clear := ClearCommands();
    var t := Run(s, clear);
    assert Run(s, RedrawCommands(ps)) == Run(t, BodyCommands(ps))
        && Paints(s, RedrawCommands(ps)) == Paints(s, clear) + Paints(t, BodyCommands(ps)) by {
      RunAppend(s, clear, BodyCommands(ps));
    }
    assert t.mode == SourceOver && Modes(Paints(s, clear)) == [SourceOver] by {
      ClearRun(s);
    }
    BodyModes(t, ps);
    ModesAppend(Paints(s, clear), Paints(t, BodyCommands(ps)));
  }

  /** The background fill is one source-over paint in white, and leaves source-over set. */
  lemma ClearRun(s: CtxState)
    ensures Run(s, ClearCommands()).mode == SourceOver
    ensures Paints(s, ClearCommands()) == [Paint(FillOp, SourceOver, s.lineWidth, Background)]
  {
    var clear := ClearCommands();
    var s1 := Exec(s, clear[0]);
    var s2 := Exec(s1, clear[1]);
    assert clear[2..][1..] == [];
    Step(s2, clear[2..]);
    Step(s1, clear[1..]);
    Step(s, clear);
  }

  /** Some replayed operation erases exactly when some completed path is an eraser stroke. */
  lemma {:induction false} ErasesIffEraser(ps: seq<Path>)
    requires AllRecorded(ps)
    ensures DestinationOut in ExpectedModes(ps) <==> exists k :: 0 <= k < |ps| && ps[k].brushType == Eraser
  {
    if ps != [] {
      var init := ps[..|ps| - 1];
      var p := ps[|ps| - 1];
      AllRecordedPrefix(ps, |ps| - 1);
      ErasesIffEraser(init);
      var tail := Copies(ModeOf(p.brushType), |p.points| * PerPoint(p));
      assert |p.points| * PerPoint(p) > 0;
      assert tail[0] == ModeOf(p.brushType);
      assert DestinationOut in tail <==> p.brushType == Eraser;
      assert ExpectedModes(ps) == ExpectedModes(init) + tail;
      if exists k :: 0 <= k < |ps| && ps[k].brushType == Eraser {
        var k :| 0 <= k < |ps| && ps[k].brushType == Eraser;
        if k < |init| {
          assert init[k].brushType == Eraser;
        }
      }
      if exists k :: 0 <= k < |init| && init[k].brushType == Eraser {
        var k :| 0 <= k < |init| && init[k].brushType == Eraser;
        assert ps[k].brushType == Eraser;
      }
    }
  }

  /**
   * Whatever state the context was in, `resizeCanvas` paints the same: two white source-over
   * background fills, then each completed path in its own brush mode; it ends in the state a
   * replay from a fresh context ends in.
   */
  lemma ResizeForgetsState(s: CtxState, ps: seq<Path>)
    requires AllRecorded(ps)
    ensures Run(s, ResizeCommands(ps)) == Run(Initial, ClearCommands() + RedrawCommands(ps))
    ensures Paints(s, ResizeCommands(ps)) == Paints(Initial, ClearCommands() + RedrawCommands(ps))
    ensures Modes(Paints(s, ResizeCommands(ps))) == [SourceOver, SourceOver] + ExpectedModes(ps)
  {
    var rest := ClearCommands() + RedrawCommands(ps);
    assert ResizeCommands(ps) == [Reset] + rest;
    ResetFirst(s, rest);
    FreshRedrawModes(ps);
  }

  /** Commands that start with a reset act as from a fresh context. */
  lemma ResetFirst(s: CtxState, rest: seq<Command>)
    ensures Run(s, [Reset] + rest) == Run(Initial, rest)
    ensures Paints(s, [Reset] + rest) == Paints(Initial, rest)
  {
    assert ([Reset] + rest)[1..] == rest;
    Step(s, [Reset] + rest);
  }

  /** From a fresh context, the background fill and then `redrawAll`. */
  lemma FreshRedrawModes(ps: seq<Path>)
    requires AllRecorded(ps)
    ensures Modes(Paints(Initial, ClearCommands() + RedrawCommands(ps))) == [SourceOver, SourceOver] + ExpectedModes(ps)
  {
    RunAppend(Initial, ClearCommands(), RedrawCommands(ps));
    ClearRun(Initial);
    var t := Run(Initial, ClearCommands());
    RedrawModes(t, ps);
    ModesAppend(Paints(Initial, ClearCommands()), Paints(t, RedrawCommands(ps)));
  }
}
