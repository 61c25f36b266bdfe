/**
 * An abstract Canvas 2-D context. The canvas code is modelled by the list of commands it issues;
 * this module gives those commands a meaning: the drawing state they change (composite mode,
 * stroke and fill style, line width, the save/restore stack) and the paint operations
 * (`stroke`, `fill`, `fillRect`) they perform together with the state each one is painted under.
 * Geometry and pixels are not modelled.
 */
module Context2D {

  /** `globalCompositeOperation`: the two values the canvas code uses. */
  datatype Composite = SourceOver | DestinationOut

  /**
   * A value assigned to `strokeStyle` or `fillStyle`: a colour string used as given, or the
   * string `_alpha(hex, val)` returns, kept unevaluated here (`Brushes.StyleText` evaluates it).
   */
  datatype Style = Css(text: string) | Rgba(hex: string, val: string)

  datatype Command =
    | SetComposite(mode: Composite)
    | SetStrokeStyle(style: Style)
    | SetFillStyle(style: Style)
    | SetLineWidth(width: real)
    | SetLineCap(cap: string)     // affects only the shape of painted pixels
    | SetLineJoin(join: string)   // affects only the shape of painted pixels
    | BeginPath
    | MoveTo(x: real, y: real)
    | LineTo(x: real, y: real)
    /** `arc` of a full circle of radius `radius` centred at a random point within `spread` of (x, y). */
    | RandomDot(x: real, y: real, spread: real, radius: real)
    | Stroke
    | Fill
    /** `fillRect` over the whole canvas. */
    | FillRect
    | Save
    | Restore
    /** Setting the canvas's `width` or `height`: the whole drawing state back to `Initial`. */
    | Reset

  /** The part of the drawing state that `save` pushes and `restore` pops. */
  datatype Saved = Saved(mode: Composite, strokeStyle: Style, fillStyle: Style, lineWidth: real)

  datatype CtxState = CtxState(mode: Composite, strokeStyle: Style, fillStyle: Style,
                               lineWidth: real, stack: seq<Saved>)

  /** The state of a fresh context. */
  const Initial := CtxState(SourceOver, Css("#000000"), Css("#000000"), 1.0, [])

  datatype PaintOp = StrokeOp | FillOp

  /** One paint operation and the state it was painted under. */
  datatype Paint = Paint(op: PaintOp, mode: Composite, width: real, style: Style)

  /** The effect of one command on the drawing state. */
  function Exec(s: CtxState, c: Command): CtxState {
    match c
    case SetComposite(m) => s.(mode := m)
    case SetStrokeStyle(st) => s.(strokeStyle := st)
    case SetFillStyle(st) => s.(fillStyle := st)
    // The context ignores zero and negative widths.
    case SetLineWidth(w) => if w > 0.0 then s.(lineWidth := w) else s
    case Save => s.(stack := s.stack + [Saved(s.mode, s.strokeStyle, s.fillStyle, s.lineWidth)])
    // `restore` with nothing saved does nothing.
    case Restore =>
      if |s.stack| == 0 then s
      else
        var t := s.stack[|s.stack| - 1];
        CtxState(t.mode, t.strokeStyle, t.fillStyle, t.lineWidth, s.stack[..|s.stack| - 1])
    case Reset => Initial
    case _ => s
  }

  /** The paint operation one command performs in state `s`, if any. */
  function PaintOf(s: CtxState, c: Command): seq<Paint> {
    match c
    case Stroke => [Paint(StrokeOp, s.mode, s.lineWidth, s.strokeStyle)]
    case Fill => [Paint(FillOp, s.mode, s.lineWidth, s.fillStyle)]
    case FillRect => [Paint(FillOp, s.mode, s.lineWidth, s.fillStyle)]
    case _ => []
  }

  /** The state after running `cmds` from `s`. */
  function Run(s: CtxState, cmds: seq<Command>): CtxState
    decreases |cmds|
  {
    if cmds == [] then s else Run(Exec(s, cmds[0]), cmds[1..])
  }

  /** The paint operations performed while running `cmds` from `s`, in order. */
  function Paints(s: CtxState, cmds: seq<Command>): seq<Paint>
    decreases |cmds|
  {
    if cmds == [] then [] else PaintOf(s, cmds[0]) + Paints(Exec(s, cmds[0]), cmds[1..])
  }

  /** The composite mode of each paint operation. */
  function Modes(ps: seq<Paint>): (r: seq<Composite>)
    ensures |r| == |ps|
    ensures forall i :: 0 <= i < |ps| ==> r[i] == ps[i].mode
  {
    seq(|ps|, i requires 0 <= i < |ps| => ps[i].mode)
  }

  function Copies<T>(x: T, n: nat): (r: seq<T>)
    ensures |r| == n
    ensures forall i :: 0 <= i < n ==> r[i] == x
  {
    seq(n, i => x)
  }

  /** `cmds` repeated `n` times. */
  function Repeat(cmds: seq<Command>, n: nat): seq<Command> {
    if n == 0 then [] else Repeat(cmds, n - 1) + cmds
  }

  /** Running a concatenation is running its parts one after the other. */
  lemma RunAppend(s: CtxState, a: seq<Command>, b: seq<Command>)
    ensures Run(s, a + b) == Run(Run(s, a), b)
    ensures Paints(s, a + b) == Paints(s, a) + Paints(Run(s, a), b)
  {
    RunOfAppend(s, a, b);
    PaintsOfAppend(s, a, b);
  }

  lemma {:induction false} RunOfAppend(s: CtxState, a: seq<Command>, b: seq<Command>)
    ensures Run(s, a + b) == Run(Run(s, a), b)
    decreases |a|
  {
    if a != [] {
      assert (a + b)[0] == a[0];
      assert (a + b)[1..] == a[1..] + b;
      RunOfAppend(Exec(s, a[0]), a[1..], b);
    } else {
      assert a + b == b;
    }
  }

  lemma {:induction false} PaintsOfAppend(s: CtxState, a: seq<Command>, b: seq<Command>)
    ensures Paints(s, a + b) == Paints(s, a) + Paints(Run(s, a), b)
    decreases |a|
  {
    if a != [] {
      assert (a + b)[0] == a[0];
      assert (a + b)[1..] == a[1..] + b;
      PaintsOfAppend(Exec(s, a[0]), a[1..], b);
    } else {
      assert a + b == b;
    }
  }

  /** No command in `cmds` can change the composite mode. */
  predicate KeepsMode(cmds: seq<Command>) {
    forall i :: 0 <= i < |cmds| ==> !cmds[i].SetComposite? && !cmds[i].Restore? && !cmds[i].Reset?
  }

  /** The number of paint commands in `cmds`. */
  function PaintCount(cmds: seq<Command>): nat {
    if cmds == [] then 0
    else (if cmds[0].Stroke? || cmds[0].Fill? || cmds[0].FillRect? then 1 else 0)
         + PaintCount(cmds[1..])
  }

  lemma {:induction false} ModesAppend(a: seq<Paint>, b: seq<Paint>)
    ensures Modes(a + b) == Modes(a) + Modes(b)
  {
    assert forall i :: 0 <= i < |a + b| ==> Modes(a + b)[i] == (Modes(a) + Modes(b))[i];
  }

  lemma CopiesAppend<T>(x: T, m: nat, n: nat)
    ensures Copies(x, m) + Copies(x, n) == Copies(x, m + n)
  {
    assert forall i :: 0 <= i < m + n ==> (Copies(x, m) + Copies(x, n))[i] == x;
  }

  /**
   * Commands that cannot change the composite mode leave it as it was and paint every one of
   * their paint operations under it.
   */
  lemma {:induction false} KeptMode(s: CtxState, cmds: seq<Command>)
    requires KeepsMode(cmds)
    ensures Run(s, cmds).mode == s.mode
    ensures Modes(Paints(s, cmds)) == Copies(s.mode, PaintCount(cmds))
    decreases |cmds|
  {
    if cmds != [] {
      var t := Exec(s, cmds[0]);
      assert t.mode == s.mode;
      assert KeepsMode(cmds[1..]) by {
        forall i | 0 <= i < |cmds[1..]|
          ensures !cmds[1..][i].SetComposite? && !cmds[1..][i].Restore? && !cmds[1..][i].Reset?
        {
          assert cmds[1..][i] == cmds[i + 1];
        }
      }
      KeptMode(t, cmds[1..]);
      ModesAppend(PaintOf(s, cmds[0]), Paints(t, cmds[1..]));
      var k := if cmds[0].Stroke? || cmds[0].Fill? || cmds[0].FillRect? then 1 else 0;
      assert Modes(PaintOf(s, cmds[0])) == Copies(s.mode, k);
      CopiesAppend(s.mode, k, PaintCount(cmds[1..]));
    }
  }

  lemma KeepsModeAppend(a: seq<Command>, b: seq<Command>)
    requires KeepsMode(a) && KeepsMode(b)
    ensures KeepsMode(a + b)
  {
    forall i | 0 <= i < |a + b| ensures !(a + b)[i].SetComposite? && !(a + b)[i].Restore? && !(a + b)[i].Reset? {
      if i >= |a| {
        assert (a + b)[i] == b[i - |a|];
      }
    }
  }

  lemma {:induction false} PaintCountAppend(a: seq<Command>, b: seq<Command>)
    ensures PaintCount(a + b) == PaintCount(a) + PaintCount(b)
    decreases |a|
  {
    if a != [] {
      assert (a + b)[0] == a[0];
      assert (a + b)[1..] == a[1..] + b;
      PaintCountAppend(a[1..], b);
    } else {
      assert a + b == b;
    }
  }

  /** A repetition of mode-keeping commands keeps the mode and paints `n` times as often. */
  lemma {:induction false} RepeatKeepsMode(cmds: seq<Command>, n: nat)
    requires KeepsMode(cmds)
    ensures KeepsMode(Repeat(cmds, n))
    ensures PaintCount(Repeat(cmds, n)) == n * PaintCount(cmds)
  {
    if n > 0 {
      RepeatKeepsMode(cmds, n - 1);
      KeepsModeAppend(Repeat(cmds, n - 1), cmds);
      PaintCountAppend(Repeat(cmds, n - 1), cmds);
    }
  }
}
