/**
 * Points, brush names and recorded paths: the objects that `CanvasManager` keeps in
 * `currentPath`, `paths` and `redoStack` (canvas.js).
 */
module Strokes {

  /** A point in canvas coordinates (floating-point rounding is not modelled). */
  datatype Point = Point(x: real, y: real)

  /**
   * The value of a `brushType` string. The page offers the five named brushes; any other
   * string is kept verbatim in `Other`.
   */
  datatype Brush = Normal | Calligraphy | Highlighter | Spray | Eraser | Other(name: string)

  /** The brush names that have their own constructor. */
  predicate IsBrushName(s: string) {
    s == "normal" || s == "calligraphy" || s == "highlighter" || s == "spray" || s == "eraser"
  }

  /** A brush value in its only form: `Other` never holds one of the five names. */
  predicate Canonical(b: Brush) {
    b.Other? ==> !IsBrushName(b.name)
  }

  /** The string the source stores and sends for a brush. */
  function BrushName(b: Brush): string {
    match b
    case Normal => "normal"
    case Calligraphy => "calligraphy"
    case Highlighter => "highlighter"
    case Spray => "spray"
    case Eraser => "eraser"
    case Other(name) => name
  }

  /** Reads a `brushType` string; no information is lost. */
  function ParseBrush(s: string): (b: Brush)
    ensures BrushName(b) == s
    ensures Canonical(b)
  {
    if s == "normal" then Normal
    else if s == "calligraphy" then Calligraphy
    else if s == "highlighter" then Highlighter
    else if s == "spray" then Spray
    else if s == "eraser" then Eraser
    else Other(s)
  }

  /** Reading back a brush's name gives the brush exactly when the brush is canonical. */
  lemma ParseBrushName(b: Brush)
    ensures ParseBrush(BrushName(b)) == b <==> Canonical(b)
  {
  }

  /** One stroke: its points in order and the style fixed when it began. */
  datatype Path = Path(points: seq<Point>, color: string, size: int, brushType: Brush)

  /** Every path in `ps` has at least one point (`redrawAll` reads `points[0]` of each). */
  predicate AllRecorded(ps: seq<Path>) {
    forall k :: 0 <= k < |ps| ==> |ps[k].points| > 0
  }

  lemma AllRecordedPrefix(ps: seq<Path>, n: nat)
    requires AllRecorded(ps) && n <= |ps|
    ensures AllRecorded(ps[..n])
  {
    forall k | 0 <= k < n ensures |ps[..n][k].points| > 0 {
      assert ps[..n][k] == ps[k];
    }
  }

  /**
   * Every path in `ps` carries a brush in canonical form, so the replay's brush tests agree
   * with the string comparisons of `redrawAll` and `applyStyle`.
   */
  predicate AllCanonical(ps: seq<Path>) {
    forall k :: 0 <= k < |ps| ==> Canonical(ps[k].brushType)
  }

  lemma AllCanonicalPrefix(ps: seq<Path>, n: nat)
    requires AllCanonical(ps) && n <= |ps|
    ensures AllCanonical(ps[..n])
  {
    forall k | 0 <= k < n ensures Canonical(ps[..n][k].brushType) {
      assert ps[..n][k] == ps[k];
    }
  }
}
