/**
 * The stroke history of canvas.js: the completed strokes `paths` and the LIFO `redoStack`,
 * with the three operations that change them (finishing a stroke, undo and redo).
 */
module StrokeHistory {
  import opened Seqs
  import opened Strokes

  datatype History = History(paths: seq<Path>, redoStack: seq<Path>)

  function Reverse<T>(s: seq<T>): (r: seq<T>)
    ensures |r| == |s|
  {
    if s == [] then [] else [s[|s| - 1]] + Reverse(s[..|s| - 1])
  }

  /**
   * Every stroke drawn and not discarded, oldest first: the completed strokes followed by the
   * undone ones, the most recently undone first. Undo and redo only move the boundary between
   * `paths` and `redoStack` along this sequence.
   */
  function Timeline(h: History): seq<Path> {
    h.paths + Reverse(h.redoStack)
  }

  /** `undo`: the last completed stroke moves to the top of the redo stack (canvas.js:117-121). */
  function Undone(h: History): (r: History)
    ensures Timeline(r) == Timeline(h)
    ensures |r.paths| == if |h.paths| == 0 then 0 else |h.paths| - 1
    ensures |h.paths| == 0 ==> r == h
  {
    if |h.paths| == 0 then h
    else
      var n := |h.paths|;
      assert h.paths[..n - 1] + [h.paths[n - 1]] == h.paths;
      History(h.paths[..n - 1], h.redoStack + [h.paths[n - 1]])
  }

  /** `redo`: the top of the redo stack moves back onto the completed strokes (canvas.js:123-127). */
  function Redone(h: History): (r: History)
    ensures Timeline(r) == Timeline(h)
    ensures |r.paths| == if |h.redoStack| == 0 then |h.paths| else |h.paths| + 1
    ensures |h.redoStack| == 0 ==> r == h
  {
    if |h.redoStack| == 0 then h
    else
      var n := |h.redoStack|;
      assert h.redoStack[..n - 1] + [h.redoStack[n - 1]] == h.redoStack;
      History(h.paths + [h.redoStack[n - 1]], h.redoStack[..n - 1])
  }

  /**
   * The history part of `stopDrawing` (canvas.js:95-101): the stroke is recorded when it has a
   * point, and the redo stack is emptied in every case.
   */
  function Finalized(h: History, p: Path): (r: History)
    ensures r.redoStack == []
    ensures Timeline(r) == if |p.points| > 0 then h.paths + [p] else h.paths
  {
    History(if |p.points| > 0 then h.paths + [p] else h.paths, [])
  }

  /** Undo followed by redo restores both stacks exactly. */
  lemma {:induction false} RedoAfterUndo(h: History)
    ensures |h.paths| > 0 ==> Redone(Undone(h)) == h
  {
    if |h.paths| > 0 {
      var n := |h.paths|;
      assert h.paths[..n - 1] + [h.paths[n - 1]] == h.paths;
      assert (h.redoStack + [h.paths[n - 1]])[..|h.redoStack|] == h.redoStack;
    }
  }

  /** Redo followed by undo restores both stacks exactly. */
  lemma {:induction false} UndoAfterRedo(h: History)
    ensures |h.redoStack| > 0 ==> Undone(Redone(h)) == h
  {
    if |h.redoStack| > 0 {
      var n := |h.redoStack|;
      assert h.redoStack[..n - 1] + [h.redoStack[n - 1]] == h.redoStack;
      assert (h.paths + [h.redoStack[n - 1]])[..|h.paths|] == h.paths;
    }
  }

  /** Undo and redo neither create nor lose strokes: the stroke count and the strokes are kept. */
  lemma {:induction false} UndoRedoConserve(h: History)
    ensures |Undone(h).paths| + |Undone(h).redoStack| == |h.paths| + |h.redoStack|
    ensures |Redone(h).paths| + |Redone(h).redoStack| == |h.paths| + |h.redoStack|
    ensures multiset(Undone(h).paths) + multiset(Undone(h).redoStack)
         == multiset(h.paths) + multiset(h.redoStack)
    ensures multiset(Redone(h).paths) + multiset(Redone(h).redoStack)
         == multiset(h.paths) + multiset(h.redoStack)
  {
    assert multiset(Undone(h).paths) + multiset(Undone(h).redoStack)
        == multiset(h.paths) + multiset(h.redoStack) by {
      if |h.paths| > 0 {
        MoveLast(h.paths, h.redoStack);
      }
    }
    assert multiset(Redone(h).paths) + multiset(Redone(h).redoStack)
        == multiset(h.paths) + multiset(h.redoStack) by {
      if |h.redoStack| > 0 {
        MoveLast(h.redoStack, h.paths);
      }
    }
  }

  /** Moving the last element of `a` onto the end of `b` keeps the elements of the two. */
  lemma MoveLast(a: seq<Path>, b: seq<Path>)
    requires |a| > 0
    ensures multiset(a[..|a| - 1]) + multiset(b + [a[|a| - 1]]) == multiset(a) + multiset(b)
    ensures multiset(b + [a[|a| - 1]]) + multiset(a[..|a| - 1]) == multiset(b) + multiset(a)
  {
    assert a[..|a| - 1] + [a[|a| - 1]] == a;
  }

  /** Once a stroke is finished, redo has nothing to restore. */
  lemma RedoAfterFinalize(h: History, p: Path)
    ensures Redone(Finalized(h, p)) == Finalized(h, p)
  {
  }

  /** `n` undos in a row (stopping to change anything once `paths` is empty). */
  function UndoTimes(h: History, n: nat): History {
    if n == 0 then h else Undone(UndoTimes(h, n - 1))
  }

  /** `n` redos in a row. */
  function RedoTimes(h: History, n: nat): History {
    if n == 0 then h else Redone(RedoTimes(h, n - 1))
  }

  /** After `n` undos, each undone stroke is on the redo stack, the most recent on top. */
  lemma {:induction false} UndoTimesShape(h: History, n: nat)
    requires n <= |h.paths|
    ensures UndoTimes(h, n).paths == h.paths[..|h.paths| - n]
    ensures UndoTimes(h, n).redoStack == h.redoStack + Reverse(h.paths[|h.paths| - n..])
  {
    if n > 0 {
      UndoTimesShape(h, n - 1);
      var m := |h.paths|;
      var g := UndoTimes(h, n - 1);
      var tail := h.paths[m - n..];
      assert g.paths == h.paths[..m - n + 1];
      assert g.paths[..m - n] == h.paths[..m - n];
      assert g.paths[m - n] == tail[0];
      assert tail[1..] == h.paths[m - n + 1..];
      ReverseCons(tail);
      assert UndoTimes(h, n) == History(g.paths[..m - n], g.redoStack + [tail[0]]);
      AppendAssoc(h.redoStack, Reverse(tail[1..]), [tail[0]]);
    }
  }

  /** `Reverse` peels from the back; this is the same sequence peeled from the front. */
  lemma {:induction false} ReverseCons<T>(s: seq<T>)
    requires |s| > 0
    ensures Reverse(s) == Reverse(s[1..]) + [s[0]]
  {
    var n := |s|;
    if n > 1 {
      var front := s[..n - 1];
      ReverseCons(front);
      assert front[1..] == s[1..][..n - 2];
      assert s[1..][n - 2] == s[n - 1];
      assert Reverse(s) == [s[n - 1]] + (Reverse(front[1..]) + [s[0]]);
    }
  }

  /** Undoing `n` strokes and redoing `n` restores the history exactly, for any `n` up to `|paths|`. */
  lemma {:induction false} UndoRedoTimes(h: History, n: nat)
    requires n <= |h.paths|
    ensures RedoTimes(UndoTimes(h, n), n) == h
  {
    if n > 0 {
      var g := UndoTimes(h, n - 1);
      UndoTimesShape(h, n - 1);
      RedoAfterUndo(g);
      RedoAfterUndoTimes(g, n - 1);
      UndoRedoTimes(h, n - 1);
    }
  }

  /** Redoing `k` strokes past one undo and then the undone one: the composition law used above. */
  lemma {:induction false} RedoAfterUndoTimes(g: History, k: nat)
    requires |g.paths| > 0
    ensures RedoTimes(Undone(g), k + 1) == RedoTimes(g, k)
  {
    if k == 0 {
      RedoAfterUndo(g);
    } else {
      RedoAfterUndoTimes(g, k - 1);
    }
  }
}
