/**
 * The page script (main.js): the local state (`color`, `size`, `brushType`, `isLocalDrawing`,
 * `clientId`, `lastEmit`) and the handlers that drive the canvas manager and the socket.
 * `socket.emit` is modelled by the list of events sent; `Date.now()` is a parameter.
 */
module ClientPage {
  import opened Wrappers
  import opened Strokes
  import opened StrokeHistory
  import opened HexColor
  import opened Sync
  import opened Canvas
  import opened Context2D
  import opened Brushes
  import opened Replay

  /** What the page passes to `socket.emit`. */
  datatype Event = DrawEvent(msg: DrawMessage) | UndoEvent | RedoEvent

  /** `value || fallback` for a string: the empty string is the only falsy one. */
  function OrDefault(value: string, fallback: string): (r: string)
    ensures r == value <==> value != "" || fallback == ""
    ensures r != "" <==> value != "" || fallback != ""
  {
    if value == "" then fallback else value
  }

  /** `parseInt(text) || 5` (main.js:17): NaN and 0 are falsy. */
  function SizeOrDefault(n: JsNumber): (r: int)
    ensures r != 0
    ensures r == 5 <==> n == NaN || n == Int(0) || n == Int(5)
  {
    if n.NaN? || n.value == 0 then 5 else n.value
  }

  class Page {
    const cm: CanvasManager
    var color: string
    var size: int
    var brushType: string
    var isLocalDrawing: bool
    var clientId: Ident
    var lastEmit: int
    /** Every event passed to `socket.emit`, oldest first. */
    var sent: seq<Event>
    /** Every call the `draw` handler makes on the canvas manager, oldest first. */
    var remoteCalls: seq<RemoteCall>
    /** Every `emitDraw` call so far, with its clock reading. */
    ghost var attempts: seq<Attempt>
    /** The number of `pointerdown` and of `stopDrawing` calls so far. */
    ghost var downs: nat
    ghost var stops: nat

    ghost predicate Valid()
      reads this, cm
    {
      cm.Valid() && Guarded() && ThrottleState()
    }

    /**
     * The pointer guard follows the manager's `isDrawing`, and `stopDrawing` has run at most
     * once per `pointerdown` (never for the current one while drawing).
     */
    ghost predicate Guarded()
      reads this`isLocalDrawing, this`downs, this`stops, cm`isDrawing
    {
      && isLocalDrawing == cm.isDrawing
      && stops + (if isLocalDrawing then 1 else 0) <= downs
    }

    /** `lastEmit` is the clock reading of the last emission the throttle let through. */
    ghost predicate ThrottleState()
      reads this`lastEmit, this`attempts
    {
      lastEmit == LastEmit(0, Passed(0, attempts))
    }

    /** The module-level setup (main.js:6, 16-20, 65), given the three inputs' initial values. */
    constructor (colorValue: string, sizeValue: JsNumber, brushValue: string)
      ensures Valid()
      ensures color == OrDefault(colorValue, "#000000")
      ensures size == SizeOrDefault(sizeValue)
      ensures brushType == OrDefault(brushValue, "normal")
      ensures !isLocalDrawing && clientId == Null && lastEmit == 0
      ensures sent == [] && remoteCalls == []
      ensures fresh(cm) && cm.paths == [] && cm.redoStack == [] && !cm.isDrawing
      ensures cm.log == ResizeCommands([])
    {
      cm := new CanvasManager();
      color := OrDefault(colorValue, "#000000");
      size := SizeOrDefault(sizeValue);
      brushType := OrDefault(brushValue, "normal");
      isLocalDrawing := false;
      clientId := Null;
      lastEmit := 0;
      sent := [];
      remoteCalls := [];
      attempts := [];
      downs := 0;
      stops := 0;
    }

    /** `socket.on("connect")` (main.js:23-26): the relay's id for this client. */
    method Connect(socketId: string)
      requires Valid()
      modifies this`clientId
      ensures Valid() && clientId == Id(socketId)
    {
      clientId := Id(socketId);
    }

    /**
     * `socket.on("draw")` (main.js:32-41). The canvas manager defines no `remoteStart`,
     * `remoteDraw` or `remoteEnd`, so each call is recorded here and nothing else changes.
     */
    method OnDraw(msg: Option<DrawMessage>)
      requires Valid()
      modifies this`remoteCalls
      ensures Valid()
      ensures remoteCalls == old(remoteCalls) + Dispatch(msg, clientId)
    {
      if msg.None? {
        return;
      }
      var m := msg.value;
      if m.id == clientId {
        return;
      }
      if m.kind == "start" {
        remoteCalls := remoteCalls + [RemoteStart(m.id, m.x, m.y, m.color, m.size, m.brushType)];
      } else if m.kind == "move" {
        remoteCalls := remoteCalls + [RemoteDraw(m.id, m.x, m.y)];
      } else if m.kind == "end" {
        remoteCalls := remoteCalls + [RemoteEnd(m.id)];
      }
    }

    /** `socket.on("undo")` (main.js:43-45): a local undo, nothing sent back. */
    method OnUndo()
      requires Valid()
      modifies cm`paths, cm`redoStack, cm`log
      ensures Valid()
      ensures cm.Stacks() == Undone(old(cm.Stacks())) && sent == old(sent)
      ensures cm.log == old(cm.log) + (if |old(cm.paths)| == 0 then [] else RedrawCommands(cm.paths))
    {
      cm.Undo();
    }

    /** `socket.on("redo")` (main.js:46-48): a local redo, nothing sent back. */
    method OnRedo()
      requires Valid()
      modifies cm`paths, cm`redoStack, cm`log
      ensures Valid()
      ensures cm.Stacks() == Redone(old(cm.Stacks())) && sent == old(sent)
      ensures cm.log == old(cm.log) + (if |old(cm.redoStack)| == 0 then [] else RedrawCommands(cm.paths))
    {
      cm.Redo();
    }

    /** The undo button (main.js:55-58): a local undo, then one `undo` event. */
    method ClickUndo()
      requires Valid()
      modifies this`sent, cm`paths, cm`redoStack, cm`log
      ensures Valid()
      ensures cm.Stacks() == Undone(old(cm.Stacks())) && sent == old(sent) + [UndoEvent]
      ensures cm.log == old(cm.log) + (if |old(cm.paths)| == 0 then [] else RedrawCommands(cm.paths))
    {
      cm.Undo();
      sent := sent + [UndoEvent];
    }

    /** The redo button (main.js:59-62): a local redo, then one `redo` event. */
    method ClickRedo()
      requires Valid()
      modifies this`sent, cm`paths, cm`redoStack, cm`log
      ensures Valid()
      ensures cm.Stacks() == Redone(old(cm.Stacks())) && sent == old(sent) + [RedoEvent]
      ensures cm.log == old(cm.log) + (if |old(cm.redoStack)| == 0 then [] else RedrawCommands(cm.paths))
    {
      cm.Redo();
      sent := sent + [RedoEvent];
    }

    /** The colour picker's `input` handler (main.js:51). */
    method SetColor(value: string)
      requires Valid()
      modifies this`color
      ensures Valid() && color == value
    {
      color := value;
    }

    /** The size slider's `input` handler (main.js:52), given the value `parseInt` reads. */
    method SetSize(value: int)
      requires Valid()
      modifies this`size
      ensures Valid() && size == value
    {
      size := value;
    }

    /** The brush selector's `change` handler (main.js:53). */
    method SetBrush(value: string)
      requires Valid()
      modifies this`brushType
      ensures Valid() && brushType == value
    {
      brushType := value;
    }

    /**
     * `emitDraw(type, x, y)` (main.js:66-80) at clock reading `now`: a `move` less than 16 ms
     * after the last emission is dropped and `lastEmit` kept; anything else sets `lastEmit` and
     * sends the payload with this client's id and current style.
     */
    method EmitDraw(kind: string, x: real, y: real, now: int)
      requires ThrottleState()
      modifies this`lastEmit, this`sent, this`attempts
      ensures ThrottleState()
      ensures attempts == old(attempts) + [Attempt(kind, now)]
      ensures Throttled(kind, now, old(lastEmit)) ==> lastEmit == old(lastEmit) && sent == old(sent)
      ensures !Throttled(kind, now, old(lastEmit)) ==>
        lastEmit == now
        && sent == old(sent) + [DrawEvent(Outgoing(kind, clientId, x, y, color, size, brushType))]
    {
      PassedStep(0, attempts, Attempt(kind, now));
      attempts := attempts + [Attempt(kind, now)];
      if kind == "move" && now - lastEmit < 16 {
        return;
      }
      lastEmit := now;
      sent := sent + [DrawEvent(DrawMessage(kind, clientId, x, y, color, size, brushType))];
    }

    /**
     * `pointerdown` (main.js:93-99): local drawing on, a new stroke in the current style, and
     * a `start` event.
     */
    method PointerDown(x: real, y: real, now: int)
      requires Valid()
      modifies this`isLocalDrawing, this`downs, this`lastEmit, this`sent, this`attempts
      modifies cm`isDrawing, cm`brushType, cm`currentPath, cm`log
      ensures Valid() && isLocalDrawing && downs == old(downs) + 1
      ensures cm.currentPath == Some(Path([Point(x, y)], color, size, ParseBrush(brushType)))
      ensures cm.Stacks() == old(cm.Stacks())
      ensures attempts == old(attempts) + [Attempt("start", now)] && lastEmit == now
      ensures sent == old(sent) + [DrawEvent(Outgoing("start", clientId, x, y, color, size, brushType))]
      ensures cm.log == old(cm.log) + [BeginPath, MoveTo(x, y)]
    {
      isLocalDrawing := true;
      downs := downs + 1;
      cm.StartDrawing(x, y, color, size, ParseBrush(brushType));
      assert cm.Valid() && Guarded();
      EmitDraw("start", x, y, now);
    }

    /** `pointermove` (main.js:101-106): nothing unless drawing; else a segment and a `move`. */
    method PointerMove(x: real, y: real, now: int)
      requires Valid()
      modifies this`lastEmit, this`sent, this`attempts, cm`currentPath, cm`log
      ensures Valid()
      ensures !old(isLocalDrawing) ==>
        sent == old(sent) && attempts == old(attempts) && lastEmit == old(lastEmit)
        && cm.currentPath == old(cm.currentPath) && cm.log == old(cm.log)
      ensures old(isLocalDrawing) ==>
        && attempts == old(attempts) + [Attempt("move", now)]
        && (var p := old(cm.currentPath).value;
            && cm.currentPath == Some(p.(points := p.points + [Point(x, y)]))
            && cm.log == old(cm.log) + SegmentCommands(cm.brushType, p.color, p.size, x, y))
        && (Throttled("move", now, old(lastEmit)) ==> lastEmit == old(lastEmit) && sent == old(sent))
        && (!Throttled("move", now, old(lastEmit)) ==>
              lastEmit == now
              && sent == old(sent) + [DrawEvent(Outgoing("move", clientId, x, y, color, size, brushType))])
      ensures cm.Stacks() == old(cm.Stacks())
    {
      if !isLocalDrawing {
        return;
      }
      cm.DrawLine(x, y);
      EmitDraw("move", x, y, now);
    }

    /**
     * `pointerup` (main.js:108-114): nothing unless drawing; else the stroke is finished, an
     * `end` event sent and local drawing turned off.
     */
    method PointerUp(x: real, y: real, now: int)
      requires Valid()
      modifies this`isLocalDrawing, this`stops, this`lastEmit, this`sent, this`attempts
      modifies cm`isDrawing, cm`currentPath, cm`paths, cm`redoStack, cm`log
      ensures Valid() && !isLocalDrawing
      ensures !old(isLocalDrawing) ==>
        sent == old(sent) && attempts == old(attempts) && stops == old(stops) && lastEmit == old(lastEmit)
        && cm.Stacks() == old(cm.Stacks()) && cm.log == old(cm.log)
      ensures old(isLocalDrawing) ==>
        && stops == old(stops) + 1
        && cm.Stacks() == Finalized(old(cm.Stacks()), old(cm.currentPath).value)
        && attempts == old(attempts) + [Attempt("end", now)] && lastEmit == now
        && sent == old(sent) + [DrawEvent(Outgoing("end", clientId, x, y, color, size, brushType))]
        && cm.log == old(cm.log) + [BeginPath]
    {
      if !isLocalDrawing {
        return;
      }
      ghost var before := cm.Stacks();
      ghost var path := cm.currentPath.value;
      cm.StopDrawing();
      stops := stops + 1;
      ghost var after := cm.Stacks();
      assert after == Finalized(before, path) && !cm.isDrawing && cm.Valid();
      EmitDraw("end", x, y, now);
      assert cm.Stacks() == after;
      isLocalDrawing := false;
    }
  }
}
