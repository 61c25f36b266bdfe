# Collaborative canvas: a Dafny model of the drawing client

This project models the browser client of a shared whiteboard:

- **`CanvasManager`** (client/canvas.js) is the object that draws strokes with five brushes, keeps the strokes and supports undo and redo.
- **The page script** (client/main.js) connects the pointer, the toolbar and the socket connection to that object.

The model has these parts:

- **`Canvas.CanvasManager`** is a class with the source's fields:
  - `isDrawing`, `currentPath`, `paths`, `redoStack` and `brushType`;
  - `log`, the sequence of commands issued to the 2-D context so far.

  Each method appends to `log` what the source issues, and changes the other fields as the source does. Its contract states both, in terms of the pure functions below. Its invariant keeps every brush in canonical form, the current one and those of the recorded strokes, so the brush tests agree with the source's string comparisons.
- **`StrokeHistory`** holds the two stacks as a value, and the operations that change them: `Undone`, `Redone` and `Finalized`. The invariant they keep is the *timeline*: the completed strokes followed by the undone ones in drawing order, the most recently undone first. Undo and redo only move the boundary inside the timeline. Finishing a stroke appends the stroke and discards the undone part.
- **`Context2D`** gives the command log a meaning. It interprets the commands against a drawing state:
  - composite mode, stroke style, fill style and line width;
  - the `save`/`restore` stack.

  It lists the paint operations (`stroke`, `fill`, `fillRect`) together with the state each one is painted under. A value assigned to `strokeStyle` or `fillStyle` is either a colour string used as given (`Css`) or the result of `_alpha(hex, val)` (`Rgba`). The `Rgba` value is kept unevaluated; `Brushes.StyleText` evaluates it.
- **`Brushes`** is the brush table, used by both places the source styles a brush:
  - the live `drawLine` switch;
  - `applyStyle` during replay.

  The table gives the composite mode and the line width of each brush, the colour of the highlighter, and the spray-dot count: the least whole number not below `max(10, 1.5·size)`.
- **`Replay`** covers `redrawAll`: clear to white, then replay each completed path. Its lemmas show three things:
  - every replayed paint operation uses its own path's brush mode;
  - an eraser's `destination-out` never carries into a later path;
  - the context always ends in `source-over`.
- **`HexColor`** models `_alpha`. It includes JavaScript's `slice`, `parseInt(s, 16)` and number-to-text conversion.
- **`Sync`** holds the page's decision rules:
  - the inbound `draw` dispatcher, with its echo test;
  - the outbound payload;
  - the 16 ms throttle of `emitDraw`, as a function over a trace of attempts.
- **`ClientPage.Page`** is a class for the page script's state:
  - `color`, `size`, `brushType`, `isLocalDrawing`, `clientId` and `lastEmit`;
  - the messages sent, and the calls made for remote strokes.

  It has one method per handler. Its invariant ties `isLocalDrawing` to the canvas manager's `isDrawing`, and `lastEmit` to the throttle function.

The inbound `draw` handler (main.js:38-40) calls `cm.remoteStart`, `cm.remoteDraw` and `cm.remoteEnd`. canvas.js does not define these methods, so those calls throw and nothing is drawn for other clients. The model records each such call in `remoteCalls` and changes nothing on the canvas.

## Model

| member | source | states |
|---|---|---|
| Strokes.ParseBrush | collaborative_canvas/client/canvas.js:51-89 | The brush a `brushType` string selects. It loses nothing: the brush's name is the string again, and the five brush names never end up as `Other`. |
| Strokes.ParseBrushName | collaborative_canvas/client/canvas.js:51-89 | Reading a name back gives the same brush exactly when the brush is in canonical form. |
| StrokeHistory.Undone | collaborative_canvas/client/canvas.js:117-121 | Undo keeps the timeline. It removes exactly one completed stroke, and it leaves both stacks unchanged when `paths` is empty. |
| StrokeHistory.Redone | collaborative_canvas/client/canvas.js:123-127 | Redo keeps the timeline. It adds exactly one completed stroke, and it leaves both stacks unchanged when `redoStack` is empty. |
| StrokeHistory.Finalized | collaborative_canvas/client/canvas.js:95-101 | Finishing a stroke empties the redo stack. The timeline becomes `paths` plus the stroke when the stroke has a point, and `paths` alone otherwise. |
| StrokeHistory.RedoAfterUndo | collaborative_canvas/client/canvas.js:117-127 | Undo followed by redo restores both stacks exactly, whenever there was a stroke to undo. |
| StrokeHistory.UndoAfterRedo | collaborative_canvas/client/canvas.js:117-127 | Redo followed by undo restores both stacks exactly, whenever there was a stroke to redo. |
| StrokeHistory.UndoRedoConserve | collaborative_canvas/client/canvas.js:117-127 | Undo and redo keep the number of strokes and the strokes themselves, as a multiset over both stacks. |
| StrokeHistory.RedoAfterFinalize | collaborative_canvas/client/canvas.js:101 | Once a stroke is finished, redo changes nothing. |
| StrokeHistory.UndoTimesShape | collaborative_canvas/client/canvas.js:117-121 | After `n` undos, `paths` has lost its last `n` strokes and the redo stack holds them with the most recently undone on top. |
| StrokeHistory.UndoRedoTimes | collaborative_canvas/client/canvas.js:117-127 | `n` undos followed by `n` redos restore the history exactly, for every `n` up to the number of strokes. |
| StrokeHistory.RedoAfterUndoTimes | collaborative_canvas/client/canvas.js:117-127 | `k + 1` redos after one undo equal `k` redos without it. |
| Brushes.TranslucentText | collaborative_canvas/client/canvas.js:70 | For a `#rrggbb` colour, the highlighter's stroke style is `rgba(r,g,b,0.3)` and the spray's fill style is `rgba(r,g,b,0.4)`, where r, g and b are the values of the colour's digit pairs. |
| Brushes.ApplyStyleEffect | collaborative_canvas/client/canvas.js:154-179 | Starting from `source-over`, `applyStyle` leaves the path's brush mode set; from any state, the eraser sets `destination-out` and the default branch sets `source-over`, while the highlighter and calligraphy branches keep whatever mode was set. It sets the line width from the brush and size (a non-positive width leaves the old one). It sets the stroke style from the brush and colour, except for the eraser, which keeps the old one. It keeps the fill style and the save stack, and paints nothing. |
| Brushes.DotCount | collaborative_canvas/client/canvas.js:107-108 | The number of passes of the spray loop: the least whole number not below `max(10, 1.5·size)`, so at least 10. |
| Brushes.SprayPaints | collaborative_canvas/client/canvas.js:104-115 | `spray` keeps the composite mode. It paints exactly `DotCount(size)` fills, all in that mode. |
| Brushes.DotsPaint | collaborative_canvas/client/canvas.js:106-114 | Setting the fill style and then drawing `n` dots changes no composite mode, keeps the mode and paints exactly `n` fills, all in that mode. |
| Brushes.SegmentPaint | collaborative_canvas/client/canvas.js:48-89 | One live `drawLine` step for a line brush paints one stroke in the brush's mode. The width is the brush's width when the size is positive, and the old width otherwise. The colour is the brush's colour, except for the eraser, which sets none and strokes with the existing `strokeStyle`. The eraser step also restores the context to exactly its state before the step. |
| Brushes.SpraySegmentPaints | collaborative_canvas/client/canvas.js:76-79 | A live spray step sets `source-over` and paints `DotCount(size)` dots in it. |
| Brushes.UnknownBrushSegment | collaborative_canvas/client/canvas.js:51-89 | With a brush name outside the five, a live step paints nothing and leaves the drawing state as it was. |
| HexColor.DecValueOfNatText | collaborative_canvas/client/canvas.js:187 | The decimal text written for a component value reads back as that value. |
| HexColor.ParsePair | collaborative_canvas/client/canvas.js:184-186 | `parseInt` of two hexadecimal digits is their value, in 0..255. |
| HexColor.AlphaLongForm | collaborative_canvas/client/canvas.js:181-188 | On `#rrggbb` with hexadecimal digits, `_alpha` gives `rgba(r,g,b,val)` with the three pair values, each in 0..255. |
| HexColor.AlphaShortForm | collaborative_canvas/client/canvas.js:183 | A four-character `#rgb` gives the same text as its doubled `#rrggbb` form. |
| HexColor.AlphaNoDigits | collaborative_canvas/client/canvas.js:182-187 | An empty or one-character colour gives `rgba(NaN,NaN,NaN,val)`. |
| HexColor.AlphaOfHexColor | collaborative_canvas/client/canvas.js:181-188 | `_alpha` recovers the three components of every colour written as `#rrggbb`, which is the colour picker's format. |
| Replay.PathModes | collaborative_canvas/client/canvas.js:137-151 | From `source-over`, replaying one path paints `PerPoint` operations per point, all in the path's own brush mode, and ends in `source-over`. |
| Replay.BodyModes | collaborative_canvas/client/canvas.js:137-151 | From `source-over`, replaying all paths paints each path's operations in that path's own mode (the `ExpectedModes` reference), and ends in `source-over`. |
| Replay.RedrawModes | collaborative_canvas/client/canvas.js:129-152 | From any state, `redrawAll` first paints the background in `source-over`, then paints exactly `ExpectedModes(paths)`, and ends in `source-over`. |
| Replay.ClearRun | collaborative_canvas/client/canvas.js:133-135 | The background is one white fill in `source-over`, and it leaves `source-over` set. |
| Replay.ErasesIffEraser | collaborative_canvas/client/canvas.js:129-179 | A replay erases (paints in `destination-out`) exactly when some completed path is an eraser stroke. |
| Canvas.CanvasManager.constructor | collaborative_canvas/client/canvas.js:2-13 | Empty stacks, not drawing, brush `normal`. The log holds the context reset, the background fill and an empty replay. |
| Canvas.CanvasManager.ResizeCanvas | collaborative_canvas/client/canvas.js:15-30 | Setting the canvas size resets the context, then the background is painted and the completed paths are replayed (`ResizeCommands`). The stacks are unchanged. |
| Replay.ResizeForgetsState | collaborative_canvas/client/canvas.js:15-30 | Whatever state the context was in, a resize paints and ends exactly as from a fresh context: two white `source-over` fills, then each path in its own brush mode. |
| Canvas.CanvasManager.StartDrawing | collaborative_canvas/client/canvas.js:32-40 | Drawing starts with a one-point path in the given style, and the brush becomes the given (canonical) one. The stacks are unchanged; the log gains `beginPath` and `moveTo`. |
| Canvas.CanvasManager.DrawLine | collaborative_canvas/client/canvas.js:42-90 | When not drawing, nothing changes. Otherwise the point is appended to the current path and the log gains the brush's segment commands. The stacks are unchanged. |
| Canvas.CanvasManager.DrawSegment | collaborative_canvas/client/canvas.js:51-89 | The log gains exactly the brush table's segment for the current brush. |
| Canvas.CanvasManager.StopDrawing | collaborative_canvas/client/canvas.js:92-102 | When not drawing, nothing changes. Otherwise the stacks become `Finalized(stacks, currentPath)`, drawing stops, `currentPath` is cleared and the log gains `beginPath`. |
| Canvas.CanvasManager.Spray | collaborative_canvas/client/canvas.js:104-115 | The log gains the fill style `_alpha(color, 0.4)` followed by exactly `DotCount(size)` dots. |
| Canvas.CanvasManager.Undo | collaborative_canvas/client/canvas.js:117-121 | The stacks become `Undone(stacks)`. The log gains a full redraw only when there was a stroke to undo. |
| Canvas.CanvasManager.Redo | collaborative_canvas/client/canvas.js:123-127 | The stacks become `Redone(stacks)`. The log gains a full redraw only when there was a stroke to redo. |
| Canvas.CanvasManager.RedrawAll | collaborative_canvas/client/canvas.js:129-152 | The log gains exactly `RedrawCommands(paths)`, whose painting `Replay.RedrawModes` describes. |
| Canvas.CanvasManager.ReplayPath | collaborative_canvas/client/canvas.js:138-150 | The log gains one path's replay: move to its first point, its style, its points, and the reset to `source-over`. |
| Canvas.CanvasManager.DrawPoint | collaborative_canvas/client/canvas.js:142-149 | The log gains a spray at the point for a spray path, and `lineTo` plus `stroke` otherwise. |
| Canvas.CanvasManager.ApplyStyle | collaborative_canvas/client/canvas.js:154-179 | The log gains the brush table's style commands for the path, whose effect `Brushes.ApplyStyleEffect` states. |
| Sync.Dispatch | collaborative_canvas/client/main.js:32-41 | At most one call. None for a missing message or an echo. Exactly one call iff the message comes from another client and is a `start`, `move` or `end`. Every call carries the message's author. |
| Sync.DeliveredCall | collaborative_canvas/client/main.js:36-40 | What a client emits, relayed unchanged, makes every other client make the intended call for that sender's point and style, while the sender's echo makes none. |
| Sync.EmittedBeforeConnect | collaborative_canvas/client/main.js:20-40 | A stroke sent before the sender's `connect` handler ran carries `id: null`. A connected receiver does not take it for an echo and makes the usual call for it, with `null` as the author. |
| Sync.ThrottleSpacing | collaborative_canvas/client/main.js:69-70 | In every trace of attempts, each emitted `move` comes at least 16 ms after the emission before it. |
| Sync.NonMovesKept | collaborative_canvas/client/main.js:69 | The throttle drops only moves: every `start` and `end` attempt is emitted, in order. |
| ClientPage.OrDefault | collaborative_canvas/client/main.js:16 | The string default `value or fallback`: the value is kept iff it is non-empty (or the fallback is empty too). |
| ClientPage.SizeOrDefault | collaborative_canvas/client/main.js:17 | The size default (the parsed value, or 5 when that is falsy) is never 0. It is 5 exactly when the parse gave NaN, 0 or 5. |
| ClientPage.Page.constructor | collaborative_canvas/client/main.js:16-20 | The initial colour, size and brush are the defaults applied to the widget values. The page is not drawing and has no id yet, `lastEmit` is 0, and nothing has been sent. The new manager's stacks are empty and its log is the initial resize. |
| ClientPage.Page.Connect | collaborative_canvas/client/main.js:23-26 | `clientId` becomes the socket id; nothing else changes. |
| ClientPage.Page.OnDraw | collaborative_canvas/client/main.js:32-41 | The calls made are exactly `Dispatch(msg, clientId)`. The canvas, the stacks and the sent messages are unchanged. |
| ClientPage.Page.OnUndo | collaborative_canvas/client/main.js:43-45 | An inbound undo undoes locally (`Undone`), redraws only when there was a stroke to undo, and sends nothing. |
| ClientPage.Page.OnRedo | collaborative_canvas/client/main.js:46-48 | An inbound redo redoes locally (`Redone`), redraws only when there was a stroke to redo, and sends nothing. |
| ClientPage.Page.ClickUndo | collaborative_canvas/client/main.js:55-58 | The undo button undoes locally, redraws only when there was a stroke to undo, and sends exactly one `undo`. |
| ClientPage.Page.ClickRedo | collaborative_canvas/client/main.js:59-62 | The redo button redoes locally, redraws only when there was a stroke to redo, and sends exactly one `redo`. |
| ClientPage.Page.SetColor | collaborative_canvas/client/main.js:51 | The colour becomes the picker's value. |
| ClientPage.Page.SetSize | collaborative_canvas/client/main.js:52 | The size becomes the parsed slider value. |
| ClientPage.Page.SetBrush | collaborative_canvas/client/main.js:53 | The brush name becomes the selector's value. |
| ClientPage.Page.EmitDraw | collaborative_canvas/client/main.js:66-80 | The attempt is recorded. A throttled move changes neither `lastEmit` nor what is sent. Otherwise `lastEmit` becomes `now` and the payload with the current colour, size, brush and id is sent once. `lastEmit` always equals the throttle function's value on the trace. |
| ClientPage.Page.PointerDown | collaborative_canvas/client/main.js:93-99 | Local drawing starts with a one-point path in the page's style, the stacks are unchanged, the log gains `beginPath` and `moveTo`, and a `start` is sent. |
| ClientPage.Page.PointerMove | collaborative_canvas/client/main.js:101-106 | When not drawing locally, nothing changes. Otherwise the point is appended to the stroke and the log gains the brush's segment. A throttled `move` sends nothing and keeps `lastEmit`; any other sends the `move` payload once and sets `lastEmit`. |
| ClientPage.Page.PointerUp | collaborative_canvas/client/main.js:108-114 | When not drawing locally, nothing changes. Otherwise the stroke is finalized (`Finalized`), the log gains `beginPath`, an `end` is sent and local drawing stops. |

## Left out

- Pixels and geometry are not modelled. The log records `moveTo`, `lineTo` and the dot arcs, but no shape is computed from them. `lineCap` and `lineJoin` are recorded but affect only pixel shape.
- The spray dots' random offsets (`Math.random`) are not computed. Each dot is a `RandomDot` command with its centre, spread and radius.
- Canvas sizing is left out: the pixel size `resizeCanvas` gives the buffer, `devicePixelRatio` and `setTransform` (canvas.js:16-22). Only the effect of setting `width` and `height` on the drawing state is kept: the `Reset` command returns the context to its defaults. Also left out are the window `resize` listeners, `initSizing` and `getCanvasPoint` (main.js:83-91, 116-136). These are DOM layout; the model takes points already in canvas coordinates.
- Coordinates, widths and the density are exact reals. IEEE rounding of `size * 1.4` and `size * 1.5` is not modelled.
- Sizes are integers. The 2-D context ignores a line width that is not positive, as the HTML standard's `lineWidth` setter does.
- Sizes are taken to be non-negative, as the range slider gives them. `arc` throws `IndexSizeError` on a negative radius, so the source's `spray` with `size < 0` stops after its first `beginPath` (canvas.js:109-112); the model logs all `DotCount(size)` dots instead.
- Colours are taken to be CSS colours. The `strokeStyle` and `fillStyle` setters ignore a string that does not parse as one and keep the old style, while the model's `Context2D.Exec` always takes the new value. This matters in two places: a `Css` colour string that is not a CSS colour, and an `Rgba` value from `_alpha` for a colour not written as `#rrggbb` or `#rgb` (for `red`, `_alpha` gives `rgba(237,NaN,NaN,0.3)`, which a browser rejects). The colour picker produces neither.
- ClientPage.Page.SetSize: takes the parsed slider value as an integer and so does not model `parseInt` returning NaN at main.js:52, which a range input does not produce.
- `Date.now` is the parameter `now`, in whole milliseconds.
- The socket is modelled as the list `sent` of emitted events. Connecting, disconnecting, the status text (main.js:25-28) and delivery are left out.
- The socket relay is not part of this model, and neither is client/websocket.js. `Sync.DeliveredCall` assumes the relay forwards a payload unchanged.
- `remoteStart`, `remoteDraw` and `remoteEnd` are not defined anywhere in canvas.js, so there is no remote-stroke behaviour to model. The calls are recorded and have no other effect.
- Inbound payloads are typed records. A message is either a falsy value (`None`) or an object with a string `type`, an `id` (`undefined`, `null` or a string), numeric coordinates, a string colour, an integer size and a string brush. Other JSON shapes are not modelled.
- Strokes are values. Canvas.js keeps object references, but no recorded path is changed after `stopDrawing` moves it into `paths`, so aliasing does not show.
- `parseInt` skips the ASCII white space and four other characters (no-break space, BOM, line and paragraph separators). The other Unicode space separators are not modelled.
- `HexColor.Alpha` counts the length of a colour string in Unicode scalar values; JavaScript's `length` and `split("")` count UTF-16 code units, so a colour holding a character outside the Basic Multilingual Plane can take a different branch in the source.
- `_alpha`'s `val` is the text of the alpha number ("0.3", "0.4"), which is what `${val}` writes for those two values.
