/**
 * The decision rules of the page script (main.js) that do not touch the canvas: the inbound
 * `draw` dispatcher, the outbound payload and the 16 ms throttle of `emitDraw`.
 */
module Sync {
  import opened Wrappers

  /** A JavaScript value used as a client identifier: `undefined`, `null` or a socket id. */
  datatype Ident = Undefined | Null | Id(name: string)

  /** The fields of a `draw` payload: `{type, id, x, y, color, size, brushType}`. */
  datatype DrawMessage = DrawMessage(
    kind: string, id: Ident, x: real, y: real, color: string, size: int, brushType: string)

  /** The calls the dispatcher makes on the canvas manager for another client's stroke. */
  datatype RemoteCall =
    | RemoteStart(id: Ident, x: real, y: real, color: string, size: int, brushType: string)
    | RemoteDraw(id: Ident, x: real, y: real)
    | RemoteEnd(id: Ident)

  /** The author a call is made for. */
  function Author(c: RemoteCall): Ident {
    match c
    case RemoteStart(id, _, _, _, _, _) => id
    case RemoteDraw(id, _, _) => id
    case RemoteEnd(id) => id
  }

  /** The event kinds the dispatcher routes. */
  predicate IsStrokeKind(kind: string) {
    kind == "start" || kind == "move" || kind == "end"
  }

  /**
   * The `socket.on("draw")` handler (main.js:32-41). `None` stands for every falsy value the
   * handler drops (`null`, `undefined`); a message whose `id` is this client's own (`===`) is
   * an echo and is dropped too. Otherwise `start`, `move` and `end` each make exactly one call
   * carrying the message's author, and any other type makes none.
   */
  function Dispatch(msg: Option<DrawMessage>, clientId: Ident): (calls: seq<RemoteCall>)
    ensures |calls| <= 1
    ensures msg.None? ==> calls == []
    ensures msg.Some? && msg.value.id == clientId ==> calls == []
    ensures |calls| == 1 <==> msg.Some? && msg.value.id != clientId && IsStrokeKind(msg.value.kind)
    ensures forall c | c in calls :: msg.Some? && Author(c) == msg.value.id
  {
    if msg.None? then []
    else
      var m := msg.value;
      if m.id == clientId then []
      else if m.kind == "start" then [RemoteStart(m.id, m.x, m.y, m.color, m.size, m.brushType)]
      else if m.kind == "move" then [RemoteDraw(m.id, m.x, m.y)]
      else if m.kind == "end" then [RemoteEnd(m.id)]
      else []
  }

  /** The payload `emitDraw` sends (main.js:71-79): the type and point, and the sender's state. */
  function Outgoing(kind: string, clientId: Ident, x: real, y: real, color: string, size: int,
                    brushType: string): DrawMessage
  {
    DrawMessage(kind, clientId, x, y, color, size, brushType)
  }

  /**
   * The call a receiving client makes for a payload `Outgoing(kind, ...)`, by kind: the
   * reference the protocol lemma checks the dispatcher against.
   */
  function Intended(kind: string, sender: Ident, x: real, y: real, color: string, size: int,
                    brushType: string): seq<RemoteCall>
  {
    match kind
    case "start" => [RemoteStart(sender, x, y, color, size, brushType)]
    case "move" => [RemoteDraw(sender, x, y)]
    case "end" => [RemoteEnd(sender)]
    case _ => []
  }

  /**
   * What one client emits, relayed unchanged, makes every other client call the canvas manager
   * for that sender with the sender's point and style; the sender's own echo makes no call.
   */
  lemma DeliveredCall(kind: string, sender: Ident, receiver: Ident, x: real, y: real,
                      color: string, size: int, brushType: string)
    ensures var calls := Dispatch(Some(Outgoing(kind, sender, x, y, color, size, brushType)), receiver);
      calls == if sender == receiver then [] else Intended(kind, sender, x, y, color, size, brushType)
  {
  }

  /**
   * A stroke a client emits before its `connect` handler has run carries `id: null`, since
   * `clientId` starts as `null` (main.js:20). A connected receiver, whose id is a socket id, does
   * not take it for an echo: it makes the usual call, with `null` as the author.
   */
  lemma EmittedBeforeConnect(kind: string, receiver: string, x: real, y: real, color: string,
                             size: int, brushType: string)
    ensures Dispatch(Some(Outgoing(kind, Null, x, y, color, size, brushType)), Id(receiver))
      == Intended(kind, Null, x, y, color, size, brushType)
    ensures IsStrokeKind(kind) ==>
      forall c | c in Dispatch(Some(Outgoing(kind, Null, x, y, color, size, brushType)), Id(receiver))
        :: Author(c) == Null
  {
  }

  /** One attempted `emitDraw(type, ...)` at clock reading `now` (main.js:66-67). */
  datatype Attempt = Attempt(kind: string, now: int)

  /** The throttle test of `emitDraw` (main.js:69). */
  predicate Throttled(kind: string, now: int, lastEmit: int) {
    kind == "move" && now - lastEmit < 16
  }

  /** The value of `lastEmit` after the emissions `sent`, starting from `last`. */
  function LastEmit(last: int, sent: seq<Attempt>): int {
    if sent == [] then last else sent[|sent| - 1].now
  }

  /**
   * The attempts `emitDraw` lets through, in order, when `lastEmit` starts at `last`: each
   * attempt is compared with the clock reading of the last one let through.
   */
  function Passed(last: int, attempts: seq<Attempt>): (sent: seq<Attempt>)
    ensures |sent| <= |attempts|
  {
    if attempts == [] then []
    else
      var prev := Passed(last, attempts[..|attempts| - 1]);
      var t := attempts[|attempts| - 1];
      if Throttled(t.kind, t.now, LastEmit(last, prev)) then prev else prev + [t]
  }

  /** One more attempt: it is let through unless throttled against the last emission. */
  lemma PassedStep(last: int, attempts: seq<Attempt>, t: Attempt)
    ensures var prev := Passed(last, attempts);
      Passed(last, attempts + [t]) ==
        if Throttled(t.kind, t.now, LastEmit(last, prev)) then prev else prev + [t]
    ensures !Throttled(t.kind, t.now, LastEmit(last, Passed(last, attempts))) ==>
      LastEmit(last, Passed(last, attempts + [t])) == t.now
  {
    assert (attempts + [t])[..|attempts|] == attempts;
  }

  /** Every `move` in `sent` is at least 16 ms after the emission before it (or `last`). */
  ghost predicate Spaced(last: int, sent: seq<Attempt>) {
    sent == [] ||
      (var prev := sent[..|sent| - 1];
       var t := sent[|sent| - 1];
       Spaced(last, prev) && (t.kind == "move" ==> t.now - LastEmit(last, prev) >= 16))
  }

  /** The `start`/`end` (and any other non-`move`) attempts of a trace, in order. */
  function NonMoves(a: seq<Attempt>): seq<Attempt> {
    if a == [] then []
    else
      var t := a[|a| - 1];
      NonMoves(a[..|a| - 1]) + (if t.kind == "move" then [] else [t])
  }

  /** The emissions of any trace of attempts are spaced as the throttle intends. */
  lemma {:induction false} ThrottleSpacing(last: int, attempts: seq<Attempt>)
    ensures Spaced(last, Passed(last, attempts))
  {
    if attempts != [] {
      var prev := Passed(last, attempts[..|attempts| - 1]);
      var t := attempts[|attempts| - 1];
      ThrottleSpacing(last, attempts[..|attempts| - 1]);
      if !Throttled(t.kind, t.now, LastEmit(last, prev)) {
        assert (prev + [t])[..|prev|] == prev;
      }
    }
  }

  /** The throttle drops only moves: every `start` and `end` attempt is emitted, in order. */
  lemma {:induction false} NonMovesKept(last: int, attempts: seq<Attempt>)
    ensures NonMoves(Passed(last, attempts)) == NonMoves(attempts)
  {
    if attempts != [] {
      var prev := Passed(last, attempts[..|attempts| - 1]);
      var t := attempts[|attempts| - 1];
      NonMovesKept(last, attempts[..|attempts| - 1]);
      if !Throttled(t.kind, t.now, LastEmit(last, prev)) {
        assert (prev + [t])[..|prev|] == prev;
      }
    }
  }
}
