/** The pool path's turn-end contract (`appkit/turn_boundary.py`): the second implementation of the
    contract that the session reader meets. */
module TurnBoundaries {
  import opened PythonText
  import opened JsonValues
  import opened TurnGates
  import opened Frames
  import opened SessionReader

  datatype Gate = Gate(
    sawRunning: bool,
    sawProgress: bool,
    expected: TurnId,
    cancelled: bool,
    completedGen: nat)

  datatype Boundary = Boundary(gate: Gate, ended: bool, reason: string)

  function FreshBoundary(): Boundary {
    Boundary(Gate(false, false, None, false, 0), false, "")
  }

  /** `observe` on a normalised frame. */
  function Observed(g: Gate, v: View): Gate {
    if v.kind.Status? && v.plainState == "running" then
      if v.turn.None? then g.(sawRunning := true)
      else if !ShouldBind(v.turn, g.expected, g.completedGen) then g
      else g.(sawRunning := true, expected := v.turn,
              sawProgress := g.sawProgress && (g.expected.None? || v.turn == g.expected))
    else if v.kind.Event? && v.progress then g.(sawProgress := true)
    else g
  }

  function NotedTurn(g: Gate, turn: TurnId): Gate {
    var gen := ParseTurnGeneration(turn);
    if gen.Some? then g.(completedGen := Max(g.completedGen, gen.value)) else g
  }

  /** Whether an observed frame ends the turn, and under which name. */
  function EndReason(g: Gate, v: View): Option<string> {
    if v.kind.Status? && v.plainState in {"idle", "stopped"}
       && StatusTerminalAllowed(g.expected, v.turn, g.sawRunning, g.sawProgress, g.cancelled)
    then Some(ReasonFor(v))
    else if v.kind.Event? && v.turnEnd
            && TurnTerminalAllowed(g.expected, v.endTurn, g.sawRunning, g.sawProgress)
    then Some(ReasonFor(v))
    else None
  }

  function ReasonFor(v: View): string {
    if v.kind.Event? then STREAM_END else if v.plainState == "stopped" then "status.stopped" else "status.idle"
  }

  function Fed(b: Boundary, v: View): Boundary {
    if b.ended then b
    else
      var g := Observed(b.gate, v);
      var end := EndReason(g, v);
      if end.Some? then Boundary(NotedTurn(g, g.expected), true, end.value) else b.(gate := g)
  }

  function FedAll(b: Boundary, views: seq<View>): Boundary
    decreases |views|
  {
    if views == [] then b else FedAll(Fed(b, views[0]), views[1..])
  }

  // ---------------------------------------------------------------- the objects

  class TurnLifecycleGate {
    var sawRunning: bool
    var sawTurnProgress: bool
    var expectedTurnId: TurnId
    var cancellationSeen: bool
    var lastCompletedTurnGen: nat

    ghost function Value(): Gate
      reads this
    {
      Gate(sawRunning, sawTurnProgress, expectedTurnId, cancellationSeen, lastCompletedTurnGen)
    }

    constructor ()
      ensures Value() == FreshBoundary().gate
    {
      sawRunning, sawTurnProgress, expectedTurnId, cancellationSeen := false, false, None, false;
      lastCompletedTurnGen := 0;
    }

    method Observe(v: View)
      modifies this
      ensures Value() == Observed(old(Value()), v)
    {
      hide ShouldBind;
      if v.kind.Status? {
        if v.plainState == "running" {
          if v.turn.Some? {
            if !ShouldBind(v.turn, expectedTurnId, lastCompletedTurnGen) {
              return;
            }
            if expectedTurnId.Some? && v.turn != expectedTurnId {
              sawTurnProgress := false;
            }
            expectedTurnId := v.turn;
          }
          sawRunning := true;
        }
        return;
      }
      if v.kind.Event? && v.progress {
        sawTurnProgress := true;
      }
    }

    predicate AllowStreamEnd(frameTurn: TurnId)
      reads this
    {
      TurnTerminalAllowed(expectedTurnId, frameTurn, sawRunning, sawTurnProgress)
    }

    predicate AllowStatusComplete(frameTurn: TurnId)
      reads this
    {
      StatusTerminalAllowed(expectedTurnId, frameTurn, sawRunning, sawTurnProgress, cancellationSeen)
    }

    method NoteCompletedTurn(turn: TurnId)
      modifies this
      ensures Value() == NotedTurn(old(Value()), turn)
    {
      var gen := ParseTurnGeneration(turn);
      if gen.Some? && gen.value > lastCompletedTurnGen {
        lastCompletedTurnGen := gen.value;
      }
    }
  }

  class TurnBoundary {
    const gate: TurnLifecycleGate
    var ended: bool
    var reason: string

    ghost function Value(): Boundary
      reads this, gate
    {
      Boundary(gate.Value(), ended, reason)
    }

    constructor ()
      ensures fresh(gate) && Value() == FreshBoundary()
    {
      gate := new TurnLifecycleGate();
      ended, reason := false, "";
    }

    /** `feed`: observe a decoded frame, and say whether the turn has ended. Frames that cannot be
        normalised change nothing. */
    method Feed(msg: JsonMap) returns (done: bool, why: string)
      modifies this, gate
      ensures Value() == match Normalize(msg)
        case Some(frame) => Fed(old(Value()), LookAt(frame, KEEP_ALL)) case None => old(Value())
      ensures done == ended && why == if ended then reason else ""
    {
      hide LookAt;
      hide Normalize;
      hide Observed;
      hide NotedTurn;
      if ended {
        return true, reason;
      }
      var frame := Normalize(msg);
      if frame.None? {
        return false, "";
      }
      var v := LookAt(frame.value, KEEP_ALL);
      gate.Observe(v);
      if v.kind.Status? && v.plainState in {"idle", "stopped"} && gate.AllowStatusComplete(v.turn) {
        gate.NoteCompletedTurn(gate.expectedTurnId);
        ended, reason := true, if v.plainState == "stopped" then "status.stopped" else "status.idle";
      } else if v.kind.Event? && v.turnEnd && gate.AllowStreamEnd(v.endTurn) {
        gate.NoteCompletedTurn(gate.expectedTurnId);
        ended, reason := true, STREAM_END;
      }
      return ended, if ended then reason else "";
    }
  }

  /** The pool path drops no chunk early. */
  const KEEP_ALL: DropFilter := (namespace, mode, data) => false

  // ---------------------------------------------------------------- on raw frames

  /** What `TurnBoundary.Feed` does to its value. */
  function FedFrame(b: Boundary, frame: JsonMap): Boundary {
    match Normalize(frame)
    case Some(f) => Fed(b, LookAt(f, KEEP_ALL))
    case None => b
  }

  function FedFrames(b: Boundary, frames: seq<JsonMap>): Boundary
    decreases |frames|
  {
    if frames == [] then b else FedFrames(FedFrame(b, frames[0]), frames[1..])
  }

  /** The names under which a turn ends. */
  lemma ReasonsAreNamed(v: View)
    ensures v.kind.Event? ==> ReasonFor(v) == "soothe.stream.end"
    ensures v.kind.Status? && v.plainState == "stopped" ==> ReasonFor(v) == "status.stopped"
    ensures v.kind.Status? && v.plainState == "idle" ==> ReasonFor(v) == "status.idle"
  {
  }

  /** One decoded frame, by the fields of the gate: a running status binds if it may, and clears the progress
      of another turn; a progress chunk is noted; and the frame ends the turn if the gate lets it. */
  lemma FeedsExactly(b: Boundary, v: View)
    requires !b.ended && !b.gate.cancelled
    ensures var after, g := Fed(b, v), b.gate;
      var binds := v.kind.Status? && v.plainState == "running" && v.turn.Some?
                   && ShouldBind(v.turn, g.expected, g.completedGen);
      && (binds ==> after.gate.expected == v.turn && after.gate.sawRunning && !after.ended
                    && after.gate.sawProgress == (g.sawProgress && (g.expected == None || g.expected == v.turn)))
      && (!binds ==> after.gate.expected == g.expected)
      && (v.kind.Event? && v.progress ==> after.gate.sawProgress)
      && (after.ended <==>
            && g.sawRunning && TurnText(g.expected) != ""
            && ((v.kind.Status? && v.plainState in {"idle", "stopped"} && TurnText(v.turn) == TurnText(g.expected)
                 && g.sawProgress)
                || (v.kind.Event? && v.turnEnd && TurnText(v.endTurn) == TurnText(g.expected)
                    && (g.sawProgress || v.progress))))
  {
    hide ShouldBind;
    hide TurnText;
    hide ParseTurnGeneration;
  }
}
