/** The turn reader of a session as a transition system: the main loop of `iter_turn_chunks`
    and its post-idle drain (`appkit/daemon_session.py`).

    One run covers any number of calls. The log records, in order, what the reader did and with
    which frame. */
module SessionReader {
  import opened PythonText
  import opened TurnGates
  import opened Frames

  /** What happens to a session: a call of `iter_turn_chunks`, a re-bootstrap or reconnect
      between calls, a frame read from the socket, the end of a drain window, a deadline of the call
      (`max_wait_s` or `idle_timeout_s`), end of stream. */
  datatype Input =
    | Call
    | Bootstrapped(loop: Option<string>)
    | Reconnected
    | Msg(v: View)
    | Quiet
    | Expired
    | Closed(alive: bool)

  datatype Phase = Idle | Reading | Draining(scope: Option<string>)

  datatype Outcome = TurnEnded | NoMoreEvents | ConnectionLost | DaemonError | TimedOut

  datatype Entry =
    | Opened                                      // a call starts
    | FloorReset
    | BoundTo(v: View)                            // status=running accepted
    | Forgot                                      // the progress flag is cleared
    | Yielded(v: View)                            // a chunk left the main loop
    | Drained(v: View)                            // a chunk left the drain
    | CancelSeen(v: View)
    | Accepted(v: View, bound: TurnId)            // a terminal ends the bound turn
    | Released                                    // the drain met a successor turn

  datatype Reader = Reader(
    phase: Phase,
    outcome: Option<Outcome>,
    loopId: Option<string>,       // _loop_id
    seqFloor: nat,                // _last_turn_end_seq
    genFloor: nat,                // _last_completed_turn_gen
    scope: Option<string>,        // expected_loop_id
    entryFloor: nat,              // last_end_seq, fixed for the call
    bound: TurnId,                // expected_turn_id
    started: bool,                // query_started
    progress: bool,               // turn_progress_seen
    cancelled: bool,              // last_turn_cancellation_seen
    late: bool,                   // a deadline of the call passed during the drain
    log: seq<Entry>)

  function Fresh(): Reader {
    Reader(Idle, None, None, 0, 0, None, 0, None, false, false, false, false, [])
  }

  function Noted(s: Reader, e: Entry): Reader { s.(log := s.log + [e]) }

  function OpenCall(s: Reader): Reader {
    Noted(s.(phase := Reading, outcome := None, scope := s.loopId, entryFloor := s.seqFloor,
             bound := None, started := false, progress := false, cancelled := false, late := false), Opened)
  }

  function ResetFloors(s: Reader): Reader {
    Noted(s.(seqFloor := 0, genFloor := 0, bound := None), FloorReset)
  }

  function Finish(s: Reader, why: Outcome): Reader {
    s.(phase := Idle, outcome := Some(why))
  }

  // ---------------------------------------------------------------- the filters

  predicate OtherLoop(scope: Option<string>, v: View) {
    scope.Some? && v.loopId.Some? && v.loopId != scope
  }

  predicate AtOrBelow(floor: nat, v: View) {
    v.seqNo.Some? && floor > 0 && v.seqNo.value <= floor
  }

  predicate Terminal(v: View) {
    v.kind.Status? && v.state in {"idle", "stopped"}
  }

  predicate Running(v: View) {
    v.kind.Status? && v.state == "running"
  }

  /** Event and status frames that do not carry the bound id are dropped once a turn is bound;
      running and terminal statuses have gates of their own. */
  predicate WrongTurn(bound: TurnId, v: View) {
    bound.Some?
    && if Running(v) then false
       else if Terminal(v) then v.turn.Some? && !TurnIdsMatch(bound, v.turn)
       else (v.kind.Event? || v.kind.Status?) && !TurnIdsMatch(bound, v.turn)
  }

  predicate Skipped(s: Reader, v: View) {
    OtherLoop(s.scope, v) || AtOrBelow(s.entryFloor, v) || WrongTurn(s.bound, v)
  }

  // ---------------------------------------------------------------- the main loop

  function Max(a: nat, b: nat): nat { if a < b then b else a }

  /** Floors move and the drain begins. */
  function AcceptTerminal(s: Reader, v: View): Reader {
    var gen := ParseTurnGeneration(s.bound);
    Noted(s.(phase := Draining(s.scope),
             seqFloor := if v.seqNo.Some? then Max(s.seqFloor, v.seqNo.value) else s.seqFloor,
             genFloor := if gen.Some? then Max(s.genFloor, gen.value) else s.genFloor),
          Accepted(v, s.bound))
  }

  function BindTurn(s: Reader, v: View): Reader {
    var cleared := if s.bound.Some? && v.turn != s.bound then Noted(s.(progress := false), Forgot) else s;
    Noted(cleared.(bound := v.turn, started := true), BoundTo(v))
  }

  function ReadStatus(s: Reader, v: View): Reader {
    var scoped := if v.loopId.Some? then s.(loopId := v.loopId, scope := v.loopId) else s;
    if v.state == "running" then
      if v.turn.None? then scoped.(started := true)
      else if ShouldBind(v.turn, s.bound, s.genFloor) then BindTurn(scoped, v)
      else scoped
    else if s.started && Terminal(v)
            && StatusTerminalAllowed(s.bound, v.turn, s.started, s.progress, s.cancelled)
    then AcceptTerminal(scoped, v)
    else scoped
  }

  function ReadEvent(s: Reader, v: View): Reader {
    if v.dropped then s
    else if v.turnEnd then
      if !TurnTerminalAllowed(s.bound, v.endTurn, s.started, s.progress) then s
      else
        var yielded := Noted(s, Yielded(v));
        var marked := if v.streamEnd && v.cancelReason
                      then Noted(yielded.(cancelled := true), CancelSeen(v)) else yielded;
        AcceptTerminal(marked, v)
    else Noted(s.(progress := s.progress || v.progress), Yielded(v))
  }

  function ReadStep(s: Reader, v: View): Reader {
    if Skipped(s, v) then s
    else
      match v.kind
      case Error => Finish(s, DaemonError)
      case Status => ReadStatus(s, v)
      case CommandResponse => if v.cancelAck then Noted(s.(cancelled := true), CancelSeen(v)) else s
      case Event => ReadEvent(s, v)
      case Other => s
  }

  // ---------------------------------------------------------------- the drain

  /** The successor's running frame goes back to the front of the queue and the main loop
      resumes unbound. */
  function Resume(s: Reader): Reader {
    s.(phase := Reading, bound := None, progress := false, log := s.log + [Forgot, Released])
  }

  predicate Successor(genFloor: nat, v: View) {
    v.kind.Status? && v.plainState == "running"
    && var g := ParseTurnGeneration(v.turn); g.Some? && g.value > genFloor
  }

  /** A drained frame that is not a successor. */
  function DrainStep(s: Reader, v: View): Reader
    requires s.phase.Draining?
  {
    if OtherLoop(s.phase.scope, v) then s
    else
      match v.kind
      case Error => Finish(s, DaemonError)
      case Status => if v.loopId.Some? then s.(loopId := v.loopId, phase := Draining(v.loopId)) else s
      case Event => if v.dropped then s else Noted(s, Drained(v))
      case _ => s
  }

  predicate Hands(s: Reader, v: View)
    requires s.phase.Draining?
  {
    !OtherLoop(s.phase.scope, v) && Successor(s.genFloor, v)
  }

  /** The reader goes on with the loop id of the successor. Its frame is the next to be read, by
      this call or, when a deadline has passed meanwhile, by the next one. */
  function Handover(s: Reader, v: View): Reader
    requires s.phase.Draining?
  {
    var resumed := Resume(if v.loopId.Some? then s.(loopId := v.loopId) else s);
    if s.late then Finish(resumed, TimedOut) else resumed
  }

  function Step(s: Reader, i: Input): Reader {
    match i
    case Call => if s.phase.Idle? then OpenCall(s) else s
    case Bootstrapped(loop) =>
      if !s.phase.Idle? then s
      else if loop == s.loopId then s else ResetFloors(s.(loopId := loop))
    case Reconnected => if s.phase.Idle? then ResetFloors(s) else s
    case Msg(v) =>
      (match s.phase
       case Idle => s
       case Reading => ReadStep(s, v)
       case Draining(_) => if Hands(s, v) then Handover(s, v) else DrainStep(s, v))
    case Quiet => if s.phase.Draining? then Finish(s, TurnEnded) else s
    case Expired =>
      (match s.phase
       case Idle => s
       case Reading => Finish(s, TimedOut)
       case Draining(_) => s.(late := true))
    case Closed(alive) =>
      (match s.phase
       case Idle => s
       case Reading => Finish(s, if s.started && !alive then ConnectionLost else NoMoreEvents)
       case Draining(_) => Finish(s, TurnEnded))
  }

  function Run(s: Reader, inputs: seq<Input>): Reader
    decreases |inputs|
  {
    if inputs == [] then s else Run(Step(s, inputs[0]), inputs[1..])
  }

  lemma {:induction false} RunSplits(s: Reader, a: seq<Input>, b: seq<Input>)
    ensures Run(s, a + b) == Run(Run(s, a), b)
    decreases |a|
  {
    hide Step;
    if a == [] {
      assert a + b == b;
    } else {
      assert (a + b)[1..] == a[1..] + b;
      RunSplits(Step(s, a[0]), a[1..], b);
    }
  }
}
