/** The session object and its reading loops, proved to run the transition system of
    `SessionReader` (`appkit/daemon_session.py`). */
module DaemonSession {
  import opened PythonText
  import opened JsonValues
  import opened TurnGates
  import opened Frames
  import opened SessionReader
  import opened SessionTheorems
  import opened SessionChunks

  /** A frame that is not falsy. */
  type FrameMap = f: JsonMap | |f| != 0 witness map["type" := Null]

  /** What the reading loops meet next: a frame, the end of a drain window, a deadline of the call that
      has passed, or end of stream, which an empty frame counts as. */
  datatype Arrival = Frame(fields: FrameMap) | DrainOver | TimeUp | Eof(alive: bool)

  function Seen(a: Arrival, drop: DropFilter): Input {
    match a
    case Frame(f) => Msg(LookAt(Unwrap(f), drop))
    case DrainOver => Quiet
    case TimeUp => Expired
    case Eof(alive) => Closed(alive)
  }

  /** A drained successor goes back to the front of what is to be read. */
  predicate PutsBack(s: Reader, i: Input) {
    s.phase.Draining? && i.Msg? && Hands(s, i.v)
  }

  function RestOf(s: Reader, feed: seq<Arrival>, drop: DropFilter): seq<Arrival>
    requires feed != []
  {
    if PutsBack(s, Seen(feed[0], drop)) then feed else feed[1..]
  }

  datatype Served = Served(reader: Reader, left: seq<Arrival>)

  /** One call on what arrives, to its end or until everything is read: where the reader stands, and
      what is left for the next call. */
  function Serve(s: Reader, feed: seq<Arrival>, drop: DropFilter): Served
    decreases |feed|, if s.phase.Draining? then 1 else 0
  {
    if s.phase.Idle? || feed == [] then Served(s, feed)
    else
      HandsDrain(s, Seen(feed[0], drop));
      Serve(Step(s, Seen(feed[0], drop)), RestOf(s, feed, drop), drop)
  }

  lemma HandsDrain(s: Reader, i: Input)
    ensures PutsBack(s, i) ==> !Step(s, i).phase.Draining?
  {
    hide Successor;
    hide OtherLoop;
  }

  lemma ServeNext(s: Reader, feed: seq<Arrival>, drop: DropFilter)
    requires !s.phase.Idle? && feed != []
    ensures Serve(s, feed, drop) == Serve(Step(s, Seen(feed[0], drop)), RestOf(s, feed, drop), drop)
  {
    hide Step;
    hide Seen;
    hide PutsBack;
  }

  /** The next arrival in a drain. */
  lemma ServeDrain(s: Reader, feed: seq<Arrival>, drop: DropFilter)
    requires s.phase.Draining? && feed != []
    ensures var a := feed[0];
      && (a.Frame? ==>
            var v := LookAt(Unwrap(a.fields), drop);
            if Hands(s, v) then Serve(s, feed, drop) == Serve(Handover(s, v), feed, drop)
            else Serve(s, feed, drop) == Serve(Step(s, Msg(v)), feed[1..], drop))
      && (!a.Frame? ==> Serve(s, feed, drop) == Serve(Step(s, Seen(a, drop)), feed[1..], drop))
  {
    hide LookAt;
    hide Unwrap;
    hide Hands;
    hide Handover;
    hide ReadStep;
    ServeNext(s, feed, drop);
  }

  lemma ServeOver(s: Reader, feed: seq<Arrival>, drop: DropFilter)
    requires s.phase.Idle? || feed == []
    ensures Serve(s, feed, drop) == Served(s, feed)
  {
  }

  /** What one call meets, frames put back twice. */
  function MetBy(s: Reader, feed: seq<Arrival>, drop: DropFilter): seq<Input>
    decreases |feed|, if s.phase.Draining? then 1 else 0
  {
    if s.phase.Idle? || feed == [] then []
    else
      HandsDrain(s, Seen(feed[0], drop));
      [Seen(feed[0], drop)] + MetBy(Step(s, Seen(feed[0], drop)), RestOf(s, feed, drop), drop)
  }

  /** Every call is a run of the transition system, on inputs that all come from what arrived. */
  lemma {:induction false} ServeIsARun(s: Reader, feed: seq<Arrival>, drop: DropFilter)
    ensures Serve(s, feed, drop).reader == Run(s, MetBy(s, feed, drop))
    ensures forall i :: i in MetBy(s, feed, drop) ==> SeenIn(i, feed, drop)
    decreases |feed|, if s.phase.Draining? then 1 else 0
  {
    hide Step;
    hide Seen;
    hide Hands;
    hide SeenIn;
    if !s.phase.Idle? && feed != [] {
      var i, rest := Seen(feed[0], drop), RestOf(s, feed, drop);
      HandsDrain(s, i);
      ServeIsARun(Step(s, i), rest, drop);
      assert MetBy(s, feed, drop)[1..] == MetBy(Step(s, i), rest, drop);
      SeenMore(s, feed, drop);
    }
  }

  ghost predicate SeenIn(i: Input, feed: seq<Arrival>, drop: DropFilter) {
    exists a :: a in feed && i == Seen(a, drop)
  }

  lemma SeenMore(s: Reader, feed: seq<Arrival>, drop: DropFilter)
    requires feed != []
    ensures SeenIn(Seen(feed[0], drop), feed, drop)
    ensures forall i :: SeenIn(i, RestOf(s, feed, drop), drop) ==> SeenIn(i, feed, drop)
  {
    hide Seen;
    hide PutsBack;
    assert feed[0] in feed;
    assert forall a :: a in feed[1..] ==> a in feed;
  }

  /** The chunks of a call are those of the frames that pass. */
  lemma CallHandsOut(before: seq<Entry>, s: Reader, feed: seq<Arrival>, drop: DropFilter)
    requires StartedIfBound(s) && ChunksOf(s.log) == ChunksOf(before)
    ensures forall chunks | ChunksOf(before) + chunks == ChunksOf(Serve(s, feed, drop).reader.log) ::
      chunks == HandedOut(s, MetBy(s, feed, drop))
  {
    hide Serve;
    hide MetBy;
    hide HandedOut;
    hide ChunksOf;
    hide Run;
    ServeIsARun(s, feed, drop);
    ChunksAreThoseThatPass(s, MetBy(s, feed, drop));
    forall chunks | ChunksOf(before) + chunks == ChunksOf(Serve(s, feed, drop).reader.log)
      ensures chunks == HandedOut(s, MetBy(s, feed, drop))
    {
      SameTail(ChunksOf(before), chunks, HandedOut(s, MetBy(s, feed, drop)));
    }
  }

  lemma SameTail(a: seq<Chunk>, b: seq<Chunk>, c: seq<Chunk>)
    requires a + b == a + c
    ensures b == c
  {
    assert (a + b)[|a|..] == b && (a + c)[|a|..] == c;
  }

  /** A call leaves the end of what arrived for the next one. */
  lemma {:induction false} RestIsLeft(s: Reader, feed: seq<Arrival>, drop: DropFilter)
    ensures var n := |feed| - |Serve(s, feed, drop).left|; 0 <= n && Serve(s, feed, drop).left == feed[n..]
    decreases |feed|, if s.phase.Draining? then 1 else 0
  {
    hide Step;
    hide Seen;
    hide Hands;
    if !s.phase.Idle? && feed != [] {
      var i, rest := Seen(feed[0], drop), RestOf(s, feed, drop);
      HandsDrain(s, i);
      RestIsLeft(Step(s, i), rest, drop);
      if rest != feed {
        var n := |rest| - |Serve(s, feed, drop).left|;
        assert feed[1..][n..] == feed[n + 1..];
      }
    }
  }

  class Session {
    const drop: DropFilter
    var loopId: Option<string>
    var lastTurnEndSeq: nat
    var lastCompletedTurnGen: nat
    var expectedTurnId: TurnId
    var cancellationSeen: bool
    var feed: seq<Arrival>              // pending frames of the client, then its inbound queue
    ghost var log: seq<Entry>

    /** The session between calls. */
    ghost function AtRest(): Reader
      reads this
    {
      Reader(Idle, None, loopId, lastTurnEndSeq, lastCompletedTurnGen, None, 0, expectedTurnId,
             false, false, cancellationSeen, false, log)
    }

    /** The fields agree with a reader state. */
    ghost predicate Mirrors(s: Reader)
      reads this
    {
      && loopId == s.loopId && lastTurnEndSeq == s.seqFloor && lastCompletedTurnGen == s.genFloor
      && expectedTurnId == s.bound && cancellationSeen == s.cancelled && log == s.log
    }

    constructor (drop: DropFilter)
      ensures AtRest() == Fresh() && feed == [] && this.drop == drop
    {
      this.drop := drop;
      loopId, lastTurnEndSeq, lastCompletedTurnGen := None, 0, 0;
      expectedTurnId, cancellationSeen, feed, log := None, false, [], [];
    }

    /** `_reset_turn_seq_floor`. */
    method ResetTurnSeqFloor()
      modifies this`lastTurnEndSeq, this`lastCompletedTurnGen, this`expectedTurnId, this`log
      ensures AtRest() == ResetFloors(old(AtRest()))
    {
      lastTurnEndSeq, lastCompletedTurnGen, expectedTurnId := 0, 0, None;
      log := log + [FloorReset];
    }

    /** `_note_completed_turn_gen`. */
    method NoteCompletedTurnGen(turn: TurnId)
      modifies this`lastCompletedTurnGen
      ensures lastCompletedTurnGen == (match ParseTurnGeneration(turn)
        case Some(g) => Max(old(lastCompletedTurnGen), g) case None => old(lastCompletedTurnGen))
    {
      var gen := ParseTurnGeneration(turn);
      if gen.Some? && gen.value > lastCompletedTurnGen {
        lastCompletedTurnGen := gen.value;
      }
    }

    /** One frame of the drain. */
    method DrainFrame(ghost s: Reader, scope: Option<string>, v: View) returns (verdict: Verdict, ghost s': Reader)
      requires s.phase == Draining(scope) && Mirrors(s)
      modifies this`loopId, this`log
      ensures loopId == s'.loopId && log == s'.log
      ensures verdict == VerdictOn(s, v)
      ensures s' == if verdict.HandOver? then Handover(s, v) else Step(s, Msg(v))
    {
      hide ParseTurnGeneration;
      hide Step;
      hide Handover;
      hide OtherLoop;
      DrainWrites(s, v);
      s' := if Hands(s, v) then Handover(s, v) else Step(s, Msg(v));
      if OtherLoop(scope, v) {
        return Pass(scope), s';
      }
      if v.kind.Error? {
        return Fail, s';
      }
      if v.kind.Status? {
        if v.loopId.Some? {
          loopId := v.loopId;
        }
        if Successor(lastCompletedTurnGen, v) {
          log := log + [Forgot, Released];
          return HandOver, s';
        }
        return Pass(if v.loopId.Some? then v.loopId else scope), s';
      }
      if v.kind.Event? && !v.dropped {
        log := log + [Entry.Drained(v)];
        return Emit(v.chunk), s';
      }
      return Pass(scope), s';
    }

    /** `_drain_stream_events_after_idle`: chunks that trail a terminal, until the window closes,
        the stream ends, a daemon error arrives, or a successor turn is met and put back. The drain
        looks at no deadline of the call; `late` says whether one passed meanwhile. */
    method DrainStreamEventsAfterIdle(ghost s: Reader, scope: Option<string>)
      returns (chunks: seq<Chunk>, sawSuccessor: bool, ending: Option<Outcome>, late: bool, ghost s': Reader)
      requires s.phase == Draining(scope) && !s.late && Mirrors(s)
      modifies this`loopId, this`feed, this`log
      ensures |feed| <= |old(feed)|
      ensures loopId == s'.loopId && log == s'.log
      ensures Serve(s, old(feed), drop) == Serve(s', feed, drop)
      ensures DrainedTo(s, s', chunks, sawSuccessor, ending, late)
      ensures !sawSuccessor && ending.None? ==> feed == []
    {
      hide Step;
      hide ChunksOf;
      hide Serve;
      hide VerdictOn;
      hide LookAt;
      hide Unwrap;
      hide Hands;
      hide Handover;
      chunks, sawSuccessor, ending, late := [], false, None, false;
      var exp := scope;
      s' := s;
      DrainsStart(s);
      hide Drains;
      hide DrainedTo;
      while feed != []
        invariant |feed| <= |old(feed)|
        invariant Drains(s, s', chunks, exp, late) && Mirrors(s')
        invariant Serve(s, old(feed), drop) == Serve(s', feed, drop)
        decreases |feed|
      {
        ghost var now, before := s', feed;
        ServeDrain(s', feed, drop);
        DrainsSay(s, s', chunks, exp, late);
        var arrival := feed[0];
        feed := feed[1..];
        if arrival.TimeUp? {
          DrainNotesDeadline(s');
          DrainsLate(s, s', chunks, exp, late);
          late, s' := true, s'.(late := true);
          continue;
        }
        if !arrival.Frame? {
          QuietEnds(s', Seen(arrival, drop));
          DrainsToQuiet(s, s', chunks, exp, late);
          s' := Finish(s', TurnEnded);
          ending := Some(TurnEnded);
          return;
        }
        var v := LookAt(Unwrap(arrival.fields), drop);
        var verdict;
        verdict, s' := DrainFrame(s', exp, v);
        DrainsOn(s, now, v, chunks, exp, late);
        match verdict {
          case Pass(loop) =>
            exp := loop;
          case Emit(chunk) =>
            chunks := chunks + [chunk];
          case Fail =>
            ending := Some(DaemonError);
            return;
          case HandOver =>
            feed := [arrival] + feed;
            assert feed == before;
            sawSuccessor := true;
            return;
        }
      }
      DrainsSay(s, s', chunks, exp, late);
    }

    /** One frame of the main loop. The local and the field holding the expected turn id are
        always assigned together and are one field here. */
    method ReadFrame(ghost s: Reader, locals: Locals, v: View)
      returns (after: Locals, emitted: seq<Chunk>, verdict: Progressed, ghost s': Reader)
      requires s.phase.Reading? && Mirrors(s) && locals == LocalsOf(s)
      modifies this`loopId, this`lastTurnEndSeq, this`lastCompletedTurnGen, this`expectedTurnId,
               this`cancellationSeen, this`log
      ensures s' == ReadStep(s, v) && Mirrors(s') && after == LocalsOf(s')
      ensures ChunksOf(s'.log) == ChunksOf(s.log) + emitted
      ensures Goes(s, s', verdict)
    {
      hide ReadEvent;
      hide ReadStatus;
      hide ChunksOf;
      hide WrongTurn;
      hide OtherLoop;
      hide AtOrBelow;
      s' := ReadStep(s, v);
      after, emitted, verdict := locals, [], Continue;
      assert ChunksOf(s.log) + [] == ChunksOf(s.log);
      if OtherLoop(locals.scope, v) || AtOrBelow(locals.entryFloor, v) || WrongTurn(expectedTurnId, v) {
        return;
      }
      match v.kind {
        case Error =>
          verdict := Errored;
        case Status =>
          after, verdict := ReadStatusFrame(s, locals, v);
        case CommandResponse =>
          if v.cancelAck {
            cancellationSeen := true;
            log := log + [CancelSeen(v)];
            ChunksAfter(s.log, CancelSeen(v));
          }
        case Event =>
          after, emitted, verdict := ReadEventFrame(s, locals, v);
        case Other =>
      }
    }

    /** The status branch: bind a running turn, or accept a terminal. */
    method ReadStatusFrame(ghost s: Reader, locals: Locals, v: View) returns (after: Locals, verdict: Progressed)
      requires s.phase.Reading? && Mirrors(s) && locals == LocalsOf(s)
      modifies this`loopId, this`lastTurnEndSeq, this`lastCompletedTurnGen, this`expectedTurnId, this`log
      ensures Mirrors(ReadStatus(s, v)) && after == LocalsOf(ReadStatus(s, v))
      ensures ChunksOf(ReadStatus(s, v).log) == ChunksOf(s.log)
      ensures Goes(s, ReadStatus(s, v), verdict)
    {
      hide BindTurn;
      hide AcceptTerminal;
      hide ShouldBind;
      hide StatusTerminalAllowed;
      hide ChunksOf;
      hide Terminal;
      after, verdict := locals, Continue;
      ghost var scoped := s;
      if v.loopId.Some? {
        loopId := v.loopId;
        after := after.(scope := v.loopId);
        scoped := s.(loopId := v.loopId, scope := v.loopId);
      }
      if v.state == "running" {
        if v.turn.None? {
          after := after.(started := true);
        } else if ShouldBind(v.turn, expectedTurnId, lastCompletedTurnGen) {
          after := BindRunning(scoped, after, v);
        }
      } else if locals.started && Terminal(v) {
        if StatusTerminalAllowed(expectedTurnId, v.turn, locals.started, locals.progress, cancellationSeen) {
          RaiseFloors(scoped, v);
          verdict := TurnOver;
        }
      }
    }

    /** Bind the running turn; a different earlier binding loses its progress. */
    method BindRunning(ghost s: Reader, locals: Locals, v: View) returns (after: Locals)
      requires s.phase.Reading? && Mirrors(s) && locals == LocalsOf(s)
      modifies this`expectedTurnId, this`log
      ensures Mirrors(BindTurn(s, v)) && after == LocalsOf(BindTurn(s, v))
      ensures ChunksOf(BindTurn(s, v).log) == ChunksOf(s.log)
      ensures Goes(s, BindTurn(s, v), Continue)
    {
      hide ChunksOf;
      after := locals.(started := true);
      if expectedTurnId.Some? && v.turn != expectedTurnId {
        after := after.(progress := false);
        ChunksAfter(log, Forgot);
        log := log + [Forgot];
      }
      expectedTurnId := v.turn;
      ChunksAfter(log, BoundTo(v));
      log := log + [BoundTo(v)];
    }

    /** The event branch: hand out a chunk, and let a permitted turn-end payload end the turn. */
    method ReadEventFrame(ghost s: Reader, locals: Locals, v: View)
      returns (after: Locals, emitted: seq<Chunk>, verdict: Progressed)
      requires s.phase.Reading? && Mirrors(s) && locals == LocalsOf(s)
      modifies this`lastTurnEndSeq, this`lastCompletedTurnGen, this`cancellationSeen, this`log
      ensures Mirrors(ReadEvent(s, v)) && after == LocalsOf(ReadEvent(s, v))
      ensures ChunksOf(ReadEvent(s, v).log) == ChunksOf(s.log) + emitted
      ensures Goes(s, ReadEvent(s, v), verdict)
    {
      hide AcceptTerminal;
      hide TurnTerminalAllowed;
      hide ChunksOf;
      after, emitted, verdict := locals, [], Continue;
      assert ChunksOf(s.log) + [] == ChunksOf(s.log);
      if v.dropped || (v.turnEnd && !TurnTerminalAllowed(expectedTurnId, v.endTurn, locals.started, locals.progress)) {
        return;
      }
      emitted := [v.chunk];
      ChunksAfter(log, Yielded(v));
      log := log + [Yielded(v)];
      if !v.turnEnd {
        after := locals.(progress := locals.progress || v.progress);
        return;
      }

      ghost var marked := Noted(s, Yielded(v));
      if v.streamEnd && v.cancelReason {
        cancellationSeen := true;
        ChunksAfter(log, CancelSeen(v));
        log := log + [CancelSeen(v)];
        marked := Noted(marked.(cancelled := true), CancelSeen(v));
      }
      RaiseFloors(marked, v);
      verdict := TurnOver;
    }

    /** Both floors rise to an accepted terminal. */
    method RaiseFloors(ghost s: Reader, v: View)
      requires s.phase.Reading? && Mirrors(s)
      modifies this`lastTurnEndSeq, this`lastCompletedTurnGen, this`log
      ensures Mirrors(AcceptTerminal(s, v)) && LocalsOf(AcceptTerminal(s, v)) == LocalsOf(s)
      ensures ChunksOf(AcceptTerminal(s, v).log) == ChunksOf(s.log)
      ensures Goes(s, AcceptTerminal(s, v), TurnOver)
    {
      hide ChunksOf;
      hide ParseTurnGeneration;
      if v.seqNo.Some? {
        lastTurnEndSeq := Max(lastTurnEndSeq, v.seqNo.value);
      }
      NoteCompletedTurnGen(expectedTurnId);
      ChunksAfter(log, Accepted(v, expectedTurnId));
      log := log + [Accepted(v, expectedTurnId)];
    }

    /** After an accepted terminal: drain, then end the call or go on unbound with the successor. */
    method CloseTurn(ghost s: Reader, locals: Locals)
      returns (after: Locals, chunks: seq<Chunk>, ended: bool, outcome: Option<Outcome>, ghost s': Reader)
      requires s.phase == Draining(locals.scope) && s.outcome == None && !s.late && Mirrors(s) && locals == LocalsOf(s)
      modifies this`loopId, this`feed, this`log, this`expectedTurnId
      ensures |feed| <= |old(feed)|
      ensures ChunksOf(s'.log) == ChunksOf(s.log) + chunks
      ensures Mirrors(s') && after == LocalsOf(s') && outcome == s'.outcome
      ensures if ended then Serve(s, old(feed), drop) == Served(s', feed) && (outcome == None ==> feed == [])
              else s'.phase.Reading? && !s'.late && outcome == None
                   && Serve(s, old(feed), drop) == Serve(s', feed, drop)
    {
      hide Step;
      hide ChunksOf;
      hide Serve;
      var sawSuccessor, late;
      chunks, sawSuccessor, outcome, late, s' := DrainStreamEventsAfterIdle(s, locals.scope);
      after, ended := locals, !sawSuccessor;
      if sawSuccessor {
        after := after.(progress := false);
        expectedTurnId := None;
        if late {                          // the check at the head of the main loop
          ended, outcome := true, Some(TimedOut);
        }
      }
      if ended {
        ServeOver(s', feed, drop);
      }
    }

    /** `iter_turn_chunks`: one call, run to its end or until nothing more has arrived. The chunks
        and the outcome are exactly those of the transition system on the same frames. */
    method IterTurnChunks() returns (chunks: seq<Chunk>, outcome: Option<Outcome>, ghost end: Reader)
      modifies this
      ensures Served(end, feed) == Serve(OpenCall(old(AtRest())), old(feed), drop)
      ensures Mirrors(end) && outcome == end.outcome && (outcome == None ==> feed == [])
      ensures ChunksOf(end.log) == ChunksOf(old(log)) + chunks
      ensures chunks == HandedOut(OpenCall(old(AtRest())), MetBy(OpenCall(old(AtRest())), old(feed), drop))
      ensures OpenCall(AtRest()) == OpenCall(end)       // a later call goes on from there
    {
      hide Step;
      hide ChunksOf;
      hide Serve;
      hide MetBy;
      hide HandedOut;
      hide ReadStep;
      hide LookAt;
      hide Unwrap;
      ghost var start := OpenCall(old(AtRest()));
      end := start;
      expectedTurnId, cancellationSeen := None, false;
      log := log + [Opened];
      ChunksAfter(old(log), Opened);
      chunks, outcome := [], None;
      CallHandsOut(old(log), start, old(feed), drop);
      assert ChunksOf(old(log)) + [] == ChunksOf(old(log));
      var locals := Locals(loopId, lastTurnEndSeq, false, false);
      while feed != []
        invariant end.phase.Reading? && !end.late && end.outcome == None && outcome == None
        invariant Mirrors(end) && locals == LocalsOf(end)
        invariant ChunksOf(end.log) == ChunksOf(old(log)) + chunks
        invariant Serve(start, old(feed), drop) == Serve(end, feed, drop)
        decreases |feed|
      {
        ServeNext(end, feed, drop);
        var arrival := feed[0];
        feed := feed[1..];
        if arrival.DrainOver? {
          MainIgnoresQuiet(end);
          continue;
        }
        if arrival.TimeUp? {
          MainTimesOut(end);
          outcome := Some(TimedOut);
          end := Finish(end, TimedOut);
          ServeOver(end, feed, drop);
          return;
        }
        if arrival.Eof? {
          MainCloses(end, arrival.alive);
          outcome := Some(if locals.started && !arrival.alive then ConnectionLost else NoMoreEvents);
          end := Finish(end, outcome.value);
          ServeOver(end, feed, drop);
          return;
        }
        var v := LookAt(Unwrap(arrival.fields), drop);
        MainReads(end, v);
        var emitted, verdict;
        locals, emitted, verdict, end := ReadFrame(end, locals, v);
        ChunksJoin(ChunksOf(old(log)), chunks, emitted);
        chunks := chunks + emitted;
        if verdict.Errored? {
          outcome := Some(DaemonError);
          ServeOver(end, feed, drop);
          return;
        }
        if verdict.TurnOver? {
          var more, ended;
          locals, more, ended, outcome, end := CloseTurn(end, locals);
          ChunksJoin(ChunksOf(old(log)), chunks, more);
          chunks := chunks + more;
          if ended {
            return;
          }
        }
      }
      ServeOver(end, feed, drop);
    }
  }

  datatype Locals = Locals(scope: Option<string>, entryFloor: nat, started: bool, progress: bool)

  datatype Progressed = Continue | TurnOver | Errored

  /** Where the main loop stands after a frame. */
  predicate Goes(s: Reader, s': Reader, verdict: Progressed) {
    match verdict
    case Continue => s'.phase == s.phase && s'.outcome == s.outcome && s'.late == s.late
    case TurnOver => s'.phase == Draining(s'.scope) && s'.outcome == s.outcome && s'.late == s.late
    case Errored => s'.phase == Idle && s'.outcome == Some(DaemonError)
  }

  function LocalsOf(s: Reader): Locals {
    Locals(s.scope, s.entryFloor, s.started, s.progress)
  }

  /** What the drain does with a frame. */
  datatype Verdict = Pass(scope: Option<string>) | Emit(chunk: Chunk) | Fail | HandOver

  function VerdictOn(s: Reader, v: View): Verdict
    requires s.phase.Draining?
  {
    if OtherLoop(s.phase.scope, v) then Pass(s.phase.scope)
    else if v.kind.Error? then Fail
    else if v.kind.Status? then
      if Successor(s.genFloor, v) then HandOver
      else Pass(if v.loopId.Some? then v.loopId else s.phase.scope)
    else if v.kind.Event? && !v.dropped then Emit(v.chunk)
    else Pass(s.phase.scope)
  }

  /** Session fields and locals a drain leaves alone. */
  ghost predicate DrainKeeps(s: Reader, s': Reader) {
    && s'.seqFloor == s.seqFloor && s'.genFloor == s.genFloor && s'.cancelled == s.cancelled
    && s'.scope == s.scope && s'.entryFloor == s.entryFloor && s'.started == s.started
  }

  lemma VerdictReads(s: Reader, v: View)
    requires s.phase.Draining?
    ensures Hands(s, v) <==> VerdictOn(s, v).HandOver?
    ensures var s' := Step(s, Msg(v));
      match VerdictOn(s, v)
      case Pass(scope) =>
        && DrainKeeps(s, s') && s'.bound == s.bound && s'.progress == s.progress
        && s'.phase == Draining(scope) && s'.outcome == s.outcome && s'.late == s.late
        && s'.log == s.log && ChunksOf(s'.log) == ChunksOf(s.log)
      case Emit(chunk) =>
        && DrainKeeps(s, s') && s'.bound == s.bound && s'.progress == s.progress
        && s'.phase == s.phase && s'.outcome == s.outcome && s'.late == s.late
        && ChunksOf(s'.log) == ChunksOf(s.log) + [chunk]
      case Fail =>
        && DrainKeeps(s, s') && s'.bound == s.bound && s'.progress == s.progress
        && s'.phase == Idle && s'.outcome == Some(DaemonError) && s'.log == s.log
      case HandOver =>
        Hands(s, v) && ChunksOf(Handover(s, v).log) == ChunksOf(s.log)
  {
    hide ParseTurnGeneration;
    hide ReadStep;
    hide OtherLoop;
    hide ChunksOf;
    ChunksAfter(s.log, Entry.Drained(v));
    ChunksAfter(s.log, Forgot);
    ChunksAfter(s.log + [Forgot], Released);
    assert s.log + [Forgot, Released] == s.log + [Forgot] + [Released];
  }

  /** The frame of a successor stays the next to be read: by the main loop, unbound, or, if a
      deadline passed during the drain, by the next call. */
  lemma HandoverRereads(s: Reader, v: View)
    requires s.phase.Draining? && Hands(s, v)
    ensures DrainKeeps(s, Handover(s, v))
    ensures Handover(s, v).bound == None && !Handover(s, v).progress && Handover(s, v).late == s.late
    ensures Step(s, Msg(v)) == Handover(s, v)
    ensures if s.late then Handover(s, v).phase.Idle? && Handover(s, v).outcome == Some(TimedOut)
            else Handover(s, v).phase.Reading? && Handover(s, v).outcome == s.outcome
    ensures forall f: FrameMap, rest, drop | LookAt(Unwrap(f), drop) == v ::
      Serve(s, [Frame(f)] + rest, drop) == if s.late then Served(Handover(s, v), [Frame(f)] + rest)
                                          else Serve(ReadStep(Handover(s, v), v), rest, drop)
  {
    hide ReadStep;
    hide ParseTurnGeneration;
  }

  /** The drain so far: chunks handed out, and the rest of the session as it was. */
  ghost predicate Drains(s: Reader, now: Reader, chunks: seq<Chunk>, scope: Option<string>, late: bool) {
    && now.phase == Draining(scope) && now.late == late && DrainKeeps(s, now)
    && now.bound == s.bound && now.progress == s.progress && now.outcome == s.outcome
    && ChunksOf(now.log) == ChunksOf(s.log) + chunks
  }

  /** Where a drain ends: with a successor put back, on which the call goes on or, when a deadline has
      passed, times out; with the call; or with nothing more to read. */
  ghost predicate DrainedTo(s: Reader, s': Reader, chunks: seq<Chunk>, sawSuccessor: bool, ending: Option<Outcome>,
                            late: bool) {
    && DrainKeeps(s, s') && ChunksOf(s'.log) == ChunksOf(s.log) + chunks
    && (if sawSuccessor then
          && ending == None && s'.bound == None && !s'.progress && s'.late == late
          && (if late then s'.phase.Idle? && s'.outcome == Some(TimedOut)
              else s'.phase.Reading? && s'.outcome == s.outcome)
        else
          && s'.bound == s.bound && s'.progress == s.progress
          && (if ending.Some? then s'.phase.Idle? && s'.outcome == ending
              else s'.phase.Draining? && s'.outcome == s.outcome))
  }

  lemma DrainsStart(s: Reader)
    requires s.phase.Draining? && !s.late
    ensures Drains(s, s, [], s.phase.scope, false)
  {
    hide ChunksOf;
    assert ChunksOf(s.log) + [] == ChunksOf(s.log);
  }

  lemma DrainsSay(s: Reader, now: Reader, chunks: seq<Chunk>, scope: Option<string>, late: bool)
    requires Drains(s, now, chunks, scope, late)
    ensures now.phase == Draining(scope) && DrainedTo(s, now, chunks, false, None, late)
  {
    hide ChunksOf;
  }

  lemma DrainsToQuiet(s: Reader, now: Reader, chunks: seq<Chunk>, scope: Option<string>, late: bool)
    requires Drains(s, now, chunks, scope, late)
    ensures DrainedTo(s, Finish(now, TurnEnded), chunks, false, Some(TurnEnded), late)
  {
    hide ChunksOf;
  }

  lemma DrainsLate(s: Reader, now: Reader, chunks: seq<Chunk>, scope: Option<string>, late: bool)
    requires Drains(s, now, chunks, scope, late)
    ensures Drains(s, now.(late := true), chunks, scope, true)
  {
    hide ChunksOf;
  }

  /** What one frame of the drain makes of it. */
  lemma DrainsOn(s: Reader, now: Reader, v: View, chunks: seq<Chunk>, scope: Option<string>, late: bool)
    requires Drains(s, now, chunks, scope, late)
    ensures VerdictOn(now, v).HandOver? <==> Hands(now, v)
    ensures match VerdictOn(now, v)
      case Pass(loop) => Drains(s, Step(now, Msg(v)), chunks, loop, late)
      case Emit(chunk) => Drains(s, Step(now, Msg(v)), chunks + [chunk], scope, late)
      case Fail => DrainedTo(s, Step(now, Msg(v)), chunks, false, Some(DaemonError), late)
      case HandOver => DrainedTo(s, Handover(now, v), chunks, true, None, late)
  {
    hide ChunksOf;
    hide Step;
    hide Hands;
    hide Handover;
    VerdictReads(now, v);
    match VerdictOn(now, v) {
      case Emit(chunk) => ChunksJoin(ChunksOf(s.log), chunks, [chunk]);
      case HandOver => HandoverRereads(now, v);
      case _ =>
    }
    hide VerdictOn;
  }

  /** The loop id and the log after a frame of the drain. */
  lemma DrainWrites(s: Reader, v: View)
    requires s.phase.Draining?
    ensures var s' := Step(s, Msg(v));
      && (Hands(s, v) ==> s' == Handover(s, v))
      && s'.loopId == (if !OtherLoop(s.phase.scope, v) && v.kind.Status? && v.loopId.Some? then v.loopId else s.loopId)
      && s'.log == (if OtherLoop(s.phase.scope, v) then s.log
                    else if Hands(s, v) then s.log + [Forgot, Released]
                    else if v.kind.Event? && !v.dropped then s.log + [Entry.Drained(v)]
                    else s.log)
  {
    hide Step;
    hide OtherLoop;
    hide ParseTurnGeneration;
    DrainReads(s, v);
  }

  lemma DrainReads(s: Reader, v: View)
    requires s.phase.Draining?
    ensures Step(s, Msg(v)) == if Hands(s, v) then Handover(s, v) else DrainStep(s, v)
  {
    hide Handover;
    hide Hands;
    hide DrainStep;
  }

  lemma QuietEnds(s: Reader, i: Input)
    requires s.phase.Draining? && (i.Quiet? || i.Closed?)
    ensures Step(s, i) == Finish(s, TurnEnded)
  {
  }

  lemma MainIgnoresQuiet(s: Reader)
    requires s.phase.Reading?
    ensures Step(s, Quiet) == s
  {
  }

  lemma DrainNotesDeadline(s: Reader)
    requires s.phase.Draining?
    ensures Step(s, Expired) == s.(late := true)
  {
  }

  lemma MainTimesOut(s: Reader)
    requires s.phase.Reading?
    ensures Step(s, Expired) == Finish(s, TimedOut)
  {
  }

  lemma MainCloses(s: Reader, alive: bool)
    requires s.phase.Reading?
    ensures Step(s, Closed(alive)) == Finish(s, if s.started && !alive then ConnectionLost else NoMoreEvents)
  {
  }

  lemma MainReads(s: Reader, v: View)
    requires s.phase.Reading?
    ensures Step(s, Msg(v)) == ReadStep(s, v)
  {
    hide ReadStep;
  }
}
