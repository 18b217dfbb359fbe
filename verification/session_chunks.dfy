/** Which frames a session hands out, binds to and remembers: the log of any run read from the frames
    alone (`appkit/daemon_session.py`). */
module SessionChunks {
  import opened PythonText
  import opened TurnGates
  import opened Frames
  import opened SessionReader
  import opened SessionTheorems

  /** The chunks handed to the caller, in order. */
  function ChunksOf(log: seq<Entry>): seq<Chunk> {
    if log == [] then []
    else
      var n := |log| - 1;
      match log[n]
      case Yielded(v) => ChunksOf(log[..n]) + [v.chunk]
      case Drained(v) => ChunksOf(log[..n]) + [v.chunk]
      case _ => ChunksOf(log[..n])
  }

  lemma ChunksAfter(log: seq<Entry>, e: Entry)
    ensures ChunksOf(log + [e])
         == ChunksOf(log) + (if e.Yielded? || e.Drained? then [e.v.chunk] else [])
  {
    assert (log + [e])[..|log|] == log;
  }

  lemma ChunksJoin(a: seq<Chunk>, b: seq<Chunk>, c: seq<Chunk>)
    ensures a + b + c == a + (b + c)
  {
  }

  // ---------------------------------------------------------------- what is handed out

  /** An event of this loop, or of none, that no filter holds back. */
  predicate Passes(s: Reader, v: View) {
    && v.kind.Event? && !v.dropped
    && (s.scope.Some? && v.loopId.Some? ==> v.loopId.value == s.scope.value)
    && (v.seqNo.Some? && s.entryFloor > 0 ==> v.seqNo.value > s.entryFloor)
  }

  /** The main loop hands out every such event of the bound turn, and of any turn while none is bound;
      a turn end only when it ends the turn. The drain hands out every kept event of the loop. */
  predicate HandsOut(s: Reader, v: View) {
    match s.phase
    case Idle => false
    case Reading =>
      && Passes(s, v)
      && (s.bound.Some? ==> TurnText(v.turn) != "" && TurnText(v.turn) == TurnText(s.bound))
      && (v.turnEnd ==> Ends(v, s.bound, s.progress, s.cancelled))
    case Draining(scope) =>
      v.kind.Event? && !v.dropped && (scope.Some? && v.loopId.Some? ==> v.loopId.value == scope.value)
  }

  /** The chunks of the frames that are handed out, in order. */
  function HandedOut(s: Reader, inputs: seq<Input>): seq<Chunk>
    decreases |inputs|
  {
    if inputs == [] then []
    else ChunkOf(s, inputs[0]) + HandedOut(Step(s, inputs[0]), inputs[1..])
  }

  function ChunkOf(s: Reader, i: Input): seq<Chunk> {
    if i.Msg? && HandsOut(s, i.v) then [i.v.chunk] else []
  }

  lemma EventHandsOut(s: Reader, v: View)
    requires s.phase.Reading? && StartedIfBound(s) && v.kind.Event? && !Skipped(s, v)
    ensures var kept := !v.dropped && (v.turnEnd ==> Ends(v, s.bound, s.progress, s.cancelled));
      ChunksOf(ReadEvent(s, v).log) == ChunksOf(s.log) + if kept then [v.chunk] else []
  {
    var yielded := Noted(s, Yielded(v));
    var marked := Noted(yielded.(cancelled := true), CancelSeen(v));
    ChunksAfter(s.log, Yielded(v));
    ChunksAfter(yielded.log, CancelSeen(v));
    AcceptShows(yielded, v);
    AcceptShows(marked, v);
    ChunksAfter(yielded.log, Accepted(v, yielded.bound));
    ChunksAfter(marked.log, Accepted(v, marked.bound));
    MatchMeansText(s.bound, v.endTurn);
    assert ChunksOf(s.log) + [] == ChunksOf(s.log);
    hide AcceptTerminal;
    hide ChunksOf;
    hide Skipped;
    hide TurnText;
    hide TurnIdsMatch;
  }

  lemma StatusHandsOutNothing(s: Reader, v: View)
    ensures ChunksOf(ReadStatus(s, v).log) == ChunksOf(s.log)
  {
    var scoped := if v.loopId.Some? then s.(loopId := v.loopId, scope := v.loopId) else s;
    AcceptShows(scoped, v);
    ChunksAfter(s.log, Accepted(v, s.bound));
    BindHandsOutNothing(scoped, v);
    hide AcceptTerminal;
    hide BindTurn;
    hide ChunksOf;
    hide ShouldBind;
    hide StatusTerminalAllowed;
  }

  lemma BindHandsOutNothing(s: Reader, v: View)
    ensures ChunksOf(BindTurn(s, v).log) == ChunksOf(s.log)
  {
    ChunksAfter(s.log, Forgot);
    ChunksAfter(s.log + [Forgot], BoundTo(v));
    ChunksAfter(s.log, BoundTo(v));
    hide ChunksOf;
  }

  /** An event is skipped exactly when a filter holds it back. */
  lemma SkippedEvents(s: Reader, v: View)
    requires v.kind.Event? && !v.dropped
    ensures !Skipped(s, v)
       <==> Passes(s, v) && (s.bound.Some? ==> TurnText(v.turn) != "" && TurnText(v.turn) == TurnText(s.bound))
  {
    hide TurnText;
  }

  lemma ReadHandsOut(s: Reader, v: View)
    requires s.phase.Reading? && StartedIfBound(s)
    ensures ChunksOf(ReadStep(s, v).log) == ChunksOf(s.log) + ChunkOf(s, Msg(v))
  {
    assert ChunksOf(s.log) + [] == ChunksOf(s.log);
    if v.kind.Event? && !v.dropped {
      SkippedEvents(s, v);
    }
    StatusHandsOutNothing(s, v);
    ChunksAfter(s.log, CancelSeen(v));
    if v.kind.Event? && !Skipped(s, v) {
      EventHandsOut(s, v);
    }
    hide ReadStatus;
    hide ReadEvent;
    hide ChunksOf;
    hide Skipped;
    hide Ends;
    hide TurnText;
  }

  lemma DrainHandsOut(s: Reader, v: View)
    requires s.phase.Draining?
    ensures ChunksOf(Step(s, Msg(v)).log) == ChunksOf(s.log) + ChunkOf(s, Msg(v))
  {
    KeptHandsOut(s, v);
    SuccessorHandsOutNothing(s, v);
    hide Handover;
    hide DrainStep;
    hide ChunksOf;
    hide ReadStep;
    hide ChunkOf;
    hide ParseTurnGeneration;
  }

  lemma KeptHandsOut(s: Reader, v: View)
    requires s.phase.Draining?
    ensures ChunksOf(DrainStep(s, v).log) == ChunksOf(s.log) + ChunkOf(s, Msg(v))
  {
    hide ChunksOf;
    ChunksAfter(s.log, Drained(v));
    assert ChunksOf(s.log) + [] == ChunksOf(s.log);
    if HandsOut(s, v) {
      assert DrainStep(s, v) == Noted(s, Drained(v));
    } else {
      assert DrainStep(s, v).log == s.log;
    }
  }

  lemma SuccessorHandsOutNothing(s: Reader, v: View)
    requires s.phase.Draining?
    ensures Hands(s, v) ==> ChunksOf(Handover(s, v).log) == ChunksOf(s.log) + ChunkOf(s, Msg(v))
  {
    ChunksAfter(s.log, Forgot);
    ChunksAfter(s.log + [Forgot], Released);
    assert s.log + [Forgot, Released] == s.log + [Forgot] + [Released];
    assert ChunksOf(s.log) + [] == ChunksOf(s.log);
    hide ChunksOf;
    hide ParseTurnGeneration;
  }

  lemma StepHandsOut(s: Reader, i: Input)
    requires StartedIfBound(s)
    ensures ChunksOf(Step(s, i).log) == ChunksOf(s.log) + ChunkOf(s, i)
  {
    assert ChunksOf(s.log) + [] == ChunksOf(s.log);
    ChunksAfter(s.log, Opened);
    ChunksAfter(s.log, FloorReset);
    if i.Msg? && s.phase.Reading? {
      Reads(s, i.v);
      ReadHandsOut(s, i.v);
      hide Step;
    } else if i.Msg? && s.phase.Draining? {
      DrainHandsOut(s, i.v);
      hide Step;
    }
    hide ChunksOf;
    hide ReadStep;
  }

  /** Over any run, calls and drains and successors included, the chunks handed out are exactly those
      of the frames that pass, each once and in order. */
  lemma {:induction false} ChunksAreThoseThatPass(s: Reader, inputs: seq<Input>)
    requires StartedIfBound(s)
    ensures ChunksOf(Run(s, inputs).log) == ChunksOf(s.log) + HandedOut(s, inputs)
    decreases |inputs|
  {
    hide ChunksOf;
    hide Step;
    hide ChunkOf;
    hide StartedIfBound;
    if inputs == [] {
      assert ChunksOf(s.log) + [] == ChunksOf(s.log);
    } else {
      StepStarts(s, inputs[0]);
      StepHandsOut(s, inputs[0]);
      ChunksAreThoseThatPass(Step(s, inputs[0]), inputs[1..]);
      ChunksJoin(ChunksOf(s.log), ChunkOf(s, inputs[0]), HandedOut(Step(s, inputs[0]), inputs[1..]));
    }
  }

  // ---------------------------------------------------------------- the same from the log

  /** The step adds this entry. */
  ghost predicate Adds(s: Reader, s': Reader, e: Entry) {
    exists k :: |s.log| <= k < |s'.log| && s'.log[k] == e
  }

  /** After any run, the frame read next is handed out if and only if it is an event of the loop that is
      kept and above the floor of the call, names the turn that the log shows bound, if any, and, when
      it is a turn end, ends that turn. */
  lemma YieldedExactlyWhen(inputs: seq<Input>, v: View)
    requires Faithful(inputs) && Run(Fresh(), inputs).phase.Reading?
    ensures var s := Run(Fresh(), inputs);
      var log, n := s.log, |s.log|;
      Adds(s, Step(s, Msg(v)), Yielded(v))
      <==> (&& Passes(s, v)
            && (forall id :: BoundEarlier(log, n, Some(id)) ==>
                  TurnText(v.turn) != "" && TurnText(v.turn) == TurnText(Some(id)))
            && (v.turnEnd ==>
                  (exists id :: BoundEarlier(log, n, Some(id))
                     && Ends(v, Some(id), ProgressEarlier(log, n), CancelledEarlier(log, n)))))
  {
    hide Run;
    hide Passes;
    hide Ends;
    hide Step;
    hide TurnText;
    hide BoundEarlier;
    hide ProgressEarlier;
    hide CancelledEarlier;
    hide Adds;
    var s := Run(Fresh(), inputs);
    RunTracks(Fresh(), inputs);
    RunStarts(Fresh(), inputs);
    YieldsWhenHandedOut(s, v);
    NeedsABinding(v, s);
    forall id: string
      ensures BoundEarlier(s.log, |s.log|, Some(id)) <==> s.bound == Some(id)
      ensures ProgressEarlier(s.log, |s.log|) <==> s.progress
      ensures CancelledEarlier(s.log, |s.log|) <==> s.cancelled
    {
      FlagsAreHistory(s, Some(id));
    }
    FlagsAreHistory(s, Some(""));
  }

  lemma YieldsWhenHandedOut(s: Reader, v: View)
    requires s.phase.Reading? && StartedIfBound(s)
    ensures Adds(s, Step(s, Msg(v)), Yielded(v)) <==> HandsOut(s, v)
  {
    Reads(s, v);
    if v.kind.Event? && !v.dropped {
      SkippedEvents(s, v);
    }
    if v.kind.Event? {
      EventYields(s, v);
    } else {
      NoYieldElsewhere(s, v);
    }
    hide Step;
    hide ReadStep;
    hide ReadEvent;
    hide Skipped;
    hide Ends;
    hide TurnText;
    hide Adds;
  }

  lemma EventYields(s: Reader, v: View)
    requires s.phase.Reading? && StartedIfBound(s) && v.kind.Event?
    ensures Adds(s, ReadStep(s, v), Yielded(v))
       <==> !Skipped(s, v) && !v.dropped && (v.turnEnd ==> Ends(v, s.bound, s.progress, s.cancelled))
  {
    MatchMeansText(s.bound, v.endTurn);
    var s', yielded := ReadStep(s, v), Noted(s, Yielded(v));
    AcceptShows(yielded, v);
    AcceptShows(Noted(yielded.(cancelled := true), CancelSeen(v)), v);
    hide AcceptTerminal;
    hide Skipped;
    hide TurnText;
    hide TurnIdsMatch;
    if !Skipped(s, v) && !v.dropped && (v.turnEnd ==> Ends(v, s.bound, s.progress, s.cancelled)) {
      assert s'.log[|s.log|] == Yielded(v);
    }
  }

  lemma NoYieldElsewhere(s: Reader, v: View)
    requires !v.kind.Event?
    ensures !Adds(s, ReadStep(s, v), Yielded(v))
  {
    hide Skipped;
    hide ReadStatus;
    StatusYieldsNothing(s, v);
  }

  lemma StatusYieldsNothing(s: Reader, v: View)
    ensures !Adds(s, ReadStatus(s, v), Yielded(v))
  {
    var scoped := if v.loopId.Some? then s.(loopId := v.loopId, scope := v.loopId) else s;
    AcceptShows(scoped, v);
    BindYieldsNothing(scoped, v);
    hide AcceptTerminal;
    hide BindTurn;
    hide ShouldBind;
    hide StatusTerminalAllowed;
    hide Terminal;
  }

  lemma BindYieldsNothing(s: Reader, v: View)
    ensures !Adds(s, BindTurn(s, v), Yielded(v))
  {
  }

  /** In a drain, exactly the kept events of the loop are handed out. */
  lemma DrainedExactlyWhen(s: Reader, v: View)
    requires s.phase.Draining?
    ensures Adds(s, Step(s, Msg(v)), Drained(v)) <==> HandsOut(s, v)
  {
    hide ReadStep;
    hide ParseTurnGeneration;
    if HandsOut(s, v) {
      assert Step(s, Msg(v)).log[|s.log|] == Drained(v);
    }
  }

  // ---------------------------------------------------------------- floors

  /** A floor after one more entry: the generation or the number of an accepted terminal raises it. */
  function GenFloorAfter(floor: nat, e: Entry): nat {
    if e.FloorReset? then 0 else if e.Accepted? then RaisedBy(floor, e.bound) else floor
  }

  function SeqFloorAfter(floor: nat, e: Entry): nat {
    if e.FloorReset? then 0
    else if e.Accepted? && e.v.seqNo.Some? then (if floor < e.v.seqNo.value then e.v.seqNo.value else floor)
    else floor
  }

  /** The highest generation that ended since the floors were last reset. */
  function GenFloorIn(log: seq<Entry>): nat {
    if log == [] then 0 else GenFloorAfter(GenFloorIn(log[..|log| - 1]), log[|log| - 1])
  }

  /** The highest number of a terminal accepted since the floors were last reset. */
  function SeqFloorIn(log: seq<Entry>): nat {
    if log == [] then 0 else SeqFloorAfter(SeqFloorIn(log[..|log| - 1]), log[|log| - 1])
  }

  /** That number when the call was opened. */
  function CallFloorIn(log: seq<Entry>): nat {
    if log == [] then 0
    else if log[|log| - 1].Opened? then SeqFloorIn(log[..|log| - 1])
    else CallFloorIn(log[..|log| - 1])
  }

  /** Entries the main loop makes with a frame. */
  predicate OfMainLoop(e: Entry) {
    e.BoundTo? || e.Yielded? || e.CancelSeen? || e.Accepted?
  }

  predicate AboveFloor(before: seq<Entry>, e: Entry) {
    OfMainLoop(e) && e.v.seqNo.Some? && CallFloorIn(before) > 0 ==> e.v.seqNo.value > CallFloorIn(before)
  }

  ghost predicate LogAbove(log: seq<Entry>) {
    forall i :: 0 <= i < |log| ==> AboveFloor(log[..i], log[i])
  }

  /** The floors of the reader are what the log shows, and every entry is above that of its call. */
  ghost predicate Floored(s: Reader) {
    && s.genFloor == GenFloorIn(s.log) && s.seqFloor == SeqFloorIn(s.log) && s.entryFloor == CallFloorIn(s.log)
    && LogAbove(s.log)
  }

  lemma FlooredOne(s: Reader, e: Entry, s': Reader)
    requires Floored(s) && s'.log == s.log + [e]
    requires OfMainLoop(e) ==> !AtOrBelow(s.entryFloor, e.v)
    requires s'.genFloor == GenFloorAfter(s.genFloor, e) && s'.seqFloor == SeqFloorAfter(s.seqFloor, e)
    requires s'.entryFloor == if e.Opened? then s.seqFloor else s.entryFloor
    ensures Floored(s')
  {
    hide RaisedBy;
    NewAbove(s, e);
    FloorsAfter(s.log, e);
    AboveStill(s.log, e);
    hide GenFloorIn;
    hide SeqFloorIn;
    hide CallFloorIn;
    hide AboveFloor;
    hide LogAbove;
    hide OfMainLoop;
    hide AtOrBelow;
  }

  lemma FloorsAfter(log: seq<Entry>, e: Entry)
    ensures GenFloorIn(log + [e]) == GenFloorAfter(GenFloorIn(log), e)
    ensures SeqFloorIn(log + [e]) == SeqFloorAfter(SeqFloorIn(log), e)
    ensures CallFloorIn(log + [e]) == if e.Opened? then SeqFloorIn(log) else CallFloorIn(log)
  {
    hide RaisedBy;
    assert (log + [e])[..|log|] == log;
  }

  lemma AboveStill(log: seq<Entry>, e: Entry)
    requires LogAbove(log) && AboveFloor(log, e)
    ensures LogAbove(log + [e])
  {
    hide AboveFloor;
    var more := log + [e];
    forall i | 0 <= i < |more|
      ensures AboveFloor(more[..i], more[i])
    {
      assert more[..i] == if i < |log| then log[..i] else log;
    }
  }

  lemma NewAbove(s: Reader, e: Entry)
    requires s.entryFloor == CallFloorIn(s.log) && (OfMainLoop(e) ==> !AtOrBelow(s.entryFloor, e.v))
    ensures AboveFloor(s.log, e)
  {
  }

  lemma FlooredAccept(s: Reader, v: View)
    requires Floored(s) && !AtOrBelow(s.entryFloor, v)
    ensures Floored(AcceptTerminal(s, v))
  {
    FlooredOne(s, Accepted(v, s.bound), AcceptTerminal(s, v));
    hide Floored;
    hide ParseTurnGeneration;
  }

  lemma FlooredEvent(s: Reader, v: View)
    requires Floored(s) && !AtOrBelow(s.entryFloor, v)
    ensures Floored(ReadEvent(s, v))
  {
    hide Floored;
    hide AtOrBelow;
    hide TurnTerminalAllowed;
    hide AcceptTerminal;
    var yielded, seen := Noted(s, Yielded(v)), Noted(s.(progress := s.progress || v.progress), Yielded(v));
    FlooredOne(s, Yielded(v), seen);
    FlooredOne(s, Yielded(v), yielded);
    var marked := Noted(yielded.(cancelled := true), CancelSeen(v));
    FlooredOne(yielded, CancelSeen(v), marked);
    FlooredAccept(yielded, v);
    FlooredAccept(marked, v);
  }

  lemma FlooredBind(s: Reader, v: View)
    requires Floored(s) && !AtOrBelow(s.entryFloor, v)
    ensures Floored(BindTurn(s, v))
  {
    hide Floored;
    hide AtOrBelow;
    var cleared := if s.bound.Some? && v.turn != s.bound then Noted(s.(progress := false), Forgot) else s;
    if s.bound.Some? && v.turn != s.bound {
      FlooredOne(s, Forgot, cleared);
    }
    FlooredOne(cleared, BoundTo(v), BindTurn(s, v));
  }

  lemma FlooredStatus(s: Reader, v: View)
    requires Floored(s) && !AtOrBelow(s.entryFloor, v)
    ensures Floored(ReadStatus(s, v))
  {
    var scoped := if v.loopId.Some? then s.(loopId := v.loopId, scope := v.loopId) else s;
    assert Floored(scoped) && Floored(scoped.(started := true));
    hide Floored;
    hide AtOrBelow;
    hide ShouldBind;
    hide StatusTerminalAllowed;
    hide Terminal;
    hide AcceptTerminal;
    hide BindTurn;
    FlooredBind(scoped, v);
    FlooredAccept(scoped, v);
  }

  lemma FlooredAlike(s: Reader, s': Reader)
    requires Floored(s) && s'.log == s.log
    requires s'.genFloor == s.genFloor && s'.seqFloor == s.seqFloor && s'.entryFloor == s.entryFloor
    ensures Floored(s')
  {
  }

  lemma FlooredRead(s: Reader, v: View)
    requires Floored(s)
    ensures Floored(ReadStep(s, v))
  {
    hide Floored;
    hide ReadStatus;
    hide ReadEvent;
    hide WrongTurn;
    hide OtherLoop;
    hide AtOrBelow;
    if !Skipped(s, v) {
      match v.kind {
        case Error => FlooredAlike(s, Finish(s, DaemonError));
        case Status => FlooredStatus(s, v);
        case CommandResponse => FlooredOne(s, CancelSeen(v), Noted(s.(cancelled := true), CancelSeen(v)));
        case Event => FlooredEvent(s, v);
        case Other =>
      }
    }
  }

  lemma FlooredDrain(s: Reader, v: View)
    requires Floored(s) && s.phase.Draining?
    ensures Floored(if Hands(s, v) then Handover(s, v) else DrainStep(s, v))
  {
    hide Floored;
    hide OtherLoop;
    hide Hands;
    if Hands(s, v) {
      var f, h := Noted(s, Forgot), Handover(s, v);
      FlooredOne(s, Forgot, f);
      assert h.log == f.log + [Released];
      FlooredOne(f, Released, h);
    } else if DrainStep(s, v).log == s.log {
      FlooredAlike(s, DrainStep(s, v));
    } else {
      FlooredOne(s, Drained(v), DrainStep(s, v));
    }
  }

  lemma FlooredStep(s: Reader, i: Input)
    requires Floored(s)
    ensures Floored(Step(s, i))
  {
    FlooredOtherwise(s, i);
    if i.Msg? && s.phase.Reading? {
      Reads(s, i.v);
      FlooredRead(s, i.v);
    } else if i.Msg? && s.phase.Draining? {
      FlooredDrain(s, i.v);
    }
    hide Floored;
    hide ReadStep;
    hide Hands;
    hide Handover;
    hide DrainStep;
  }

  lemma FlooredOtherwise(s: Reader, i: Input)
    requires Floored(s)
    ensures !i.Msg? || s.phase.Idle? ==> Floored(Step(s, i))
  {
    hide ReadStep;
    hide Hands;
    hide Floored;
    if !i.Msg? {
      if Step(s, i).log == s.log {
        OtherwiseAlike(s, i);
      } else {
        OtherwiseLogs(s, i);
      }
    }
  }

  lemma OtherwiseAlike(s: Reader, i: Input)
    requires Floored(s) && !i.Msg? && Step(s, i).log == s.log
    ensures Floored(Step(s, i))
  {
    hide ReadStep;
    hide Hands;
    hide Floored;
    FlooredAlike(s, Step(s, i));
  }

  lemma OtherwiseLogs(s: Reader, i: Input)
    requires Floored(s) && !i.Msg? && Step(s, i).log != s.log
    ensures Floored(Step(s, i))
  {
    hide ReadStep;
    hide Hands;
    hide Floored;
    match i {
      case Call => FlooredOne(s, Opened, OpenCall(s));
      case Bootstrapped(loop) =>
        FlooredOne(s, FloorReset, ResetFloors(s.(loopId := loop)));
      case Reconnected => FlooredOne(s, FloorReset, ResetFloors(s));
      case _ =>
    }
  }

  lemma {:induction false} RunIsFloored(s: Reader, inputs: seq<Input>)
    requires Floored(s)
    ensures Floored(Run(s, inputs))
    decreases |inputs|
  {
    hide Floored;
    hide Step;
    if inputs != [] {
      FlooredStep(s, inputs[0]);
      RunIsFloored(Step(s, inputs[0]), inputs[1..]);
    }
  }

  lemma {:induction false} FloorRises(log: seq<Entry>, i: nat, k: nat)
    requires i < k <= |log| && log[i].Accepted? && log[i].v.seqNo.Some?
    requires forall m :: i < m < k ==> !log[m].FloorReset?
    ensures SeqFloorIn(log[..k]) >= log[i].v.seqNo.value
    decreases k
  {
    assert log[..k][..k - 1] == log[..k - 1];
    if i < k - 1 {
      FloorRises(log, i, k - 1);
    }
  }

  lemma {:induction false} CallFloorCovers(log: seq<Entry>, i: nat, j: nat, k: nat)
    requires i < j < k <= |log| && log[i].Accepted? && log[i].v.seqNo.Some? && log[j].Opened?
    requires forall m :: i < m < k ==> !log[m].FloorReset?
    ensures CallFloorIn(log[..k]) >= log[i].v.seqNo.value
    decreases k
  {
    assert log[..k][..k - 1] == log[..k - 1];
    if log[k - 1].Opened? {
      FloorRises(log, i, k - 1);
    } else {
      CallFloorCovers(log, i, j, k - 1);
    }
  }

  /** Over any run: once a terminal with a number ended a turn, no later call hands out, binds, ends or
      cancels by a frame with that number or a lower one, until the floors are reset. */
  lemma NoReplayAfterTerminal(inputs: seq<Input>, i: nat, j: nat, k: nat)
    requires i < j < k < |Run(Fresh(), inputs).log|
    requires var log := Run(Fresh(), inputs).log;
      && log[i].Accepted? && log[i].v.seqNo.Some? && log[i].v.seqNo.value > 0 && log[j].Opened?
      && (forall m :: i < m < k ==> !log[m].FloorReset?)
      && OfMainLoop(log[k]) && log[k].v.seqNo.Some?
    ensures Run(Fresh(), inputs).log[k].v.seqNo.value > Run(Fresh(), inputs).log[i].v.seqNo.value
  {
    hide Run;
    RunIsFloored(Fresh(), inputs);
    var log := Run(Fresh(), inputs).log;
    assert AboveFloor(log[..k], log[k]);
    CallFloorCovers(log, i, j, k);
  }

  // ---------------------------------------------------------------- bindings, hand-overs and endings

  /** Of this loop, or of none, and above the floor of the call. */
  predicate InScope(s: Reader, v: View) {
    && (s.scope.Some? && v.loopId.Some? ==> v.loopId.value == s.scope.value)
    && (v.seqNo.Some? && s.entryFloor > 0 ==> v.seqNo.value > s.entryFloor)
  }

  /** The generation of an id, if it has one, is above this number. */
  predicate Newer(turn: TurnId, than: nat) {
    ParseTurnGeneration(turn).Some? ==> ParseTurnGeneration(turn).value > than
  }

  lemma BindsExactlyWhen(turn: TurnId, bound: TurnId, floor: nat)
    ensures ShouldBind(turn, bound, floor)
       <==> (&& turn.Some? && turn.value != "" && Newer(turn, floor)
             && (ParseTurnGeneration(bound).Some? ==>
                   ParseTurnGeneration(turn).Some?
                   && ParseTurnGeneration(turn).value >= ParseTurnGeneration(bound).value))
  {
    assert ParseTurnGeneration(None) == None by { NoGeneration(); }
    hide ParseTurnGeneration;
  }

  /** After any run, a running status binds its turn if and only if it passes the filters, has a turn id
      whose generation is above every one completed since the floors were reset, and is no older than
      the generation that the log shows bound; it may repeat it. */
  lemma BoundExactlyWhen(inputs: seq<Input>, v: View)
    requires Faithful(inputs) && Run(Fresh(), inputs).phase.Reading?
    ensures var s := Run(Fresh(), inputs);
      var log, n := s.log, |s.log|;
      Adds(s, Step(s, Msg(v)), BoundTo(v))
      <==> (&& v.kind.Status? && v.state == "running" && InScope(s, v)
            && v.turn.Some? && v.turn.value != "" && Newer(v.turn, GenFloorIn(log))
            && (forall id :: BoundEarlier(log, n, Some(id)) && ParseTurnGeneration(Some(id)).Some? ==>
                  ParseTurnGeneration(v.turn).Some?
                  && ParseTurnGeneration(v.turn).value >= ParseTurnGeneration(Some(id)).value))
  {
    hide Run;
    hide Step;
    hide BoundEarlier;
    hide ProgressEarlier;
    hide CancelledEarlier;
    hide Adds;
    hide InScope;
    hide ParseTurnGeneration;
    hide GenFloorIn;
    hide SeqFloorIn;
    hide CallFloorIn;
    var s := Run(Fresh(), inputs);
    RunTracks(Fresh(), inputs);
    FreshIsFloored();
    RunIsFloored(Fresh(), inputs);
    hide LogAbove;
    Binding(s, v);
    BindsExactlyWhen(v.turn, s.bound, s.genFloor);
    NoGeneration();
    forall id: string
      ensures BoundEarlier(s.log, |s.log|, Some(id)) <==> s.bound == Some(id)
    {
      FlagsAreHistory(s, Some(id));
    }
  }

  lemma FreshIsFloored()
    ensures Floored(Fresh())
  {
  }

  lemma Binding(s: Reader, v: View)
    requires s.phase.Reading?
    ensures Adds(s, Step(s, Msg(v)), BoundTo(v))
       <==> Running(v) && InScope(s, v) && v.turn.Some? && ShouldBind(v.turn, s.bound, s.genFloor)
  {
    Reads(s, v);
    hide Step;
    if v.kind.Status? && !Skipped(s, v) {
      StatusBinds(s, v);
    } else {
      EventBindsNothing(s, v);
    }
    hide ReadStatus;
    hide ReadEvent;
    hide Adds;
    hide ShouldBind;
    hide TurnIdsMatch;
  }

  lemma StatusBinds(s: Reader, v: View)
    requires v.kind.Status?
    ensures Adds(s, ReadStatus(s, v), BoundTo(v))
       <==> v.state == "running" && v.turn.Some? && ShouldBind(v.turn, s.bound, s.genFloor)
  {
    var scoped := if v.loopId.Some? then s.(loopId := v.loopId, scope := v.loopId) else s;
    hide AcceptTerminal;
    hide BindTurn;
    hide ShouldBind;
    hide StatusTerminalAllowed;
    hide Terminal;
    hide Adds;
    SameLogAddsNothing(s, scoped, BoundTo(v));
    SameLogAddsNothing(s, scoped.(started := true), BoundTo(v));
    BindAddsIt(s, scoped, v);
    AcceptAddsOther(s, scoped, v);
  }

  lemma SameLogAddsNothing(s: Reader, s': Reader, e: Entry)
    requires s'.log == s.log
    ensures !Adds(s, s', e)
  {
  }

  lemma BindAddsIt(s: Reader, scoped: Reader, v: View)
    requires scoped.log == s.log
    ensures Adds(s, BindTurn(scoped, v), BoundTo(v))
  {
    var log := BindTurn(scoped, v).log;
    assert log[|log| - 1] == BoundTo(v);
  }

  lemma AcceptAddsOther(s: Reader, scoped: Reader, v: View)
    requires scoped.log == s.log
    ensures !Adds(s, AcceptTerminal(scoped, v), BoundTo(v))
  {
    AcceptShows(scoped, v);
    hide AcceptTerminal;
  }

  lemma EventBindsNothing(s: Reader, v: View)
    requires !v.kind.Status? || Skipped(s, v)
    ensures !Adds(s, ReadStep(s, v), BoundTo(v))
  {
    hide Skipped;
    hide ReadStatus;
    hide ReadEvent;
    var yielded := Noted(s, Yielded(v));
    AcceptShows(yielded, v);
    AcceptShows(Noted(yielded.(cancelled := true), CancelSeen(v)), v);
    EventLogs(s, v);
  }

  lemma EventLogs(s: Reader, v: View)
    ensures !Adds(s, ReadEvent(s, v), BoundTo(v))
  {
    var yielded := Noted(s, Yielded(v));
    AcceptShows(yielded, v);
    AcceptShows(Noted(yielded.(cancelled := true), CancelSeen(v)), v);
    hide AcceptTerminal;
    hide TurnTerminalAllowed;
  }

  /** A cancellation is noted exactly at an acknowledgement of one, and at a stream end with a cancel reason
      that ends the turn. */
  lemma CancelSeenExactlyWhen(s: Reader, v: View)
    requires s.phase.Reading? && StartedIfBound(s)
    ensures Adds(s, Step(s, Msg(v)), CancelSeen(v))
       <==> || (v.kind.CommandResponse? && v.cancelAck && InScope(s, v))
            || (v.kind.Event? && v.turnEnd && v.streamEnd && v.cancelReason && HandsOut(s, v))
  {
    Reads(s, v);
    hide Step;
    if v.kind.Event? && !v.dropped {
      SkippedEvents(s, v);
    }
    if v.kind.Event? {
      EventCancels(s, v);
    } else if v.kind.Status? {
      StatusCancelsNothing(s, v);
    } else if v.kind.CommandResponse? && v.cancelAck && InScope(s, v) {
      assert ReadStep(s, v).log[|s.log|] == CancelSeen(v);
    }
    hide ReadStatus;
    hide ReadEvent;
    hide Ends;
    hide TurnText;
    hide TurnIdsMatch;
  }

  lemma EventCancels(s: Reader, v: View)
    requires s.phase.Reading? && StartedIfBound(s) && v.kind.Event?
    ensures Adds(s, ReadEvent(s, v), CancelSeen(v))
       <==> !v.dropped && v.turnEnd && v.streamEnd && v.cancelReason && Ends(v, s.bound, s.progress, s.cancelled)
  {
    MatchMeansText(s.bound, v.endTurn);
    var yielded := Noted(s, Yielded(v));
    var marked := Noted(yielded.(cancelled := true), CancelSeen(v));
    AcceptShows(yielded, v);
    AcceptShows(marked, v);
    hide AcceptTerminal;
    hide TurnText;
    hide TurnIdsMatch;
    if !v.dropped && v.turnEnd && v.streamEnd && v.cancelReason && Ends(v, s.bound, s.progress, s.cancelled) {
      assert AcceptTerminal(marked, v).log[|s.log| + 1] == CancelSeen(v);
    }
  }

  lemma StatusCancelsNothing(s: Reader, v: View)
    ensures !Adds(s, ReadStatus(s, v), CancelSeen(v))
  {
    var scoped := if v.loopId.Some? then s.(loopId := v.loopId, scope := v.loopId) else s;
    AcceptShows(scoped, v);
    BindCancelsNothing(scoped, v);
    hide AcceptTerminal;
    hide BindTurn;
    hide ShouldBind;
    hide StatusTerminalAllowed;
    hide Terminal;
  }

  lemma BindCancelsNothing(s: Reader, v: View)
    ensures !Adds(s, BindTurn(s, v), CancelSeen(v))
  {
  }

  /** A drain hands the call over exactly at a running status of the loop whose generation is above every
      one completed. */
  lemma ReleasedExactlyWhen(s: Reader, v: View)
    requires s.phase.Draining? && Floored(s)
    ensures Adds(s, Step(s, Msg(v)), Released)
       <==> (&& v.kind.Status? && v.plainState == "running"
             && (s.phase.scope.Some? && v.loopId.Some? ==> v.loopId.value == s.phase.scope.value)
             && ParseTurnGeneration(v.turn).Some? && ParseTurnGeneration(v.turn).value > GenFloorIn(s.log))
  {
    hide ReadStep;
    hide ParseTurnGeneration;
    hide GenFloorIn;
    hide LogAbove;
    if Hands(s, v) {
      assert Step(s, Msg(v)).log[|s.log| + 1] == Released;
    }
  }

  /** When a call that reads is over, and how. */
  lemma CallEndsExactlyWhen(s: Reader, i: Input)
    requires s.phase.Reading?
    ensures Step(s, i).phase.Idle?
       <==> i.Expired? || i.Closed? || (i.Msg? && i.v.kind.Error? && InScope(s, i.v))
    ensures i.Expired? ==> Step(s, i).outcome == Some(TimedOut)
    ensures i.Closed? ==> (Step(s, i).outcome == Some(ConnectionLost) <==> s.started && !i.alive)
    ensures i.Closed? ==> (Step(s, i).outcome == Some(NoMoreEvents) <==> !s.started || i.alive)
    ensures i.Msg? && i.v.kind.Error? && InScope(s, i.v) ==> Step(s, i).outcome == Some(DaemonError)
    ensures !Step(s, i).phase.Idle? ==> Step(s, i).outcome == s.outcome
  {
    if i.Msg? {
      Reads(s, i.v);
      ReadGoesOn(s, i.v);
    }
    hide ReadStatus;
    hide ReadEvent;
    hide TurnIdsMatch;
  }

  lemma ReadGoesOn(s: Reader, v: View)
    requires s.phase.Reading?
    ensures !ReadStatus(s, v).phase.Idle? && !ReadEvent(s, v).phase.Idle?
    ensures ReadStatus(s, v).outcome == ReadEvent(s, v).outcome == s.outcome
  {
    StatusGoesOn(s, v);
    var yielded := Noted(s, Yielded(v));
    AcceptsOnward(yielded, v);
    AcceptsOnward(Noted(yielded.(cancelled := true), CancelSeen(v)), v);
    hide AcceptTerminal;
    hide ReadStatus;
    hide TurnTerminalAllowed;
  }

  lemma StatusGoesOn(s: Reader, v: View)
    requires s.phase.Reading?
    ensures !ReadStatus(s, v).phase.Idle? && ReadStatus(s, v).outcome == s.outcome
  {
    AcceptsOnward(if v.loopId.Some? then s.(loopId := v.loopId, scope := v.loopId) else s, v);
    hide AcceptTerminal;
    hide ShouldBind;
    hide StatusTerminalAllowed;
    hide Terminal;
  }

  lemma AcceptsOnward(s: Reader, v: View)
    ensures AcceptTerminal(s, v).phase.Draining? && AcceptTerminal(s, v).outcome == s.outcome
  {
    hide ParseTurnGeneration;
  }

  /** When a drain is over, and how; its successor is handed over, or the call times out. */
  lemma DrainEndsExactlyWhen(s: Reader, i: Input)
    requires s.phase.Draining?
    ensures Step(s, i).phase.Idle?
       <==> i.Quiet? || i.Closed? || (i.Msg? && (if Hands(s, i.v) then s.late
                                                 else i.v.kind.Error? && !OtherLoop(s.phase.scope, i.v)))
    ensures i.Quiet? || i.Closed? ==> Step(s, i).outcome == Some(TurnEnded)
    ensures i.Msg? && Hands(s, i.v) && s.late ==> Step(s, i).outcome == Some(TimedOut)
    ensures i.Msg? && i.v.kind.Error? && !OtherLoop(s.phase.scope, i.v) ==> Step(s, i).outcome == Some(DaemonError)
  {
    hide ReadStep;
    hide ParseTurnGeneration;
  }

  /** A status that passes moves the session to its loop. */
  lemma StatusMovesToItsLoop(s: Reader, v: View)
    requires s.phase.Reading? && v.kind.Status? && v.loopId.Some? && !Skipped(s, v)
    ensures Step(s, Msg(v)).loopId == Step(s, Msg(v)).scope == v.loopId
  {
    Reads(s, v);
    hide Step;
    hide Skipped;
    hide ShouldBind;
    hide StatusTerminalAllowed;
    hide ParseTurnGeneration;
  }

  // ---------------------------------------------------------------- starts, loops and resets

  /** A call starts unbound in the loop of the session, above the number of its last terminal. */
  lemma CallsStart(s: Reader)
    requires s.phase.Idle?
    ensures var s' := Step(s, Call);
      && s'.phase.Reading? && s'.scope == s.loopId && s'.entryFloor == s.seqFloor && s'.bound == None
      && !s'.started && !s'.progress && !s'.cancelled && !s'.late && s'.outcome == None
      && s'.loopId == s.loopId && s'.seqFloor == s.seqFloor && s'.genFloor == s.genFloor
  {
  }

  /** Between calls, a reconnect forgets both floors and the binding, and so does a bootstrap into another
      loop, which becomes the loop of the session; into the same loop it changes nothing. */
  lemma ForgetsExactlyWhen(s: Reader, loop: Option<string>)
    requires s.phase.Idle?
    ensures var r, b := Step(s, Reconnected), Step(s, Bootstrapped(loop));
      && r.seqFloor == r.genFloor == 0 && r.bound == None && r.loopId == s.loopId
      && b.loopId == loop && (loop == s.loopId ==> b == s)
      && (loop != s.loopId ==> b.seqFloor == b.genFloor == 0 && b.bound == None)
  {
  }

  /** A call has started once it met a running status that passes and binds, or that names no turn. */
  lemma StartsExactlyWhen(s: Reader, v: View)
    requires s.phase.Reading?
    ensures Step(s, Msg(v)).started
       <==> s.started || (Running(v) && InScope(s, v) && (v.turn.None? || ShouldBind(v.turn, s.bound, s.genFloor)))
  {
    Reads(s, v);
    hide Step;
    if !Skipped(s, v) {
      AcceptsInPlace(s, v);
    }
    hide ShouldBind;
    hide AcceptTerminal;
    hide StatusTerminalAllowed;
    hide TurnTerminalAllowed;
    hide TurnIdsMatch;
  }

  lemma AcceptsInPlace(s: Reader, v: View)
    ensures forall r: Reader :: AcceptTerminal(r, v).started == r.started
  {
    hide ParseTurnGeneration;
  }

  /** A drain follows the statuses of its loop: a loop they name becomes that of the session, and of the
      drain unless it hands over. */
  lemma DrainsFollowTheirLoop(s: Reader, v: View)
    requires s.phase.Draining? && v.kind.Status? && v.loopId.Some?
    requires s.phase.scope.Some? ==> s.phase.scope == v.loopId
    ensures Step(s, Msg(v)).loopId == v.loopId
    ensures !Hands(s, v) ==> Step(s, Msg(v)).phase == Draining(v.loopId)
  {
    hide ReadStep;
    hide ParseTurnGeneration;
  }
}
