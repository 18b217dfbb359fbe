/** From the socket to the end of a turn: the session reader reading what the client routes to it
    (`websocket.py`, `appkit/daemon_session.py`). The routing of frames and the reader run side by
    side, interleaved in any way. */
module TurnDelivery {
  import opened PythonText
  import opened JsonValues
  import opened TurnGates
  import opened Frames
  import opened SessionReader
  import opened SessionTheorems
  import DaemonSession
  import Queues = InboundQueues
  import Routing = FrameRouting

  type Item = Queues.Item

  /** `seen[k]` frames had been handed out when the k-th log entry was made. */
  datatype World = World(router: Routing.Router, reader: Reader, seen: seq<nat>)

  /** The socket and the RPC waits move, the session is called or a timer of it runs out, or the reader
      reads its next frame. */
  datatype Act = Route(move: Routing.Move) | Session(i: Input) | ReadNext(alive: bool)

  function Start(): World {
    World(Routing.Rest(), SessionReader.Fresh(), [])
  }

  function Met(x: Item, alive: bool, drop: DropFilter): Input {
    if Routing.Falsy(x.frame) then Closed(alive) else Msg(LookAt(Unwrap(x.frame.value), drop))
  }

  function Repeated(n: nat, times: int): (s: seq<nat>)
    ensures |s| == (if times < 0 then 0 else times) && forall k :: 0 <= k < |s| ==> s[k] == n
  {
    seq(if times < 0 then 0 else times, k => n)
  }

  /** The reader takes a step; its new log entries are numbered. */
  function Stepped(w: World, i: Input): World {
    var s' := SessionReader.Step(w.reader, i);
    w.(reader := s', seen := w.seen + Repeated(|w.router.handed|, |s'.log| - |w.reader.log|))
  }

  predicate CanRead(w: World) {
    !w.reader.phase.Idle? && w.router.op.Free? && (w.router.pending != [] || w.router.q.queue != [])
  }

  function Head(r: Routing.Router): Item
    requires r.pending != [] || r.q.queue != []
  {
    if r.pending != [] then r.pending[0] else r.q.queue[0]
  }

  function Do(w: World, act: Act, drop: DropFilter): World {
    match act
    case Route(move) =>
      if move.Read? || move.PushFront? then w else w.(router := Routing.Go(w.router, move))
    case Session(i) => if i.Msg? || i.Closed? then w else Stepped(w, i)
    case ReadNext(alive) =>
      if !CanRead(w) then w
      else
        var i, read := Met(Head(w.router), alive, drop), Routing.Go(w.router, Routing.Read);
        var router := if DaemonSession.PutsBack(w.reader, i) then Routing.Go(read, Routing.PushFront) else read;
        Stepped(w, i).(router := router)
  }

  function RunAll(w: World, acts: seq<Act>, drop: DropFilter): World
    decreases |acts|
  {
    if acts == [] then w else RunAll(Do(w, acts[0], drop), acts[1..], drop)
  }

  // ---------------------------------------------------------------- what the log remembers

  /** Entries made with a frame. */
  predicate WithFrame(e: Entry) {
    e.BoundTo? || e.Yielded? || e.Drained? || e.CancelSeen? || e.Accepted?
  }

  predicate MadeFrom(e: Entry, x: Item, drop: DropFilter)
    requires WithFrame(e)
  {
    !Routing.Falsy(x.frame) && e.v == LookAt(Unwrap(x.frame.value), drop)
  }

  /** Every entry made with a frame was made with the frame its number says, numbers never fall, and
      nothing more is done with a frame that ended a turn. */
  ghost predicate Remembers(w: World, drop: DropFilter) {
    && |w.seen| == |w.reader.log|
    && (forall k :: 0 <= k < |w.seen| ==> w.seen[k] <= |w.router.handed|)
    && (forall k :: 0 <= k < |w.seen| && WithFrame(w.reader.log[k]) ==>
          w.seen[k] < |w.router.handed| && MadeFrom(w.reader.log[k], w.router.handed[w.seen[k]], drop))
    && (forall j, k :: 0 <= j < k < |w.seen| ==> w.seen[j] <= w.seen[k])
    && (forall j, k :: 0 <= j < k < |w.seen| && w.reader.log[j].Accepted? ==> w.seen[j] < w.seen[k])
  }

  ghost predicate Healthy(w: World, drop: DropFilter) {
    Routing.Sound(w.router) && GensOk(w.reader) && Tracks(w.reader) && Remembers(w, drop)
  }

  // ---------------------------------------------------------------- one step of the reader

  /** A step of the reader that adds to the log. */
  ghost predicate Adds(s: Reader, s': Reader) {
    |s.log| <= |s'.log| && s'.log[..|s.log|] == s.log
  }

  lemma SessionAdds(s: Reader, i: Input)
    requires !i.Msg?
    ensures Adds(s, SessionReader.Step(s, i))
    ensures var log := SessionReader.Step(s, i).log; forall k :: |s.log| <= k < |log| ==> !WithFrame(log[k])
  {
    hide ReadStep;
    hide Hands;
  }

  lemma AcceptedComesLast(s: Reader, v: View)
    ensures OnlyLast(s, SessionReader.Step(s, Msg(v)))
  {
    if s.phase.Reading? {
      Reads(s, v);
      ReadAcceptsLast(s, v);
    } else if s.phase.Draining? {
      hide Hands;
      hide OtherLoop;
    }
  }

  /** Before its last entry, a step adds no acceptance. */
  ghost predicate OnlyLast(s: Reader, s': Reader) {
    forall k :: |s.log| <= k < |s'.log| - 1 ==> !s'.log[k].Accepted?
  }

  lemma ReadAcceptsLast(s: Reader, v: View)
    ensures OnlyLast(s, ReadStep(s, v))
  {
    StatusAcceptsLast(s, v);
    EventAcceptsLast(s, v);
    hide ReadStatus;
    hide ReadEvent;
    hide Skipped;
  }

  lemma StatusAcceptsLast(s: Reader, v: View)
    ensures OnlyLast(s, ReadStatus(s, v))
  {
    var scoped := if v.loopId.Some? then s.(loopId := v.loopId, scope := v.loopId) else s;
    AcceptShows(scoped, v);
    BindAcceptsNone(scoped, v);
    hide AcceptTerminal;
    hide BindTurn;
    hide ShouldBind;
    hide StatusTerminalAllowed;
    hide Terminal;
  }

  lemma BindAcceptsNone(s: Reader, v: View)
    ensures OnlyLast(s, BindTurn(s, v))
  {
  }

  lemma EventAcceptsLast(s: Reader, v: View)
    ensures OnlyLast(s, ReadEvent(s, v))
  {
    var yielded := Noted(s, Yielded(v));
    AcceptShows(yielded, v);
    AcceptShows(Noted(yielded.(cancelled := true), CancelSeen(v)), v);
    hide AcceptTerminal;
    hide TurnTerminalAllowed;
  }

  lemma MsgAdds(s: Reader, v: View)
    ensures Adds(s, SessionReader.Step(s, Msg(v)))
    ensures var log := SessionReader.Step(s, Msg(v)).log; forall k :: |s.log| <= k < |log| ==> EntryOf(log[k], v)
    ensures var log := SessionReader.Step(s, Msg(v)).log;
      DaemonSession.PutsBack(s, Msg(v)) ==> forall k :: |s.log| <= k < |log| ==> !WithFrame(log[k])
  {
    MsgMoves(s, v);
    if DaemonSession.PutsBack(s, Msg(v)) {
      DaemonSession.HandoverRereads(s, v);
      assert Handover(s, v).log == s.log + [Forgot, Released];
    }
    hide SessionReader.Step;
    hide OtherLoop;
    hide Hands;
  }

  // ---------------------------------------------------------------- the invariant

  lemma SteppedRemembers(w: World, i: Input, x: Item, drop: DropFilter)
    requires Remembers(w, drop)
    requires i.Msg? ==> !Routing.Falsy(x.frame) && i.v == LookAt(Unwrap(x.frame.value), drop)
    ensures Remembers(Stepped(w, i).(router := w.router.(handed := w.router.handed + [x])), drop)
    ensures !i.Msg? || DaemonSession.PutsBack(w.reader, i) ==> Remembers(Stepped(w, i), drop)
  {
    hide SessionReader.Step;
    hide LookAt;
    hide Unwrap;
    hide DaemonSession.PutsBack;
    if i.Msg? {
      MsgAdds(w.reader, i.v);
      AcceptedComesLast(w.reader, i.v);
    } else {
      SessionAdds(w.reader, i);
    }
  }

  lemma GoIsSound(r: Routing.Router, move: Routing.Move)
    requires Routing.Sound(r)
    ensures Routing.Sound(Routing.Go(r, move))
  {
    hide Routing.Sound;
    hide Routing.Go;
    assert Routing.Run(Routing.Go(r, move), []) == Routing.Go(r, move);
    assert [move][1..] == [];
    Routing.RunIsSound(r, [move]);
  }

  /** What reading, and pushing back what was read, do to the frames handed out. */
  lemma ReadHands(r: Routing.Router)
    requires r.op.Free? && (r.pending != [] || r.q.queue != [])
    ensures Routing.Go(r, Routing.Read).handed == r.handed + [Head(r)]
    ensures Routing.Go(Routing.Go(r, Routing.Read), Routing.PushFront).handed == r.handed
  {
    hide Queues.Next;
    assert (r.handed + [Head(r)])[..|r.handed|] == r.handed;
  }

  lemma RoutingKeepsHanded(r: Routing.Router, move: Routing.Move)
    requires !move.Read? && !move.PushFront?
    ensures Routing.Go(r, move).handed == r.handed
  {
    hide Queues.Next;
    hide Routing.FateOf;
    hide Routing.FirstOfType;
  }

  lemma OnlyHandedMatters(w: World, r: Routing.Router, drop: DropFilter)
    requires r.handed == w.router.handed
    ensures Remembers(w.(router := r), drop) == Remembers(w, drop)
  {
    hide MadeFrom;
  }

  lemma ReaderStaysHealthy(s: Reader, i: Input)
    requires GensOk(s) && Tracks(s) && (i.Msg? && i.v.turnEnd ==> !i.v.progress)
    ensures GensOk(SessionReader.Step(s, i)) && Tracks(SessionReader.Step(s, i))
  {
    hide GensOk;
    hide Tracks;
    hide SessionReader.Step;
    StepKeepsGens(s, i);
    StepTracks(s, i);
  }

  lemma DoStaysHealthy(w: World, act: Act, drop: DropFilter)
    requires Healthy(w, drop)
    ensures Healthy(Do(w, act, drop), drop)
  {
    hide Routing.Sound;
    hide Routing.Go;
    hide GensOk;
    hide Tracks;
    hide Remembers;
    hide SessionReader.Step;
    hide LookAt;
    hide Unwrap;
    hide DaemonSession.PutsBack;
    hide Routing.Falsy;
    match act {
      case Route(move) =>
        if !move.Read? && !move.PushFront? {
          GoIsSound(w.router, move);
          RoutingKeepsHanded(w.router, move);
          OnlyHandedMatters(w, Routing.Go(w.router, move), drop);
        }
      case Session(i) =>
        if !i.Msg? && !i.Closed? {
          ReaderStaysHealthy(w.reader, i);
          SteppedRemembers(w, i, Queues.Item(0, None), drop);
        }
      case ReadNext(alive) =>
        if CanRead(w) {
          ReadStaysHealthy(w, alive, drop);
        }
    }
  }

  lemma ReadStaysHealthy(w: World, alive: bool, drop: DropFilter)
    requires Healthy(w, drop) && CanRead(w)
    ensures Healthy(Do(w, ReadNext(alive), drop), drop)
  {
    hide Routing.Sound;
    hide Routing.Go;
    hide GensOk;
    hide Tracks;
    hide Remembers;
    hide SessionReader.Step;
    hide LookAt;
    hide Unwrap;
    hide DaemonSession.PutsBack;
    hide Routing.Falsy;
    var x, read := Head(w.router), Routing.Go(w.router, Routing.Read);
    var i, back := Met(x, alive, drop), Routing.Go(read, Routing.PushFront);
    GoIsSound(w.router, Routing.Read);
    GoIsSound(read, Routing.PushFront);
    ReadHands(w.router);
    TruthyIsSome(x);
    if x.frame.Some? {
      FramesAreFaithful(Unwrap(x.frame.value), drop);
    }
    ReaderStaysHealthy(w.reader, i);
    SteppedRemembers(w, i, x, drop);
    NoClosePutsBack(w.reader, i);
    var stepped := Stepped(w, i);
    OnlyHandedMatters(stepped, back, drop);
    OnlyHandedMatters(stepped.(router := w.router.(handed := w.router.handed + [x])), read, drop);
  }

  lemma TruthyIsSome(x: Item)
    ensures !Routing.Falsy(x.frame) ==> x.frame.Some?
  {
  }

  lemma NoClosePutsBack(s: Reader, i: Input)
    ensures DaemonSession.PutsBack(s, i) ==> i.Msg?
  {
  }

  lemma {:induction false} RunStaysHealthy(w: World, acts: seq<Act>, drop: DropFilter)
    requires Healthy(w, drop)
    ensures Healthy(RunAll(w, acts, drop), drop)
    decreases |acts|
  {
    hide Healthy;
    hide Do;
    if acts != [] {
      DoStaysHealthy(w, acts[0], drop);
      RunStaysHealthy(Do(w, acts[0], drop), acts[1..], drop);
    }
  }

  lemma StartIsHealthy(drop: DropFilter)
    ensures Healthy(Start(), drop)
  {
    Routing.RestIsSound();
    hide Routing.Sound;
    GenerationsAtStart();
  }

  lemma GenerationsAtStart()
    ensures GensOk(SessionReader.Fresh()) && Tracks(SessionReader.Fresh())
  {
  }

  // ---------------------------------------------------------------- where a frame came from

  /** A frame handed out arrived on the socket. */
  lemma HandedArrived(r: Routing.Router, n: nat)
    requires Routing.Sound(r) && n < |r.handed|
    ensures var x := r.handed[n]; x.at < |r.q.arrived| && r.q.arrived[x.at] == x.frame
  {
    hide Queues.Harmless;
    hide Queues.Ordered;
    var x := r.handed[n];
    assert x in Queues.Bag(r.handed);
    assert x in Queues.Everything(r.q);
    assert x in Queues.Items(r.q.arrived);
  }

  /** Frames are handed out in the order of their arrival. */
  lemma HandedInOrder(r: Routing.Router, m: nat, n: nat)
    requires Routing.Sound(r) && m < n < |r.handed|
    ensures r.handed[m].at < r.handed[n].at
  {
    hide Queues.Harmless;
    var line := r.handed + r.pending + r.q.queue + r.q.waiting;
    assert line[m] == r.handed[m] && line[n] == r.handed[n];
  }

  /** The arrival that the k-th log entry was made with. */
  function ArrivalOf(w: World, k: nat): nat {
    if k < |w.seen| && w.seen[k] < |w.router.handed| then w.router.handed[w.seen[k]].at else 0
  }

  /** The k-th log entry was made with an arrival, and its view is what the reader sees of that. */
  ghost predicate MadeFromArrival(w: World, k: nat, drop: DropFilter)
    requires k < |w.reader.log| && WithFrame(w.reader.log[k])
  {
    var n, arrived := ArrivalOf(w, k), w.router.q.arrived;
    n < |arrived| && !Routing.Falsy(arrived[n]) && w.reader.log[k].v == LookAt(Unwrap(arrived[n].value), drop)
  }

  lemma EntryArrived(w: World, k: nat, drop: DropFilter)
    requires Healthy(w, drop) && k < |w.reader.log| && WithFrame(w.reader.log[k])
    ensures MadeFromArrival(w, k, drop)
  {
    hide Routing.Sound;
    hide GensOk;
    hide Tracks;
    hide LookAt;
    hide Unwrap;
    HandedArrived(w.router, w.seen[k]);
  }

  lemma EntriesInOrder(w: World, j: nat, k: nat, drop: DropFilter)
    requires Healthy(w, drop) && j < k < |w.reader.log| && WithFrame(w.reader.log[j]) && WithFrame(w.reader.log[k])
    ensures ArrivalOf(w, j) <= ArrivalOf(w, k)
    ensures w.seen[j] < w.seen[k] ==> ArrivalOf(w, j) < ArrivalOf(w, k)
    ensures w.reader.log[j].Accepted? ==> ArrivalOf(w, j) < ArrivalOf(w, k)
    ensures w.seen[j] == w.seen[k] ==> w.reader.log[j].v == w.reader.log[k].v
  {
    hide Routing.Sound;
    hide GensOk;
    hide Tracks;
    hide LookAt;
    hide Unwrap;
    if w.seen[j] < w.seen[k] {
      HandedInOrder(w.router, w.seen[j], w.seen[k]);
    }
  }

  // ---------------------------------------------------------------- end to end

  /** Whatever arrives, however RPC waits, timers and calls fall: each entry of the session log was made
      with a frame that arrived on the socket, in the order of arrival; a frame that ended a turn is
      older than anything used after it; and generations increase. */
  lemma EveryDelivery(acts: seq<Act>, drop: DropFilter)
    ensures var w := RunAll(Start(), acts, drop);
      var log := w.reader.log;
      && Increasing(Gens(log))
      && (forall k :: 0 <= k < |log| && WithFrame(log[k]) ==> MadeFromArrival(w, k, drop))
      && (forall j, k :: 0 <= j < k < |log| && WithFrame(log[j]) && WithFrame(log[k]) ==>
            if log[j].Accepted? then ArrivalOf(w, j) < ArrivalOf(w, k) else ArrivalOf(w, j) <= ArrivalOf(w, k))
  {
    hide RunAll;
    hide MadeFromArrival;
    hide ArrivalOf;
    hide WithFrame;
    StartIsHealthy(drop);
    RunStaysHealthy(Start(), acts, drop);
    var w := RunAll(Start(), acts, drop);
    GensIncrease(w, drop);
    forall k | 0 <= k < |w.reader.log| && WithFrame(w.reader.log[k])
      ensures MadeFromArrival(w, k, drop)
    {
      hide Healthy;
      EntryArrived(w, k, drop);
    }
    forall j, k | 0 <= j < k < |w.reader.log| && WithFrame(w.reader.log[j]) && WithFrame(w.reader.log[k])
      ensures if w.reader.log[j].Accepted? then ArrivalOf(w, j) < ArrivalOf(w, k)
              else ArrivalOf(w, j) <= ArrivalOf(w, k)
    {
      hide Healthy;
      EntriesInOrder(w, j, k, drop);
    }
  }

  lemma GensIncrease(w: World, drop: DropFilter)
    requires Healthy(w, drop)
    ensures Increasing(Gens(w.reader.log))
  {
    hide Routing.Sound;
    hide Tracks;
    hide Remembers;
  }

  /** An entry with a frame that arrived before that of the k-th. */
  ghost predicate ArrivedBefore(w: World, j: nat, k: nat) {
    j < k < |w.reader.log| && WithFrame(w.reader.log[j]) && ArrivalOf(w, j) < ArrivalOf(w, k)
  }

  /** The turn of a terminal was announced by an older arrival of the same call, and nothing was bound or
      released since. */
  ghost predicate Announced(w: World, k: nat, bound: TurnId) {
    exists j :: 0 <= j < k && ArrivedBefore(w, j, k) && w.reader.log[j].BoundTo? && Running(w.reader.log[j].v)
      && w.reader.log[j].v.turn == bound && NoneBetween(w.reader.log, j, k)
  }

  /** Progress was delivered from an older arrival, and the flag was not cleared since. */
  ghost predicate Progressed(w: World, k: nat) {
    exists j :: 0 <= j < k && ArrivedBefore(w, j, k) && w.reader.log[j].Yielded? && w.reader.log[j].v.progress
      && NotForgotten(w.reader.log, j, k)
  }

  /** Each terminal that ends a turn arrived after the running status that announced the turn and, when
      it is a turn-end event, after a progress chunk that was delivered; an idle or stopped status
      without such progress needs a cancellation in the call. */
  lemma TerminalArrivesLast(acts: seq<Act>, drop: DropFilter, k: nat)
    requires k < |RunAll(Start(), acts, drop).reader.log| && RunAll(Start(), acts, drop).reader.log[k].Accepted?
    ensures var w := RunAll(Start(), acts, drop);
      var v, bound := w.reader.log[k].v, w.reader.log[k].bound;
      && MadeFromArrival(w, k, drop)
      && Announced(w, k, bound)
      && (v.kind.Event? ==> v.turnEnd && TurnIdsMatch(bound, v.endTurn) && Progressed(w, k))
      && (!v.kind.Event? ==>
            Terminal(v) && StatusJustified(v, bound, Progressed(w, k), CancelledEarlier(w.reader.log, k)))
  {
    hide RunAll;
    StartIsHealthy(drop);
    RunStaysHealthy(Start(), acts, drop);
    var w := RunAll(Start(), acts, drop);
    EntryArrived(w, k, drop);
    TurnOfTerminal(w, k, drop);
  }

  lemma TurnOfTerminal(w: World, k: nat, drop: DropFilter)
    requires Healthy(w, drop) && k < |w.reader.log| && w.reader.log[k].Accepted?
    ensures var v, bound := w.reader.log[k].v, w.reader.log[k].bound;
      && Announced(w, k, bound)
      && (v.kind.Event? ==> v.turnEnd && TurnIdsMatch(bound, v.endTurn) && Progressed(w, k))
      && (!v.kind.Event? ==>
            Terminal(v) && StatusJustified(v, bound, Progressed(w, k), CancelledEarlier(w.reader.log, k)))
  {
    hide Routing.Sound;
    hide GensOk;
    hide Remembers;
    hide ArrivalOf;
    hide TurnText;
    hide TurnIdsMatch;
    hide Progressed;
    hide Announced;
    hide CancelledEarlier;
    hide ProgressEarlier;
    hide BoundEarlier;
    var log := w.reader.log;
    assert EntryOk(log[..k], log[k]);
    JustifiedFound(log, k);
    AnnouncedEarlier(w, k, drop);
    if ProgressEarlier(log, k) {
      ProgressedEarlier(w, k, drop);
    }
  }

  lemma AnnouncedEarlier(w: World, k: nat, drop: DropFilter)
    requires Healthy(w, drop) && k < |w.reader.log| && w.reader.log[k].Accepted?
    requires w.reader.log[k].v.kind.Event? || Terminal(w.reader.log[k].v)
    requires BoundEarlier(w.reader.log, k, w.reader.log[k].bound)
    ensures Announced(w, k, w.reader.log[k].bound)
  {
    hide Healthy;
    hide ArrivalOf;
    hide NoneBetween;
    var log := w.reader.log;
    var j :| 0 <= j < k && log[j].BoundTo? && Running(log[j].v) && log[j].v.turn == log[k].bound
             && NoneBetween(log, j, k);
    SeenInOrder(w, j, k, drop);
    EntriesInOrder(w, j, k, drop);
    assert ArrivedBefore(w, j, k);
  }

  lemma ProgressedEarlier(w: World, k: nat, drop: DropFilter)
    requires Healthy(w, drop) && k < |w.reader.log| && w.reader.log[k].Accepted?
    requires w.reader.log[k].v.kind.Event? ==> w.reader.log[k].v.turnEnd
    requires ProgressEarlier(w.reader.log, k)
    ensures Progressed(w, k)
  {
    hide ArrivalOf;
    hide NotForgotten;
    hide Routing.Sound;
    hide GensOk;
    hide Remembers;
    hide LookAt;
    hide Unwrap;
    var log := w.reader.log;
    var j :| 0 <= j < k && log[j].Yielded? && log[j].v.progress && NotForgotten(log, j, k);
    assert EntryOk(log[..j], log[j]);
    SeenInOrder(w, j, k, drop);
    EntriesInOrder(w, j, k, drop);
    EntryArrived(w, j, drop);
    FramesAreFaithful(Unwrap(w.router.q.arrived[ArrivalOf(w, j)].value), drop);
    assert ArrivedBefore(w, j, k);
  }

  lemma SeenInOrder(w: World, j: nat, k: nat, drop: DropFilter)
    requires Healthy(w, drop) && j < k < |w.reader.log|
    ensures |w.seen| == |w.reader.log| && w.seen[j] <= w.seen[k]
  {
    hide Routing.Sound;
    hide GensOk;
    hide Tracks;
  }
}
