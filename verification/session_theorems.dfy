/** Safety of the session reader over whole runs: generations of accepted terminals, where a
    terminal comes from, floors, and frames that leave no trace. */
module SessionTheorems {
  import opened PythonText
  import JsonValues
  import opened TurnGates
  import opened Frames
  import opened SessionReader

  // ---------------------------------------------------------------- generations

  /** The generations of the terminals accepted since the floors were last reset, in order;
      ids without a generation contribute none. */
  function Gens(log: seq<Entry>): seq<nat> {
    if log == [] then []
    else
      var n := |log| - 1;
      match log[n]
      case FloorReset => []
      case Accepted(_, bound) => Gens(log[..n]) + GenOf(bound)
      case _ => Gens(log[..n])
  }

  ghost predicate Increasing(s: seq<nat>) {
    forall i, j :: 0 <= i < j < |s| ==> s[i] < s[j]
  }

  ghost predicate GensOk(s: Reader) {
    && Increasing(Gens(s.log))
    && (forall i :: 0 <= i < |Gens(s.log)| ==> Gens(s.log)[i] <= s.genFloor)
    && (s.phase.Reading? && ParseTurnGeneration(s.bound).Some? ==>
          ParseTurnGeneration(s.bound).value > s.genFloor)
  }

  function GenOf(bound: TurnId): seq<nat> {
    var g := ParseTurnGeneration(bound);
    if g.Some? then [g.value] else []
  }

  lemma NoteKeepsGens(log: seq<Entry>, e: Entry)
    ensures !e.FloorReset? && !e.Accepted? ==> Gens(log + [e]) == Gens(log)
    ensures e.FloorReset? ==> Gens(log + [e]) == []
    ensures e.Accepted? ==> Gens(log + [e]) == Gens(log) + GenOf(e.bound)
  {
    assert (log + [e])[..|log|] == log;
  }

  lemma AcceptKeepsGens(s: Reader, v: View)
    requires GensOk(s) && s.phase.Reading?
    ensures GensOk(AcceptTerminal(s, v))
  {
    hide ParseTurnGeneration;
    NoteKeepsGens(s.log, Accepted(v, s.bound));
  }

  lemma ReadKeepsGens(s: Reader, v: View)
    requires GensOk(s) && s.phase.Reading?
    ensures GensOk(ReadStep(s, v))
  {
    hide ParseTurnGeneration;
    hide Gens;
    hide ShouldBind;
    hide Skipped;
    hide AcceptTerminal;
    if !Skipped(s, v) {
      match v.kind {
        case Status =>
          StatusKeepsGens(s, v);
        case Event =>
          NoteKeepsGens(s.log, Yielded(v));
          var y := Noted(s, Yielded(v));
          NoteKeepsGens(y.log, CancelSeen(v));
          AcceptKeepsGens(y, v);
          AcceptKeepsGens(Noted(y.(cancelled := true), CancelSeen(v)), v);
        case CommandResponse =>
          NoteKeepsGens(s.log, CancelSeen(v));
        case _ =>
      }
    }
  }

  lemma BindKeepsGens(s: Reader, v: View)
    requires GensOk(s) && s.phase.Reading? && ShouldBind(v.turn, s.bound, s.genFloor)
    ensures GensOk(BindTurn(s, v))
  {
    hide ParseTurnGeneration;
    hide Gens;
    BindingClearsFloor(v.turn, s.bound, s.genFloor);
    hide ShouldBind;
    NoteKeepsGens(s.log, Forgot);
    NoteKeepsGens(s.log, BoundTo(v));
    NoteKeepsGens(s.log + [Forgot], BoundTo(v));
  }

  lemma StatusKeepsGens(s: Reader, v: View)
    requires GensOk(s) && s.phase.Reading?
    ensures GensOk(ReadStatus(s, v))
  {
    hide ParseTurnGeneration;
    hide Gens;
    hide Increasing;
    hide ShouldBind;
    hide StatusTerminalAllowed;
    hide Terminal;
    hide AcceptTerminal;
    hide BindTurn;
    var scoped := if v.loopId.Some? then s.(loopId := v.loopId, scope := v.loopId) else s;
    assert GensOk(scoped);
    AcceptKeepsGens(scoped, v);
    if ShouldBind(v.turn, s.bound, s.genFloor) {
      BindKeepsGens(scoped, v);
    }
  }

  lemma DrainKeepsGens(s: Reader, v: View)
    requires GensOk(s) && s.phase.Draining?
    ensures GensOk(Step(s, Msg(v)))
  {
    hide ParseTurnGeneration;
    hide Gens;
    hide ReadStep;
    NoGeneration();
    NoteKeepsGens(s.log, Drained(v));
    if Hands(s, v) {
      NoteKeepsGens(s.log, Forgot);
      NoteKeepsGens(s.log + [Forgot], Released);
      assert s.log + [Forgot, Released] == s.log + [Forgot] + [Released];
    }
  }

  lemma StepKeepsGens(s: Reader, i: Input)
    requires GensOk(s)
    ensures GensOk(Step(s, i))
  {
    hide ParseTurnGeneration;
    hide Gens;
    hide ReadStep;
    NoteKeepsGens(s.log, Opened);
    NoteKeepsGens(s.log, FloorReset);
    assert ParseTurnGeneration(None) == None by { NoGeneration(); }
    if i.Msg? {
      match s.phase {
        case Reading => ReadKeepsGens(s, i.v);
        case Draining(_) => DrainKeepsGens(s, i.v);
        case _ =>
      }
    }
  }

  lemma NoGeneration()
    ensures ParseTurnGeneration(None) == None
  {
  }

  lemma {:induction false} RunKeepsGens(s: Reader, inputs: seq<Input>)
    requires GensOk(s)
    ensures GensOk(Run(s, inputs))
    decreases |inputs|
  {
    hide GensOk;
    hide Step;
    if inputs != [] {
      StepKeepsGens(s, inputs[0]);
      RunKeepsGens(Step(s, inputs[0]), inputs[1..]);
    }
  }

  /** Over any number of calls and any frames, the generations of accepted terminals strictly
      increase between floor resets: no turn ends twice and no older turn ends a newer one,
      successors met in a drain included. */
  lemma GenerationsStrictlyIncrease(inputs: seq<Input>)
    ensures Increasing(Gens(Run(Fresh(), inputs).log))
  {
    RunKeepsGens(Fresh(), inputs);
  }

  // ---------------------------------------------------------------- provenance

  /** The turn bound when the log ends. */
  function LastBind(log: seq<Entry>): TurnId {
    if log == [] then None
    else
      match log[|log| - 1]
      case BoundTo(v) => v.turn
      case Opened => None
      case FloorReset => None
      case Released => None
      case _ => LastBind(log[..|log| - 1])
  }

  /** Whether a progress chunk was yielded since the flag was last cleared. */
  predicate ProgressIn(log: seq<Entry>) {
    log != []
    && match log[|log| - 1]
       case Yielded(v) => v.progress || ProgressIn(log[..|log| - 1])
       case Opened => false
       case Forgot => false
       case _ => ProgressIn(log[..|log| - 1])
  }

  predicate CancelIn(log: seq<Entry>) {
    log != []
    && match log[|log| - 1]
       case CancelSeen(_) => true
       case Opened => false
       case _ => CancelIn(log[..|log| - 1])
  }

  /** An idle or stopped status needs progress or a cancellation, and may omit its turn id only
      after a cancellation. */
  predicate StatusJustified(v: View, bound: TurnId, progress: bool, cancelled: bool) {
    if TurnText(v.turn) != "" then TurnIdsMatch(bound, v.turn) && (progress || cancelled) else cancelled
  }

  /** What an accepted terminal needs of the log before it. */
  ghost predicate Justified(before: seq<Entry>, v: View, bound: TurnId) {
    && bound.Some? && TurnText(bound) != "" && LastBind(before) == bound
    && (v.kind.Event? ==> v.turnEnd && TurnIdsMatch(bound, v.endTurn) && ProgressIn(before))
    && (!v.kind.Event? ==> Terminal(v) && StatusJustified(v, bound, ProgressIn(before), CancelIn(before)))
  }

  ghost predicate EntryOk(before: seq<Entry>, e: Entry) {
    match e
    case BoundTo(v) => Running(v) && v.turn.Some?
    case Yielded(v) => v.kind.Event? && !v.dropped
    case Accepted(v, bound) => Justified(before, v, bound)
    case _ => true
  }

  ghost predicate LogOk(log: seq<Entry>) {
    forall i :: 0 <= i < |log| ==> EntryOk(log[..i], log[i])
  }

  /** The flags say what the log says, and every entry is in order. */
  ghost predicate Tracks(s: Reader) {
    && s.bound == LastBind(s.log)
    && s.progress == ProgressIn(s.log)
    && s.cancelled == CancelIn(s.log)
    && LogOk(s.log)
  }

  lemma NoteOk(log: seq<Entry>, e: Entry)
    requires LogOk(log) && EntryOk(log, e)
    ensures LogOk(log + [e])
  {
    hide EntryOk;
    var l := log + [e];
    forall i | 0 <= i < |l|
      ensures EntryOk(l[..i], l[i])
    {
      assert l[..i] == if i < |log| then log[..i] else log;
    }
  }

  /** The effect of one entry on the three readings. */
  lemma NoteReads(log: seq<Entry>, e: Entry)
    ensures LastBind(log + [e]) == (match e
      case BoundTo(v) => v.turn
      case Opened => None
      case FloorReset => None
      case Released => None
      case _ => LastBind(log))
    ensures ProgressIn(log + [e]) == (match e
      case Yielded(v) => v.progress || ProgressIn(log)
      case Opened => false
      case Forgot => false
      case _ => ProgressIn(log))
    ensures CancelIn(log + [e]) == (match e
      case CancelSeen(_) => true
      case Opened => false
      case _ => CancelIn(log))
  {
    assert (log + [e])[..|log|] == log;
  }

  lemma Tracked(s: Reader, e: Entry, s': Reader)
    requires Tracks(s) && EntryOk(s.log, e) && s'.log == s.log + [e]
    requires s'.bound == (match e case BoundTo(v) => v.turn case Opened => None case FloorReset => None
                                  case Released => None case _ => s.bound)
    requires s'.progress == (match e case Yielded(v) => v.progress || s.progress case Opened => false
                                     case Forgot => false case _ => s.progress)
    requires s'.cancelled == (match e case CancelSeen(_) => true case Opened => false case _ => s.cancelled)
    ensures Tracks(s')
  {
    hide LogOk;
    hide EntryOk;
    NoteOk(s.log, e);
    NoteReads(s.log, e);
  }

  lemma EventTracks(s: Reader, v: View)
    requires Tracks(s) && v.kind.Event? && (v.turnEnd ==> !v.progress)
    ensures Tracks(ReadEvent(s, v))
  {
    hide LogOk;
    hide LastBind;
    hide ProgressIn;
    hide CancelIn;
    hide TurnIdsMatch;
    if !v.dropped && !v.turnEnd {
      Tracked(s, Yielded(v), ReadEvent(s, v));
    } else if !v.dropped && TurnTerminalAllowed(s.bound, v.endTurn, s.started, s.progress) {
      var y := Noted(s.(progress := v.progress || s.progress), Yielded(v));
      Tracked(s, Yielded(v), y);
      var m := if v.streamEnd && v.cancelReason then Noted(y.(cancelled := true), CancelSeen(v)) else y;
      if v.streamEnd && v.cancelReason {
        Tracked(y, CancelSeen(v), m);
      }
      MatchMeansText(s.bound, v.endTurn);
      Tracked(m, Accepted(v, m.bound), AcceptTerminal(m, v));
    }
  }

  lemma MatchMeansText(a: TurnId, b: TurnId)
    ensures TurnIdsMatch(a, b) ==> TurnText(a) != "" && a.Some?
    ensures TurnText(a) != "" ==> a.Some?
  {
    assert Strip("") == "";
  }

  lemma BindTracks(s: Reader, v: View)
    requires Tracks(s) && Running(v) && v.turn.Some?
    ensures Tracks(BindTurn(s, v))
  {
    hide LogOk;
    hide LastBind;
    hide ProgressIn;
    hide CancelIn;
    var cleared := if s.bound.Some? && v.turn != s.bound then Noted(s.(progress := false), Forgot) else s;
    if s.bound.Some? && v.turn != s.bound {
      Tracked(s, Forgot, cleared);
    }
    Tracked(cleared, BoundTo(v), BindTurn(s, v));
  }

  lemma StatusTracks(s: Reader, v: View)
    requires Tracks(s) && v.kind.Status?
    ensures Tracks(ReadStatus(s, v))
  {
    hide LogOk;
    hide LastBind;
    hide ProgressIn;
    hide CancelIn;
    hide TurnIdsMatch;
    hide ShouldBind;
    hide TurnText;
    hide BindTurn;
    var scoped := if v.loopId.Some? then s.(loopId := v.loopId, scope := v.loopId) else s;
    assert Tracks(scoped);
    if v.state == "running" {
      if v.turn.Some? && ShouldBind(v.turn, s.bound, s.genFloor) {
        BindTracks(scoped, v);
      }
    } else if s.started && Terminal(v)
              && StatusTerminalAllowed(s.bound, v.turn, s.started, s.progress, s.cancelled) {
      MatchMeansText(s.bound, v.turn);
      Tracked(scoped, Accepted(v, s.bound), AcceptTerminal(scoped, v));
    }
  }

  lemma ReadTracks(s: Reader, v: View)
    requires Tracks(s) && s.phase.Reading? && (v.turnEnd ==> !v.progress)
    ensures Tracks(ReadStep(s, v))
  {
    hide Tracks;
    hide Skipped;
    hide ReadEvent;
    hide ReadStatus;
    if !Skipped(s, v) {
      match v.kind {
        case Status => StatusTracks(s, v);
        case Event => EventTracks(s, v);
        case CommandResponse => CancelTracks(s, v);
        case _ => FinishTracks(s, DaemonError);
      }
    }
  }

  lemma CancelTracks(s: Reader, v: View)
    requires Tracks(s)
    ensures Tracks(Noted(s.(cancelled := true), CancelSeen(v)))
  {
    hide LogOk;
    Tracked(s, CancelSeen(v), Noted(s.(cancelled := true), CancelSeen(v)));
  }

  lemma FinishTracks(s: Reader, why: Outcome)
    requires Tracks(s)
    ensures Tracks(Finish(s, why))
  {
  }

  /** Views taken from frames never mark a turn end as progress. */
  ghost predicate Faithful(inputs: seq<Input>) {
    forall i :: 0 <= i < |inputs| && inputs[i].Msg? && inputs[i].v.turnEnd ==> !inputs[i].v.progress
  }

  lemma StepTracks(s: Reader, i: Input)
    requires Tracks(s) && (i.Msg? && i.v.turnEnd ==> !i.v.progress)
    ensures Tracks(Step(s, i))
  {
    hide LogOk;
    hide LastBind;
    hide ProgressIn;
    hide CancelIn;
    hide ReadStep;
    match i {
      case Call =>
        if s.phase.Idle? {
          Tracked(s, Opened, OpenCall(s));
        }
      case Bootstrapped(loop) =>
        if s.phase.Idle? && loop != s.loopId {
          Tracked(s, FloorReset, ResetFloors(s.(loopId := loop)));
        }
      case Reconnected =>
        if s.phase.Idle? {
          Tracked(s, FloorReset, ResetFloors(s));
        }
      case Msg(v) =>
        match s.phase {
          case Reading => ReadTracks(s, v);
          case Draining(_) =>
            if Hands(s, v) {
              HandoverTracks(s, v);
            } else if DrainStep(s, v).log == s.log + [Drained(v)] {
              Tracked(s, Drained(v), DrainStep(s, v));
            }
          case _ =>
        }
      case _ =>
    }
  }

  lemma HandoverTracks(s: Reader, v: View)
    requires Tracks(s) && s.phase.Draining?
    ensures Tracks(Handover(s, v))
  {
    hide LogOk;
    hide LastBind;
    hide ProgressIn;
    hide CancelIn;
    var forgot := Noted(s.(progress := false), Forgot);
    Tracked(s, Forgot, forgot);
    var r := Handover(s, v);
    assert r.log == forgot.log + [Released];
    Tracked(forgot, Released, r);
  }

  lemma {:induction false} RunTracks(s: Reader, inputs: seq<Input>)
    requires Tracks(s) && Faithful(inputs)
    ensures Tracks(Run(s, inputs))
    decreases |inputs|
  {
    hide Tracks;
    hide Step;
    if inputs != [] {
      assert inputs[0].Msg? && inputs[0].v.turnEnd ==> !inputs[0].v.progress;
      StepTracks(s, inputs[0]);
      assert Faithful(inputs[1..]) by {
        assert forall i :: 0 <= i < |inputs[1..]| ==> inputs[1..][i] == inputs[i + 1];
      }
      RunTracks(Step(s, inputs[0]), inputs[1..]);
    }
  }

  lemma {:induction false} LastBindFound(log: seq<Entry>) returns (j: nat)
    requires LastBind(log).Some?
    ensures j < |log| && log[j].BoundTo? && log[j].v.turn == LastBind(log)
    ensures forall k :: j < k < |log| ==>
      !log[k].BoundTo? && !log[k].Opened? && !log[k].Released? && !log[k].FloorReset?
  {
    j := |log| - 1;
    if !log[j].BoundTo? {
      j := LastBindFound(log[..|log| - 1]);
    }
  }

  lemma {:induction false} ProgressFound(log: seq<Entry>) returns (j: nat)
    requires ProgressIn(log)
    ensures j < |log| && log[j].Yielded? && log[j].v.progress
    ensures forall k :: j < k < |log| ==> !log[k].Opened? && !log[k].Forgot?
  {
    j := |log| - 1;
    if !(log[j].Yielded? && log[j].v.progress) {
      j := ProgressFound(log[..|log| - 1]);
    }
  }

  /** An earlier `status=running` of the same call bound exactly this id, and nothing was bound
      or released since. */
  ghost predicate BoundEarlier(log: seq<Entry>, i: nat, bound: TurnId)
    requires i <= |log|
  {
    exists j :: 0 <= j < i && log[j].BoundTo? && Running(log[j].v) && log[j].v.turn == bound
      && NoneBetween(log, j, i)
  }

  ghost predicate NoneBetween(log: seq<Entry>, j: nat, i: nat)
    requires i <= |log|
  {
    forall k :: j < k < i ==> !log[k].BoundTo? && !log[k].Opened? && !log[k].Released? && !log[k].FloorReset?
  }

  /** A progress chunk was yielded earlier, and the flag was not cleared since. */
  ghost predicate ProgressEarlier(log: seq<Entry>, i: nat)
    requires i <= |log|
  {
    exists j :: 0 <= j < i && log[j].Yielded? && log[j].v.progress && NotForgotten(log, j, i)
  }

  ghost predicate NotForgotten(log: seq<Entry>, j: nat, i: nat)
    requires i <= |log|
  {
    forall k :: j < k < i ==> !log[k].Opened? && !log[k].Forgot?
  }

  /** A cancellation was seen earlier in the call. */
  ghost predicate CancelledEarlier(log: seq<Entry>, i: nat)
    requires i <= |log|
  {
    exists j :: 0 <= j < i && log[j].CancelSeen? && SameCall(log, j, i)
  }

  ghost predicate SameCall(log: seq<Entry>, j: nat, i: nat)
    requires i <= |log|
  {
    forall k :: j < k < i ==> !log[k].Opened?
  }

  lemma {:induction false} CancelFound(log: seq<Entry>) returns (j: nat)
    requires CancelIn(log)
    ensures j < |log| && log[j].CancelSeen?
    ensures forall k :: j < k < |log| ==> !log[k].Opened?
  {
    j := |log| - 1;
    if !log[j].CancelSeen? {
      j := CancelFound(log[..|log| - 1]);
    }
  }

  /** Provenance of every terminal of every run: the bound id was announced by a running status
      of the same call; a turn-end event carries exactly that id and follows real progress; an
      idle or stopped status follows progress or a cancellation, and may omit its id only after a
      cancellation. */
  lemma TerminalProvenance(inputs: seq<Input>, i: nat)
    requires Faithful(inputs)
    requires i < |Run(Fresh(), inputs).log| && Run(Fresh(), inputs).log[i].Accepted?
    ensures var log := Run(Fresh(), inputs).log;
      var v, bound := log[i].v, log[i].bound;
      && BoundEarlier(log, i, bound)
      && (v.kind.Event? ==> v.turnEnd && TurnIdsMatch(bound, v.endTurn) && ProgressEarlier(log, i))
      && (!v.kind.Event? ==>
            Terminal(v) && StatusJustified(v, bound, ProgressEarlier(log, i), CancelledEarlier(log, i)))
  {
    var s := Run(Fresh(), inputs);
    RunTracks(Fresh(), inputs);
    var log := s.log;
    assert EntryOk(log[..i], log[i]);
    JustifiedFound(log, i);
  }

  lemma JustifiedFound(log: seq<Entry>, i: nat)
    requires LogOk(log) && i < |log| && log[i].Accepted?
    ensures BoundEarlier(log, i, log[i].bound)
    ensures ProgressIn(log[..i]) ==> ProgressEarlier(log, i)
    ensures CancelIn(log[..i]) ==> CancelledEarlier(log, i)
  {
    hide TurnText;
    hide TurnIdsMatch;
    assert EntryOk(log[..i], log[i]);
    var j := LastBindFound(log[..i]);
    assert EntryOk(log[..j], log[j]);
    assert forall k :: 0 <= k < i ==> log[..i][k] == log[k];
    assert NoneBetween(log, j, i);
    if ProgressIn(log[..i]) {
      var p := ProgressFound(log[..i]);
      assert NotForgotten(log, p, i);
    }
    if CancelIn(log[..i]) {
      var c := CancelFound(log[..i]);
      assert SameCall(log, c, i);
    }
  }

  // ---------------------------------------------------------------- and the other direction

  lemma {:induction false} BindFrom(log: seq<Entry>, i: nat, j: nat)
    requires j < i <= |log| && log[j].BoundTo? && NoneBetween(log, j, i)
    ensures LastBind(log[..i]) == log[j].v.turn
    decreases i
  {
    assert log[..i][..i - 1] == log[..i - 1];
    if j < i - 1 {
      BindFrom(log, i - 1, j);
    }
  }

  lemma {:induction false} ProgressFrom(log: seq<Entry>, i: nat, j: nat)
    requires j < i <= |log| && log[j].Yielded? && log[j].v.progress && NotForgotten(log, j, i)
    ensures ProgressIn(log[..i])
    decreases i
  {
    assert log[..i][..i - 1] == log[..i - 1];
    if j < i - 1 {
      ProgressFrom(log, i - 1, j);
    }
  }

  lemma {:induction false} CancelFrom(log: seq<Entry>, i: nat, j: nat)
    requires j < i <= |log| && log[j].CancelSeen? && SameCall(log, j, i)
    ensures CancelIn(log[..i])
    decreases i
  {
    assert log[..i][..i - 1] == log[..i - 1];
    if j < i - 1 {
      CancelFrom(log, i - 1, j);
    }
  }

  /** What the flags of the reader say is what the log shows. */
  lemma FlagsAreHistory(s: Reader, bound: TurnId)
    requires Tracks(s) && bound.Some?
    ensures var n := |s.log|;
      && (BoundEarlier(s.log, n, bound) <==> s.bound == bound)
      && (ProgressEarlier(s.log, n) <==> s.progress)
      && (CancelledEarlier(s.log, n) <==> s.cancelled)
  {
    var log, n := s.log, |s.log|;
    assert log[..n] == log;
    if s.bound.Some? {
      var j := LastBindFound(log);
      assert EntryOk(log[..j], log[j]) && NoneBetween(log, j, n);
    }
    if BoundEarlier(log, n, bound) {
      var j :| 0 <= j < n && log[j].BoundTo? && Running(log[j].v) && log[j].v.turn == bound && NoneBetween(log, j, n);
      BindFrom(log, n, j);
    }
    if s.progress {
      var j := ProgressFound(log);
      assert NotForgotten(log, j, n);
    }
    if ProgressEarlier(log, n) {
      var j :| 0 <= j < n && log[j].Yielded? && log[j].v.progress && NotForgotten(log, j, n);
      ProgressFrom(log, n, j);
    }
    if s.cancelled {
      var j := CancelFound(log);
      assert SameCall(log, j, n);
    }
    if CancelledEarlier(log, n) {
      var j :| 0 <= j < n && log[j].CancelSeen? && SameCall(log, j, n);
      CancelFrom(log, n, j);
    }
  }

  /** While reading, a bound turn has started. */
  ghost predicate StartedIfBound(s: Reader) {
    s.phase.Reading? && s.bound.Some? ==> s.started
  }

  lemma StepStarts(s: Reader, i: Input)
    requires StartedIfBound(s)
    ensures StartedIfBound(Step(s, i))
  {
    hide Skipped;
    hide ShouldBind;
    hide ParseTurnGeneration;
    hide Terminal;
    hide StatusTerminalAllowed;
    hide TurnTerminalAllowed;
    hide Hands;
  }

  lemma {:induction false} RunStarts(s: Reader, inputs: seq<Input>)
    requires StartedIfBound(s)
    ensures StartedIfBound(Run(s, inputs))
    decreases |inputs|
  {
    hide Step;
    hide StartedIfBound;
    if inputs != [] {
      StepStarts(s, inputs[0]);
      RunStarts(Step(s, inputs[0]), inputs[1..]);
    }
  }

  /** A frame that ends the bound turn, given whether progress and a cancellation were seen. */
  predicate Ends(v: View, bound: TurnId, progress: bool, cancelled: bool) {
    && TurnText(bound) != ""
    && if v.kind.Event? then !v.dropped && v.turnEnd && TurnIdsMatch(bound, v.endTurn) && progress
       else Terminal(v) && StatusJustified(v, bound, progress, cancelled)
  }

  /** The frame read ends the turn, whose generation the floor rises to. */
  ghost predicate AcceptedNow(s: Reader, s': Reader, v: View) {
    && s'.phase.Draining? && |s'.log| > |s.log| && s'.log[|s'.log| - 1] == Accepted(v, s.bound)
    && s'.genFloor == RaisedBy(s.genFloor, s.bound)
  }

  function RaisedBy(floor: nat, bound: TurnId): nat {
    var gen := ParseTurnGeneration(bound);
    if gen.Some? then Max(floor, gen.value) else floor
  }

  lemma AcceptShows(s: Reader, v: View)
    ensures AcceptTerminal(s, v).phase.Draining? && AcceptTerminal(s, v).log == s.log + [Accepted(v, s.bound)]
    ensures AcceptTerminal(s, v).genFloor == RaisedBy(s.genFloor, s.bound)
    ensures BindTurn(s, v).phase == s.phase
  {
    hide ParseTurnGeneration;
  }

  lemma StatusAcceptsWhen(s: Reader, v: View)
    requires s.phase.Reading? && StartedIfBound(s) && v.kind.Status?
    ensures ReadStatus(s, v).phase.Draining? <==> Ends(v, s.bound, s.progress, s.cancelled)
    ensures ReadStatus(s, v).phase.Draining? ==> AcceptedNow(s, ReadStatus(s, v), v)
  {
    var scoped := if v.loopId.Some? then s.(loopId := v.loopId, scope := v.loopId) else s;
    AcceptShows(scoped, v);
    MatchMeansText(s.bound, v.turn);
    hide ShouldBind;
    hide AcceptTerminal;
    hide BindTurn;
    hide TurnText;
    hide TurnIdsMatch;
    hide RaisedBy;
  }

  lemma EventAcceptsWhen(s: Reader, v: View)
    requires s.phase.Reading? && StartedIfBound(s) && v.kind.Event?
    ensures ReadEvent(s, v).phase.Draining? <==> Ends(v, s.bound, s.progress, s.cancelled)
    ensures ReadEvent(s, v).phase.Draining? ==> AcceptedNow(s, ReadEvent(s, v), v)
  {
    var yielded := Noted(s, Yielded(v));
    AcceptShows(yielded, v);
    AcceptShows(Noted(yielded.(cancelled := true), CancelSeen(v)), v);
    MatchMeansText(s.bound, v.endTurn);
    hide AcceptTerminal;
    hide TurnText;
    hide TurnIdsMatch;
    hide RaisedBy;
  }

  lemma ReadAcceptsWhen(s: Reader, v: View)
    requires s.phase.Reading? && StartedIfBound(s)
    ensures ReadStep(s, v).phase.Draining? <==> !Skipped(s, v) && Ends(v, s.bound, s.progress, s.cancelled)
    ensures ReadStep(s, v).phase.Draining? ==> AcceptedNow(s, ReadStep(s, v), v)
  {
    if v.kind.Status? {
      StatusAcceptsWhen(s, v);
    } else if v.kind.Event? {
      EventAcceptsWhen(s, v);
    }
    hide Skipped;
    hide ReadStatus;
    hide ReadEvent;
    hide RaisedBy;
  }

  /** After any run, the frame read next ends the turn if and only if it passes the filters and the
      log shows that the call bound a turn, that this frame names it as it must, and that the
      progress or the cancellation it needs was seen since. */
  lemma AcceptedExactlyWhen(inputs: seq<Input>, v: View)
    requires Faithful(inputs) && Run(Fresh(), inputs).phase.Reading?
    ensures var s := Run(Fresh(), inputs);
      var log, n := s.log, |s.log|;
      AcceptedNow(s, Step(s, Msg(v)), v)
      <==> (!Skipped(s, v)
            && (exists id :: BoundEarlier(log, n, Some(id))
                  && Ends(v, Some(id), ProgressEarlier(log, n), CancelledEarlier(log, n))))
  {
    hide Run;
    hide Skipped;
    hide Ends;
    hide Step;
    hide BoundEarlier;
    hide ProgressEarlier;
    hide CancelledEarlier;
    var s := Run(Fresh(), inputs);
    RunTracks(Fresh(), inputs);
    RunStarts(Fresh(), inputs);
    Reads(s, v);
    ReadAcceptsWhen(s, v);
    NeedsABinding(v, s);
    forall id: string
      ensures BoundEarlier(s.log, |s.log|, Some(id)) <==> s.bound == Some(id)
      ensures ProgressEarlier(s.log, |s.log|) <==> s.progress
      ensures CancelledEarlier(s.log, |s.log|) <==> s.cancelled
    {
      FlagsAreHistory(s, Some(id));
    }
    FlagsAreHistory(s, Some(""));
  }

  lemma Reads(s: Reader, v: View)
    requires s.phase.Reading?
    ensures Step(s, Msg(v)) == ReadStep(s, v)
  {
    hide ReadStep;
  }

  lemma NeedsABinding(v: View, s: Reader)
    ensures Ends(v, s.bound, s.progress, s.cancelled) ==> s.bound.Some?
  {
    MatchMeansText(s.bound, None);
  }

  /** Frames satisfy what the run theorems ask of views. */
  lemma FramesAreFaithful(frame: map<string, JsonValues.Json>, drop: DropFilter)
    ensures var v := LookAt(frame, drop); v.turnEnd ==> !v.progress
  {
  }

  // ---------------------------------------------------------------- the log comes from the input

  ghost predicate From(log: seq<Entry>, inputs: seq<Input>) {
    forall i :: 0 <= i < |log| ==> EntryFrom(log[i], inputs)
  }

  ghost predicate EntryFrom(e: Entry, inputs: seq<Input>) {
    match e
    case BoundTo(v) => Msg(v) in inputs
    case Yielded(v) => Msg(v) in inputs
    case Drained(v) => Msg(v) in inputs
    case CancelSeen(v) => Msg(v) in inputs
    case Accepted(v, _) => Msg(v) in inputs
    case _ => true
  }

  ghost predicate EntryOf(e: Entry, v: View) {
    match e
    case BoundTo(v') => v' == v
    case Yielded(v') => v' == v
    case Drained(v') => v' == v
    case CancelSeen(v') => v' == v
    case Accepted(v', _) => v' == v
    case _ => true
  }

  ghost predicate Extends(a: seq<Entry>, b: seq<Entry>, v: View) {
    && |a| <= |b| && b[..|a|] == a
    && (forall k :: |a| <= k < |b| ==> EntryOf(b[k], v))
  }

  /** What reading one frame can do to the log, the floors and the scope. */
  ghost predicate Moves(s: Reader, s': Reader, v: View) {
    && Extends(s.log, s'.log, v)
    && s.seqFloor <= s'.seqFloor && s.genFloor <= s'.genFloor
    && s'.entryFloor == s.entryFloor
    && (s.scope.Some? && !OtherLoop(s.scope, v) ==> s'.scope == s.scope)
  }

  lemma AcceptMoves(s: Reader, v: View)
    ensures Moves(s, AcceptTerminal(s, v), v)
  {
  }

  lemma MovesTwice(a: Reader, b: Reader, c: Reader, v: View)
    requires Moves(a, b, v) && Moves(b, c, v)
    ensures Moves(a, c, v)
  {
  }

  lemma NoteMoves(s: Reader, s': Reader, e: Entry, v: View)
    requires EntryOf(e, v) && s'.log == s.log + [e]
    requires s'.seqFloor == s.seqFloor && s'.genFloor == s.genFloor
    requires s'.entryFloor == s.entryFloor && s'.scope == s.scope
    ensures Moves(s, s', v)
  {
  }

  lemma EventMoves(s: Reader, v: View)
    ensures Moves(s, ReadEvent(s, v), v)
  {
    hide TurnTerminalAllowed;
    hide AcceptTerminal;
    hide Moves;
    SameMoves(s, v);
    NoteMoves(s, Noted(s.(progress := s.progress || v.progress), Yielded(v)), Yielded(v), v);
    var y := Noted(s, Yielded(v));
    NoteMoves(s, y, Yielded(v), v);
    var m := Noted(y.(cancelled := true), CancelSeen(v));
    NoteMoves(y, m, CancelSeen(v), v);
    MovesTwice(s, y, m, v);
    AcceptMoves(y, v);
    AcceptMoves(m, v);
    MovesTwice(s, y, AcceptTerminal(y, v), v);
    MovesTwice(s, m, AcceptTerminal(m, v), v);
  }

  lemma SameMoves(s: Reader, v: View)
    ensures Moves(s, s, v)
    ensures forall why :: Moves(s, Finish(s, why), v)
    ensures forall b :: Moves(s, s.(started := b), v)
    ensures v.loopId.Some? ==> Moves(s, s.(loopId := v.loopId, scope := v.loopId), v)
  {
    assert s.log[..|s.log|] == s.log;
  }

  lemma BindMoves(s: Reader, v: View)
    ensures Moves(s, BindTurn(s, v), v)
  {
    hide Moves;
    var cleared := if s.bound.Some? && v.turn != s.bound then Noted(s.(progress := false), Forgot) else s;
    SameMoves(s, v);
    if s.bound.Some? && v.turn != s.bound {
      NoteMoves(s, cleared, Forgot, v);
    }
    NoteMoves(cleared, BindTurn(s, v), BoundTo(v), v);
    MovesTwice(s, cleared, BindTurn(s, v), v);
  }

  lemma StatusMoves(s: Reader, v: View)
    ensures Moves(s, ReadStatus(s, v), v)
  {
    hide Moves;
    hide ShouldBind;
    hide StatusTerminalAllowed;
    hide BindTurn;
    hide AcceptTerminal;
    var scoped := if v.loopId.Some? then s.(loopId := v.loopId, scope := v.loopId) else s;
    SameMoves(s, v);
    SameMoves(scoped, v);
    BindMoves(scoped, v);
    AcceptMoves(scoped, v);
    MovesTwice(s, scoped, ReadStatus(s, v), v);
  }

  lemma ReadMoves(s: Reader, v: View)
    ensures Moves(s, ReadStep(s, v), v)
  {
    hide Moves;
    hide ReadStatus;
    hide ReadEvent;
    hide Skipped;
    SameMoves(s, v);
    match v.kind {
      case Status => StatusMoves(s, v);
      case Event => EventMoves(s, v);
      case CommandResponse => NoteMoves(s, Noted(s.(cancelled := true), CancelSeen(v)), CancelSeen(v), v);
      case _ =>
    }
  }

  /** The same for a frame met while draining, the scope of the main loop included. */
  lemma DrainMoves(s: Reader, v: View)
    requires s.phase.Draining?
    ensures Moves(s, Step(s, Msg(v)), v)
  {
    hide Moves;
    hide ReadStep;
    hide Hands;
    hide OtherLoop;
    SameMoves(s, v);
    if Hands(s, v) {
      var h := Handover(s, v);
      var f := Noted(s, Forgot);
      NoteMoves(s, f, Forgot, v);
      assert h.log == f.log + [Released];
      NoteMoves(f, h, Released, v);
      MovesTwice(s, f, h, v);
    } else if v.kind.Event? {
      NoteMoves(s, Noted(s, Drained(v)), Drained(v), v);
    } else {
      PhaseMoves(s, v);
    }
  }

  lemma PhaseMoves(s: Reader, v: View)
    ensures forall l, p :: Moves(s, s.(loopId := l, phase := p), v)
  {
    assert s.log[..|s.log|] == s.log;
  }

  lemma MsgMoves(s: Reader, v: View)
    ensures Moves(s, Step(s, Msg(v)), v)
  {
    hide Moves;
    hide ReadStep;
    SameMoves(s, v);
    ReadMoves(s, v);
    if s.phase.Draining? {
      DrainMoves(s, v);
    }
  }

  lemma StepLogs(s: Reader, i: Input)
    ensures |s.log| <= |Step(s, i).log| && Step(s, i).log[..|s.log|] == s.log
    ensures forall k :: |s.log| <= k < |Step(s, i).log| ==> EntryFrom(Step(s, i).log[k], [i])
  {
    if i.Msg? {
      hide Step;
      hide OtherLoop;
      MsgMoves(s, i.v);
      assert Msg(i.v) in [i];
    } else {
      hide ReadStep;
    }
  }

  /** Everything in the log was done with a frame that was read. */
  lemma {:induction false} LogComesFromInputs(s: Reader, inputs: seq<Input>)
    requires From(s.log, [])
    ensures From(Run(s, inputs).log, inputs)
    decreases |inputs|
  {
    LogsGrow(s, inputs, 0);
  }

  lemma {:induction false} LogsGrow(s: Reader, inputs: seq<Input>, n: nat)
    requires n <= |inputs| && From(s.log, inputs[..n])
    ensures From(Run(s, inputs[n..]).log, inputs)
    decreases |inputs| - n
  {
    hide Step;
    hide EntryFrom;
    if n < |inputs| {
      var s' := Step(s, inputs[n]);
      StepLogs(s, inputs[n]);
      assert inputs[n..][0] == inputs[n] && inputs[n..][1..] == inputs[n + 1..];
      forall k | 0 <= k < |s'.log|
        ensures EntryFrom(s'.log[k], inputs[..n + 1])
      {
        if k < |s.log| {
          assert s'.log[k] == s'.log[..|s.log|][k] == s.log[k];
          MoreInputs(s.log[k], inputs[..n], inputs[..n + 1]);
        } else {
          MoreInputs(s'.log[k], [inputs[n]], inputs[..n + 1]);
        }
      }
      LogsGrow(s', inputs, n + 1);
    } else {
      assert inputs[..n] == inputs && inputs[n..] == [];
    }
  }

  lemma MoreInputs(e: Entry, a: seq<Input>, b: seq<Input>)
    requires EntryFrom(e, a) && forall i :: i in a ==> i in b
    ensures EntryFrom(e, b)
  {
  }

  // ---------------------------------------------------------------- floors

  /** Neither floor ever falls, except when it is reset. */
  lemma FloorsNeverFall(s: Reader, i: Input)
    requires !i.Reconnected? && !(i.Bootstrapped? && s.phase.Idle? && i.loop != s.loopId)
    ensures s.seqFloor <= Step(s, i).seqFloor && s.genFloor <= Step(s, i).genFloor
  {
    if i.Msg? {
      hide Step;
      hide Extends;
      hide OtherLoop;
      MsgMoves(s, i.v);
    } else {
      hide ReadStep;
    }
  }

  // ---------------------------------------------------------------- stale frames

  /** The main loop up to its first terminal, error or end of stream. */
  function RunMain(s: Reader, inputs: seq<Input>): Reader
    decreases |inputs|
  {
    if inputs == [] || !s.phase.Reading? then s else RunMain(Step(s, inputs[0]), inputs[1..])
  }

  /** A frame of another loop, or numbered at or below a positive floor. */
  predicate Stale(loop: Option<string>, floor: nat, i: Input) {
    i.Msg? && (OtherLoop(loop, i.v) || AtOrBelow(floor, i.v))
  }

  function WithoutStale(loop: Option<string>, floor: nat, inputs: seq<Input>): seq<Input> {
    if inputs == [] then []
    else (if Stale(loop, floor, inputs[0]) then [] else [inputs[0]]) + WithoutStale(loop, floor, inputs[1..])
  }

  lemma MainKeepsScope(s: Reader, i: Input)
    requires s.phase.Reading? && s.scope.Some? && !Stale(s.scope, s.entryFloor, i)
    ensures Step(s, i).scope == s.scope && Step(s, i).entryFloor == s.entryFloor
  {
    if i.Msg? {
      hide Step;
      hide Extends;
      MsgMoves(s, i.v);
    } else {
      hide ReadStep;
    }
  }

  /** Deleting every stale frame changes nothing the main loop does: same chunks, same binding,
      same flags, same first terminal, same log. */
  lemma {:induction false} StaleFramesLeaveNoTrace(s: Reader, inputs: seq<Input>)
    requires s.phase.Reading? && s.scope.Some?
    ensures RunMain(s, WithoutStale(s.scope, s.entryFloor, inputs)) == RunMain(s, inputs)
    decreases |inputs|
  {
    if inputs != [] {
      var rest := inputs[1..];
      var live := WithoutStale(s.scope, s.entryFloor, rest);
      if Stale(s.scope, s.entryFloor, inputs[0]) {
        SkippedStep(s, inputs[0]);
        StaleFramesLeaveNoTrace(s, rest);
        assert [] + live == live;
      } else {
        hide Step;
        MainKeepsScope(s, inputs[0]);
        assert ([inputs[0]] + live)[1..] == live;
        if Step(s, inputs[0]).phase.Reading? {
          StaleFramesLeaveNoTrace(Step(s, inputs[0]), rest);
        } else {
          Stopped(Step(s, inputs[0]), live);
          Stopped(Step(s, inputs[0]), rest);
        }
      }
    }
  }

  lemma SkippedStep(s: Reader, i: Input)
    requires s.phase.Reading? && Stale(s.scope, s.entryFloor, i)
    ensures Step(s, i) == s
  {
  }

  lemma Stopped(s: Reader, inputs: seq<Input>)
    requires !s.phase.Reading?
    ensures RunMain(s, inputs) == s
  {
  }
}
