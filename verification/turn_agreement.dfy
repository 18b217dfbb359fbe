/** The session reader and the pool path's turn boundary implement one contract
    (`appkit/daemon_session.py`, `appkit/turn_boundary.py`). On the same frames the boundary
    simulates the reader; here is on which frames, and exactly when the two end together. */
module TurnAgreement {
  import opened PythonText
  import opened JsonValues
  import opened TurnGates
  import opened Frames
  import opened SessionReader
  import opened SessionTheorems
  import opened TurnBoundaries

  /** What a session remembers of earlier turns when a call starts. A boundary is made anew for every
      turn and remembers nothing. */
  datatype Floors = Floors(seqNo: nat, gen: nat)

  function FloorsOf(s: Reader): Floors { Floors(s.seqFloor, s.genFloor) }

  /** Frames on which the two are comparable: of one loop, above the sequence floor, no daemon error,
      no cancellation, statuses sent in plain spelling. */
  predicate Comparable(loop: string, floors: Floors, v: View) {
    && (v.loopId.Some? ==> v.loopId.value == loop) && !AtOrBelow(floors.seqNo, v)
    && !v.kind.Error? && !v.cancelAck && (v.kind.Status? ==> v.state == v.plainState)
  }

  ghost predicate AllComparable(loop: string, floors: Floors, views: seq<View>) {
    forall i :: 0 <= i < |views| ==> Comparable(loop, floors, views[i]) && (views[i].turnEnd ==> !views[i].progress)
  }

  /** A running status of a generation that is completed already. */
  predicate Outdated(floors: Floors, v: View) {
    Running(v) && ParseTurnGeneration(v.turn).Some? && ParseTurnGeneration(v.turn).value <= floors.gen
  }

  ghost predicate NoneOutdated(floors: Floors, views: seq<View>) {
    forall i :: 0 <= i < |views| ==> !Outdated(floors, views[i])
  }

  /** The reader amid a call. */
  ghost predicate Amid(loop: string, floors: Floors, s: Reader) {
    && s.phase.Reading? && (s.scope.Some? ==> s.scope.value == loop) && !s.cancelled
    && s.entryFloor == floors.seqNo && s.genFloor == floors.gen
    && (s.bound.Some? ==> s.started)
    && (ParseTurnGeneration(s.bound).Some? ==> ParseTurnGeneration(s.bound).value > floors.gen)
  }

  /** The boundary amid a turn. */
  ghost predicate Open(b: Boundary) {
    !b.ended && !b.gate.cancelled && b.gate.completedGen == 0
  }

  /** Same binding; progress seen by the reader was seen by the boundary. */
  ghost predicate Simulates(loop: string, floors: Floors, s: Reader, b: Boundary) {
    && Amid(loop, floors, s) && Open(b)
    && s.bound == b.gate.expected && s.started == b.gate.sawRunning && (s.progress ==> b.gate.sawProgress)
  }

  function Msgs(views: seq<View>): (inputs: seq<Input>)
    ensures |inputs| == |views|
    ensures forall i :: 0 <= i < |views| ==> inputs[i] == Msg(views[i])
  {
    seq(|views|, i requires 0 <= i < |views| => Msg(views[i]))
  }

  /** Both ended on the same frame, for the same reason, at the same generation. */
  ghost predicate Corresponds(s: Reader, b: Boundary) {
    && s.phase.Draining? && b.ended
    && s.log != [] && s.log[|s.log| - 1].Accepted?
    && var last := s.log[|s.log| - 1];
       && b.reason == ReasonFor(last.v)
       && (ParseTurnGeneration(last.bound).Some? ==> s.genFloor == b.gate.completedGen)
  }

  // ---------------------------------------------------------------- the bindings

  /** Without a binding that has a generation, the boundary binds an outdated turn; the reader, which
      knows the floor, does not. */
  predicate BindsOutdated(floors: Floors, s: Reader, v: View) {
    Outdated(floors, v) && ParseTurnGeneration(s.bound).None?
  }

  /** The reader never meets an outdated running status while it is bound to no generation. */
  ghost predicate NeverBindsOutdated(floors: Floors, s: Reader, views: seq<View>)
    decreases |views|
  {
    views != [] && s.phase.Reading? ==>
      !BindsOutdated(floors, s, views[0]) && NeverBindsOutdated(floors, Step(s, Msg(views[0])), views[1..])
  }

  lemma {:induction false} NoneIsBound(floors: Floors, s: Reader, views: seq<View>)
    requires NoneOutdated(floors, views)
    ensures NeverBindsOutdated(floors, s, views)
    decreases |views|
  {
    hide Step;
    hide Outdated;
    if views != [] && s.phase.Reading? {
      assert NoneOutdated(floors, views[1..]) by {
        assert forall i :: 0 <= i < |views[1..]| ==> views[1..][i] == views[i + 1];
      }
      NoneIsBound(floors, Step(s, Msg(views[0])), views[1..]);
    }
  }

  lemma GenerationNeedsText(t: TurnId)
    ensures ParseTurnGeneration(t).Some? ==> t.Some? && t.value != ""
  {
    assert Strip("") == "";
  }

  /** The two gates on a running status agree, except on the outdated. */
  lemma GatesAgree(floors: Floors, s: Reader, v: View)
    requires ParseTurnGeneration(s.bound).Some? ==> ParseTurnGeneration(s.bound).value > floors.gen
    requires Running(v)
    ensures !BindsOutdated(floors, s, v) ==> ShouldBind(v.turn, s.bound, floors.gen) == ShouldBind(v.turn, s.bound, 0)
    ensures BindsOutdated(floors, s, v) ==> ShouldBind(v.turn, s.bound, 0) && !ShouldBind(v.turn, s.bound, floors.gen)
    ensures BindsOutdated(floors, s, v) ==> v.turn != s.bound
    ensures ShouldBind(v.turn, s.bound, floors.gen) ==>
      v.turn.Some? && (ParseTurnGeneration(v.turn).Some? ==> ParseTurnGeneration(v.turn).value > floors.gen)
  {
    GenerationNeedsText(v.turn);
    GenerationNeedsText(s.bound);
    hide ParseTurnGeneration;
  }

  // ---------------------------------------------------------------- one frame read

  /** A comparable frame passes all filters but the one on turns. */
  lemma ComparableReads(loop: string, floors: Floors, s: Reader, v: View)
    requires Amid(loop, floors, s) && Comparable(loop, floors, v)
    ensures Step(s, Msg(v)) ==
      if WrongTurn(s.bound, v) then s
      else match v.kind
        case Status => ReadStatus(s, v)
        case Event => ReadEvent(s, v)
        case _ => s
  {
    hide ReadStatus;
    hide ReadEvent;
    hide WrongTurn;
    hide ParseTurnGeneration;
  }

  /** The fields that tell how a call goes on. */
  ghost predicate GoesOn(s: Reader, s': Reader, v: View) {
    && s'.phase == s.phase && s'.cancelled == s.cancelled && s'.entryFloor == s.entryFloor && s'.genFloor == s.genFloor
    && (s'.scope == s.scope || (v.loopId.Some? && s'.scope == v.loopId))
  }

  predicate Binds(s: Reader, v: View) {
    v.turn.Some? && ShouldBind(v.turn, s.bound, s.genFloor)
  }

  /** A running status. */
  lemma RunningReads(loop: string, floors: Floors, s: Reader, v: View)
    requires Amid(loop, floors, s) && Comparable(loop, floors, v) && Running(v)
    ensures var s' := Step(s, Msg(v));
      && GoesOn(s, s', v)
      && s'.bound == (if Binds(s, v) then v.turn else s.bound)
      && s'.started == (s.started || v.turn.None? || Binds(s, v))
      && s'.progress == (s.progress && !Clears(s, v))
  {
    ComparableReads(loop, floors, s, v);
    hide Step;
    hide ShouldBind;
    hide ParseTurnGeneration;
  }

  /** Any other frame: either it ends the turn, or binding and start stay and progress may be seen. */
  lemma OthersRead(loop: string, floors: Floors, s: Reader, v: View)
    requires Amid(loop, floors, s) && Comparable(loop, floors, v) && !Running(v) && (v.turnEnd ==> !v.progress)
    ensures var s' := Step(s, Msg(v));
      || s'.phase.Draining?
      || (GoesOn(s, s', v) && s'.bound == s.bound && s'.started == s.started
          && s'.progress == (s.progress || (v.kind.Event? && v.progress && Heard(s, v))))
  {
    ComparableReads(loop, floors, s, v);
    hide Step;
    hide AcceptTerminal;
    AcceptDrains(s, v);
    hide TurnIdsMatch;
    hide StatusTerminalAllowed;
    hide TurnTerminalAllowed;
    hide ParseTurnGeneration;
  }

  lemma AcceptDrains(s: Reader, v: View)
    ensures forall r: Reader :: AcceptTerminal(r, v).phase.Draining?
  {
    hide ParseTurnGeneration;
  }

  // ---------------------------------------------------------------- running statuses

  lemma RunningSimulates(loop: string, floors: Floors, s: Reader, b: Boundary, v: View)
    requires Simulates(loop, floors, s, b) && Comparable(loop, floors, v) && Running(v)
    ensures Amid(loop, floors, Step(s, Msg(v))) && Open(Fed(b, v))
    ensures !BindsOutdated(floors, s, v) ==> Simulates(loop, floors, Step(s, Msg(v)), Fed(b, v))
    ensures BindsOutdated(floors, s, v) ==> Step(s, Msg(v)).bound != Fed(b, v).gate.expected
    ensures !BindsOutdated(floors, s, v) && s.progress == b.gate.sawProgress ==>
      Step(s, Msg(v)).progress == Fed(b, v).gate.sawProgress
  {
    GatesAgree(floors, s, v);
    RunningReads(loop, floors, s, v);
    hide Step;
    hide ShouldBind;
    hide ParseTurnGeneration;
    hide BindsOutdated;
  }

  // ---------------------------------------------------------------- the simulation

  lemma StatusSimulates(loop: string, floors: Floors, s: Reader, b: Boundary, v: View)
    requires Simulates(loop, floors, s, b) && Comparable(loop, floors, v) && v.kind.Status? && !Running(v)
    ensures var s', b' := Step(s, Msg(v)), Fed(b, v);
      && (s'.phase.Draining? ==> b'.ended)
      && (!b'.ended ==> Simulates(loop, floors, s', b'))
      && (s.progress == b.gate.sawProgress ==>
            if b'.ended then Corresponds(s', b') else s'.progress == b'.gate.sawProgress)
  {
    hide ParseTurnGeneration;
    hide TurnText;
  }

  lemma EventSimulates(loop: string, floors: Floors, s: Reader, b: Boundary, v: View)
    requires Simulates(loop, floors, s, b) && Comparable(loop, floors, v) && v.kind.Event?
    requires v.turnEnd ==> !v.progress
    ensures var s', b' := Step(s, Msg(v)), Fed(b, v);
      && (s'.phase.Draining? ==> b'.ended)
      && (!b'.ended ==> Simulates(loop, floors, s', b'))
      && (s.progress == b.gate.sawProgress && Heard(s, v) ==>
            if b'.ended then Corresponds(s', b') else s'.progress == b'.gate.sawProgress)
  {
    hide ParseTurnGeneration;
    hide TurnIdsMatch;
  }

  /** A chunk the reader does not drop: kept by the filter, and of the bound turn if any. */
  predicate Heard(s: Reader, v: View) {
    v.kind.Event? ==> !v.dropped && (s.bound.Some? ==> TurnIdsMatch(s.bound, v.turn))
  }

  /** Every chunk is heard, along the run. */
  ghost predicate AllHeard(s: Reader, views: seq<View>)
    decreases |views|
  {
    views != [] && s.phase.Reading? ==> Heard(s, views[0]) && AllHeard(Step(s, Msg(views[0])), views[1..])
  }

  lemma StepSimulates(loop: string, floors: Floors, s: Reader, b: Boundary, v: View)
    requires Simulates(loop, floors, s, b) && Comparable(loop, floors, v) && (v.turnEnd ==> !v.progress)
    requires !BindsOutdated(floors, s, v)
    ensures var s', b' := Step(s, Msg(v)), Fed(b, v);
      && (s'.phase.Draining? ==> b'.ended)
      && (!b'.ended ==> Simulates(loop, floors, s', b'))
      && (s.progress == b.gate.sawProgress && Heard(s, v) ==>
            if b'.ended then Corresponds(s', b') else s'.progress == b'.gate.sawProgress)
  {
    if Running(v) {
      RunningSimulates(loop, floors, s, b, v);
    } else if v.kind.Status? {
      StatusSimulates(loop, floors, s, b, v);
    } else if v.kind.Event? {
      EventSimulates(loop, floors, s, b, v);
    } else {
      hide ParseTurnGeneration;
    }
  }

  lemma {:induction false} EndedStays(b: Boundary, views: seq<View>)
    requires b.ended
    ensures FedAll(b, views) == b
    decreases |views|
  {
    if views != [] {
      EndedStays(b, views[1..]);
    }
  }

  lemma Readings(loop: string, floors: Floors, s: Reader, b: Boundary)
    requires Simulates(loop, floors, s, b)
    ensures s.phase.Reading? && Amid(loop, floors, s) && Open(b) && !b.ended && s.bound == b.gate.expected
  {
  }

  /** On the same frames, a reader that has accepted a terminal has a boundary that has ended. As
      this holds of every prefix, the boundary ends no later than the reader. */
  lemma {:induction false} BoundaryEndsNoLater(loop: string, floors: Floors, s: Reader, b: Boundary, views: seq<View>)
    requires Simulates(loop, floors, s, b) && AllComparable(loop, floors, views)
    requires NeverBindsOutdated(floors, s, views)
    ensures RunMain(s, Msgs(views)).phase.Draining? ==> FedAll(b, views).ended
    decreases |views|
  {
    hide Simulates;
    hide Step;
    hide Fed;
    hide Comparable;
    hide BindsOutdated;
    Readings(loop, floors, s, b);
    if views != [] {
      var s', b' := Step(s, Msg(views[0])), Fed(b, views[0]);
      StepSimulates(loop, floors, s, b, views[0]);
      assert Msgs(views)[1..] == Msgs(views[1..]);
      if b'.ended {
        EndedStays(b', views[1..]);
      } else {
        BoundaryEndsNoLater(loop, floors, s', b', views[1..]);
      }
    }
  }

  /** If besides every chunk is heard, the two end on the same frame, for corresponding reasons and
      at the same generation, or neither ends. */
  lemma {:induction false} SameFrameSameReason(loop: string, floors: Floors, s: Reader, b: Boundary, views: seq<View>)
    requires Simulates(loop, floors, s, b) && AllComparable(loop, floors, views)
    requires NeverBindsOutdated(floors, s, views)
    requires s.progress == b.gate.sawProgress && AllHeard(s, views)
    ensures var s', b' := RunMain(s, Msgs(views)), FedAll(b, views);
      if b'.ended then Corresponds(s', b') else s'.phase.Reading?
    decreases |views|
  {
    hide Simulates;
    hide Step;
    hide Fed;
    hide Comparable;
    hide Corresponds;
    hide Heard;
    hide BindsOutdated;
    Readings(loop, floors, s, b);
    if views != [] {
      var s', b' := Step(s, Msg(views[0])), Fed(b, views[0]);
      StepSimulates(loop, floors, s, b, views[0]);
      assert Msgs(views)[1..] == Msgs(views[1..]);
      if b'.ended {
        EndedStays(b', views[1..]);
        CorrespondsDrains(s', b');
        Stopped(s', Msgs(views[1..]));
      } else {
        SameFrameSameReason(loop, floors, s', b', views[1..]);
      }
    }
  }

  lemma CorrespondsDrains(s: Reader, b: Boundary)
    requires Corresponds(s, b)
    ensures s.phase.Draining?
  {
  }

  /** As long as the boundary has not ended, the two still simulate. */
  lemma {:induction false} UnendedSimulates(loop: string, floors: Floors, s: Reader, b: Boundary, views: seq<View>)
    requires Simulates(loop, floors, s, b) && AllComparable(loop, floors, views) && !FedAll(b, views).ended
    requires NeverBindsOutdated(floors, s, views)
    ensures Simulates(loop, floors, RunMain(s, Msgs(views)), FedAll(b, views))
    decreases |views|
  {
    hide Simulates;
    hide Step;
    hide Fed;
    hide Comparable;
    hide BindsOutdated;
    Readings(loop, floors, s, b);
    if views != [] {
      var s', b' := Step(s, Msg(views[0])), Fed(b, views[0]);
      StepSimulates(loop, floors, s, b, views[0]);
      assert Msgs(views)[1..] == Msgs(views[1..]);
      if b'.ended {
        EndedStays(b', views[1..]);
      }
      UnendedSimulates(loop, floors, s', b', views[1..]);
    }
  }

  /** The bindings are the same before and after every frame. */
  ghost predicate SameBindings(s: Reader, b: Boundary, views: seq<View>)
    decreases |views|
  {
    s.bound == b.gate.expected && (views != [] ==> SameBindings(Step(s, Msg(views[0])), Fed(b, views[0]), views[1..]))
  }

  /** Before the boundary ends, the bindings part exactly at a running status of a completed
      generation that meets a reader bound to no generation. */
  lemma {:induction false} BindingsPartExactlyWhen(loop: string, floors: Floors, s: Reader, b: Boundary,
                                                    views: seq<View>)
    requires Simulates(loop, floors, s, b) && AllComparable(loop, floors, views) && !FedAll(b, views).ended
    ensures SameBindings(s, b, views) <==> NeverBindsOutdated(floors, s, views)
    decreases |views|
  {
    hide Simulates;
    hide Step;
    hide Fed;
    hide Comparable;
    hide BindsOutdated;
    Readings(loop, floors, s, b);
    if views != [] {
      var s', b' := Step(s, Msg(views[0])), Fed(b, views[0]);
      if BindsOutdated(floors, s, views[0]) {
        OutdatedRuns(floors, s, views[0]);
        RunningSimulates(loop, floors, s, b, views[0]);
      } else {
        StepSimulates(loop, floors, s, b, views[0]);
        if b'.ended {
          EndedStays(b', views[1..]);
        }
        BindingsPartExactlyWhen(loop, floors, s', b', views[1..]);
      }
    }
  }

  lemma OutdatedRuns(floors: Floors, s: Reader, v: View)
    requires BindsOutdated(floors, s, v)
    ensures Running(v)
  {
  }
  // ---------------------------------------------------------------- exactly when they end together

  lemma {:induction false} OneMoreFrame(s: Reader, b: Boundary, views: seq<View>, v: View)
    ensures FedAll(b, views + [v]) == Fed(FedAll(b, views), v)
    ensures RunMain(s, Msgs(views)).phase.Reading? ==>
      RunMain(s, Msgs(views + [v])) == Step(RunMain(s, Msgs(views)), Msg(v))
    ensures !RunMain(s, Msgs(views)).phase.Reading? ==> RunMain(s, Msgs(views + [v])) == RunMain(s, Msgs(views))
    decreases |views|
  {
    hide Step;
    hide Fed;
    assert Msgs(views + [v]) == Msgs(views) + [Msg(v)];
    if views == [] {
      assert [] + [v] == [v] && [v][1..] == [] && Msgs([v])[1..] == [];
      if s.phase.Reading? {
        Stepped(s, v);
      }
    } else {
      assert (views + [v])[1..] == views[1..] + [v] && (views + [v])[0] == views[0];
      assert Msgs(views)[1..] == Msgs(views[1..]) && Msgs(views + [v])[1..] == Msgs(views[1..] + [v]);
      OneMoreFrame(Step(s, Msg(views[0])), Fed(b, views[0]), views[1..], v);
    }
  }

  lemma Stepped(s: Reader, v: View)
    requires s.phase.Reading?
    ensures RunMain(s, Msgs([v])) == Step(s, Msg(v))
  {
    hide Step;
    assert Msgs([v])[1..] == [];
    assert RunMain(Step(s, Msg(v)), []) == Step(s, Msg(v));
  }

  /** Both are bound to one turn, ids compared by their text. */
  predicate OneTurn(s: Reader, b: Boundary) {
    TurnText(s.bound) == TurnText(b.gate.expected)
  }

  /** A frame on which the boundary ends ends the reader exactly when it is heard, the reader has seen
      progress, and the two are bound to one turn. */
  lemma EndingFrame(loop: string, floors: Floors, s: Reader, b: Boundary, v: View)
    requires Amid(loop, floors, s) && Open(b) && Comparable(loop, floors, v) && (v.turnEnd ==> !v.progress)
    requires Fed(b, v).ended
    ensures Step(s, Msg(v)).phase.Draining? <==> Heard(s, v) && s.progress && OneTurn(s, b)
    ensures Step(s, Msg(v)).phase.Draining? ==> Corresponds(Step(s, Msg(v)), Fed(b, v))
  {
    NotRunning(b, v);
    ReadAcceptsWhen(s, v);
    Reads(s, v);
    IdsThatMatch(b.gate.expected, v.turn);
    IdsThatMatch(b.gate.expected, v.endTurn);
    SameTextSameGeneration(s.bound, b.gate.expected);
    hide ReadStep;
    hide Step;
    hide ParseTurnGeneration;
    hide TurnText;
  }

  /** No running status ends a turn. */
  lemma NotRunning(b: Boundary, v: View)
    requires Open(b) && Fed(b, v).ended && (v.turnEnd ==> !v.progress)
    ensures Observed(b.gate, v) == b.gate && EndReason(b.gate, v).Some?
    ensures !(v.kind.Status? && v.plainState == "running")
  {
    hide ShouldBind;
    hide StatusTerminalAllowed;
    hide TurnTerminalAllowed;
    hide ParseTurnGeneration;
  }

  lemma IdsThatMatch(a: TurnId, b: TurnId)
    ensures TurnIdsMatch(a, b) ==> a.Some? && b.Some? && TurnText(b) != ""
  {
    assert Strip("") == "";
  }

  lemma SameTextSameGeneration(a: TurnId, b: TurnId)
    ensures TurnText(a) == TurnText(b) ==> ParseTurnGeneration(a) == ParseTurnGeneration(b)
  {
  }

  /** The reader's state when it meets the k-th frame. */
  function At(s: Reader, views: seq<View>, k: nat): Reader
    requires k <= |views|
  {
    RunMain(s, Msgs(views[..k]))
  }

  /** The k-th frame is a progress chunk that the reader does not drop. */
  ghost predicate ProgressAt(s: Reader, views: seq<View>, k: nat)
    requires k < |views|
  {
    views[k].kind.Event? && views[k].progress && Heard(At(s, views, k), views[k])
  }

  /** The k-th frame binds another turn, which clears the progress seen. */
  ghost predicate ClearsAt(s: Reader, views: seq<View>, k: nat)
    requires k < |views|
  {
    Clears(At(s, views, k), views[k])
  }

  predicate Clears(s: Reader, v: View) {
    Running(v) && v.turn.Some? && ShouldBind(v.turn, s.bound, s.genFloor) && s.bound.Some? && v.turn != s.bound
  }

  /** Some progress chunk was heard, and nothing cleared it since. */
  ghost predicate ProgressHeard(s: Reader, views: seq<View>) {
    exists k :: 0 <= k < |views| && ProgressAt(s, views, k) && Uncleared(s, views, k)
  }

  ghost predicate Uncleared(s: Reader, views: seq<View>, k: nat) {
    forall m :: k < m < |views| ==> !ClearsAt(s, views, m)
  }

  /** One frame that does not end the reader. */
  lemma StaysAmid(loop: string, floors: Floors, s: Reader, v: View)
    requires Amid(loop, floors, s) && Comparable(loop, floors, v) && (v.turnEnd ==> !v.progress)
    ensures var s' := Step(s, Msg(v)); s'.phase.Draining? || Amid(loop, floors, s')
    ensures Step(s, Msg(v)).phase.Reading? ==>
      (Step(s, Msg(v)).progress
       <==> (s.progress && !Clears(s, v)) || (v.kind.Event? && v.progress && Heard(s, v)))
  {
    if Running(v) {
      GatesAgree(floors, s, v);
      RunningReads(loop, floors, s, v);
    } else {
      OthersRead(loop, floors, s, v);
    }
    hide Step;
    hide ParseTurnGeneration;
    hide ShouldBind;
    hide TurnIdsMatch;
  }

  /** Without a turn end, the reader's progress flag is exactly progress heard and not cleared. */
  lemma {:induction false} FlagIsProgressHeard(loop: string, floors: Floors, s: Reader, views: seq<View>)
    requires Amid(loop, floors, s) && !s.progress && AllComparable(loop, floors, views)
    requires RunMain(s, Msgs(views)).phase.Reading?
    ensures Amid(loop, floors, RunMain(s, Msgs(views)))
    ensures RunMain(s, Msgs(views)).progress <==> ProgressHeard(s, views)
    decreases |views|
  {
    hide Step;
    hide Amid;
    hide Clears;
    hide Heard;
    hide Comparable;
    if views == [] {
      assert Msgs(views) == [];
    } else {
      var n := |views| - 1;
      var before, v := views[..n], views[n];
      assert views == before + [v];
      OneMoreFrame(s, FreshBoundary(), before, v);
      FlagIsProgressHeard(loop, floors, s, before);
      StaysAmid(loop, floors, At(s, views, n), v);
      hide RunMain;
      PrefixesAgree(s, views, n);
    }
  }

  /** Progress heard in a list, by its last frame. */
  lemma PrefixesAgree(s: Reader, views: seq<View>, n: nat)
    requires n + 1 == |views|
    ensures ProgressHeard(s, views)
       <==> ProgressAt(s, views, n) || (ProgressHeard(s, views[..n]) && !ClearsAt(s, views, n))
  {
    hide Clears;
    hide Heard;
    hide RunMain;
    var before := views[..n];
    assert forall k :: 0 <= k <= n ==> before[..k] == views[..k];
    assert forall k :: 0 <= k < n ==> (ProgressAt(s, before, k) <==> ProgressAt(s, views, k));
    assert forall k :: 0 <= k < n ==> (ClearsAt(s, before, k) <==> ClearsAt(s, views, k));
    if ProgressHeard(s, before) && !ClearsAt(s, views, n) {
      var k :| 0 <= k < |before| && ProgressAt(s, before, k) && Uncleared(s, before, k);
      assert ProgressAt(s, views, k) && Uncleared(s, views, k);
    }
    if ProgressAt(s, views, n) {
      assert Uncleared(s, views, n);
    }
    if ProgressHeard(s, views) && !ProgressAt(s, views, n) {
      var k :| 0 <= k < |views| && ProgressAt(s, views, k) && Uncleared(s, views, k);
      assert k < n && ProgressAt(s, before, k) && Uncleared(s, before, k);
    }
  }

  lemma {:induction false} OpenStays(b: Boundary, views: seq<View>)
    requires Open(b) && !FedAll(b, views).ended
    ensures Open(FedAll(b, views))
    decreases |views|
  {
    if views != [] {
      if Fed(b, views[0]).ended {
        EndedStays(Fed(b, views[0]), views[1..]);
      }
      OneStaysOpen(b, views[0]);
      hide Fed;
      OpenStays(Fed(b, views[0]), views[1..]);
    }
  }

  lemma OneStaysOpen(b: Boundary, v: View)
    requires Open(b)
    ensures Fed(b, v).ended || Open(Fed(b, v))
  {
    hide ShouldBind;
    hide EndReason;
  }

  /** The exact condition, on any comparable frames. When the boundary ends on a frame, a reader that
      still reads ends on it too if and only if the frame is heard, some progress chunk was heard that
      nothing cleared since, and the two are bound to one turn; and then for the corresponding
      reason. */
  lemma EndTogetherExactlyWhen(loop: string, floors: Floors, s: Reader, b: Boundary, views: seq<View>, last: View)
    requires Amid(loop, floors, s) && Open(b) && !s.progress && AllComparable(loop, floors, views + [last])
    requires RunMain(s, Msgs(views)).phase.Reading?
    requires !FedAll(b, views).ended && FedAll(b, views + [last]).ended
    ensures var before, reader := RunMain(s, Msgs(views)), RunMain(s, Msgs(views + [last]));
      && (reader.phase.Draining?
          <==> Heard(before, last) && ProgressHeard(s, views) && OneTurn(before, FedAll(b, views)))
      && (reader.phase.Draining? ==> Corresponds(reader, FedAll(b, views + [last])))
  {
    hide Amid;
    hide Open;
    hide OneTurn;
    hide Step;
    hide Fed;
    hide Comparable;
    hide Heard;
    hide Corresponds;
    hide ProgressHeard;
    assert AllComparable(loop, floors, views) by {
      assert forall i :: 0 <= i < |views| ==> views[i] == (views + [last])[i];
    }
    assert (views + [last])[|views|] == last;
    OneMoreFrame(s, b, views, last);
    FlagIsProgressHeard(loop, floors, s, views);
    OpenStays(b, views);
    EndingFrame(loop, floors, RunMain(s, Msgs(views)), FedAll(b, views), last);
  }

  // ---------------------------------------------------------------- on raw frames

  function Looks(frames: seq<JsonMap>, drop: DropFilter): (views: seq<View>)
    ensures |views| == |frames|
    ensures forall i :: 0 <= i < |frames| ==> views[i] == LookAt(Unwrap(frames[i]), drop)
  {
    seq(|frames|, i requires 0 <= i < |frames| => LookAt(Unwrap(frames[i]), drop))
  }

  /** Sent bare, or wrapped in an envelope that adds no turn id of its own. */
  predicate Plain(frame: JsonMap) {
    Get(frame, "type") != Str("next") || PlainEnvelope(frame)
  }

  /** Raw frames on which a call from `s` and a boundary are comparable. */
  predicate Fair(loop: string, s: Reader, frame: JsonMap, drop: DropFilter) {
    Plain(frame) && Comparable(loop, FloorsOf(s), LookAt(Unwrap(frame), drop))
  }

  lemma SameViewSameStep(b: Boundary, v: View, w: View)
    requires SameForTurns(v, w)
    ensures Fed(b, v) == Fed(b, w)
  {
  }

  lemma PlainFrameFeeds(b: Boundary, frame: JsonMap, drop: DropFilter)
    requires Plain(frame)
    ensures FedFrame(b, frame) == Fed(b, LookAt(Unwrap(frame), drop))
  {
    hide Fed;
    hide Normalize;
    hide Unwrap;
    hide LookAt;
    BothUnwrappingsAgree(frame, KEEP_ALL);
    FilterIsNoMatter(Unwrap(frame), drop);
    SameViewSameStep(b, LookAt(Normalize(frame).value, KEEP_ALL), LookAt(Unwrap(frame), drop));
  }

  lemma FilterIsNoMatter(frame: JsonMap, drop: DropFilter)
    ensures SameForTurns(LookAt(frame, KEEP_ALL), LookAt(frame, drop))
  {
    hide IsTurnEnd;
    hide IsProgress;
  }

  lemma {:induction false} PlainFramesFeed(b: Boundary, frames: seq<JsonMap>, drop: DropFilter)
    requires forall i :: 0 <= i < |frames| ==> Plain(frames[i])
    ensures FedFrames(b, frames) == FedAll(b, Looks(frames, drop))
    decreases |frames|
  {
    hide Fed;
    hide FedFrame;
    hide LookAt;
    hide Unwrap;
    hide Plain;
    if frames != [] {
      PlainFrameFeeds(b, frames[0], drop);
      assert Looks(frames, drop)[1..] == Looks(frames[1..], drop);
      PlainFramesFeed(FedFrame(b, frames[0]), frames[1..], drop);
    }
  }

  /** A call and a new boundary start together. */
  lemma StartTogether(loop: string, s: Reader)
    requires s.loopId.Some? ==> s.loopId.value == loop
    ensures Simulates(loop, FloorsOf(s), OpenCall(s), FreshBoundary())
    ensures OpenCall(s).progress == FreshBoundary().gate.sawProgress == false
  {
    GenerationNeedsText(None);
  }

  lemma FairFramesCompare(loop: string, s: Reader, frames: seq<JsonMap>, drop: DropFilter)
    requires forall i :: 0 <= i < |frames| ==> Fair(loop, s, frames[i], drop)
    ensures AllComparable(loop, FloorsOf(s), Looks(frames, drop))
  {
    hide LookAt;
    hide Unwrap;
    hide Plain;
    hide Comparable;
    forall i | 0 <= i < |frames|
      ensures var v := Looks(frames, drop)[i]; v.turnEnd ==> !v.progress
    {
      FramesAreFaithful(Unwrap(frames[i]), drop);
    }
  }

  /** The two turn-end machines on the same raw frames, each unwrapping them its own way: a call of a
      session with any past, and the boundary made for the turn. If no running status is of a
      generation the session has completed, the boundary has ended whenever the reader has accepted a
      terminal; and if no chunk is dropped, the two end together, for the same reason. */
  lemma TurnEndMachinesAgree(loop: string, s: Reader, frames: seq<JsonMap>, drop: DropFilter)
    requires s.phase.Idle? && (s.loopId.Some? ==> s.loopId.value == loop)
    requires forall i :: 0 <= i < |frames| ==> Fair(loop, s, frames[i], drop)
    requires NoneOutdated(FloorsOf(s), Looks(frames, drop))
    ensures var reader, boundary := RunMain(OpenCall(s), Msgs(Looks(frames, drop))), FedFrames(FreshBoundary(), frames);
      && (reader.phase.Draining? ==> boundary.ended)
      && (AllHeard(OpenCall(s), Looks(frames, drop)) ==>
            if boundary.ended then Corresponds(reader, boundary) else reader.phase.Reading?)
  {
    hide LookAt;
    hide Unwrap;
    hide Plain;
    hide RunMain;
    hide AllHeard;
    hide Corresponds;
    hide FedAll;
    hide Simulates;
    var views, b := Looks(frames, drop), FreshBoundary();
    PlainFramesFeed(b, frames, drop);
    FairFramesCompare(loop, s, frames, drop);
    NoneIsBound(FloorsOf(s), OpenCall(s), views);
    StartTogether(loop, s);
    BoundaryEndsNoLater(loop, FloorsOf(s), OpenCall(s), b, views);
    if AllHeard(OpenCall(s), views) {
      SameFrameSameReason(loop, FloorsOf(s), OpenCall(s), b, views);
    }
  }

  /** On raw frames, from a session with any past and a new boundary. When the boundary ends, a reader
      that still reads ends on the same frame if and only if it hears the frame, has heard progress
      that nothing cleared, and is bound to the same turn. Without an outdated running status it still
      reads then and is so bound. */
  lemma MachinesEndTogetherExactlyWhen(loop: string, s: Reader, frames: seq<JsonMap>, last: JsonMap, drop: DropFilter)
    requires s.phase.Idle? && (s.loopId.Some? ==> s.loopId.value == loop)
    requires forall i :: 0 <= i < |frames + [last]| ==> Fair(loop, s, (frames + [last])[i], drop)
    requires !FedFrames(FreshBoundary(), frames).ended && FedFrames(FreshBoundary(), frames + [last]).ended
    ensures var start, views, v := OpenCall(s), Looks(frames, drop), LookAt(Unwrap(last), drop);
      var before, reader := RunMain(start, Msgs(views)), RunMain(start, Msgs(views + [v]));
      var boundary := FedFrames(FreshBoundary(), frames);
      && (before.phase.Reading? ==>
            && (reader.phase.Draining?
                <==> Heard(before, v) && ProgressHeard(start, views) && OneTurn(before, boundary))
            && (reader.phase.Draining? ==> Corresponds(reader, FedFrames(FreshBoundary(), frames + [last]))))
      && (NoneOutdated(FloorsOf(s), views) ==> before.phase.Reading? && OneTurn(before, boundary))
  {
    hide LookAt;
    hide Unwrap;
    hide Plain;
    hide RunMain;
    hide Heard;
    hide ProgressHeard;
    hide Corresponds;
    hide FedAll;
    hide FedFrames;
    hide Comparable;
    hide Simulates;
    hide Amid;
    hide Open;
    var all, floors := frames + [last], FloorsOf(s);
    var views, v, b := Looks(frames, drop), LookAt(Unwrap(last), drop), FreshBoundary();
    assert forall i :: 0 <= i < |frames| ==> frames[i] == all[i];
    PlainFramesFeed(b, frames, drop);
    PlainFramesFeed(b, all, drop);
    assert Looks(all, drop) == views + [v] by {
      assert all[|frames|] == last;
    }
    FairFramesCompare(loop, s, all, drop);
    StartTogether(loop, s);
    Readings(loop, floors, OpenCall(s), b);
    if RunMain(OpenCall(s), Msgs(views)).phase.Reading? {
      EndTogetherExactlyWhen(loop, floors, OpenCall(s), b, views, v);
    }
    if NoneOutdated(floors, views) {
      NoneIsBound(floors, OpenCall(s), views);
      FairFramesCompare(loop, s, frames, drop);
      UnendedSimulates(loop, floors, OpenCall(s), b, views);
      Readings(loop, floors, RunMain(OpenCall(s), Msgs(views)), FedAll(b, views));
    }
  }

  // ---------------------------------------------------------------- runs on which they part

  /** A filter that drops graph updates. */
  const DROP_UPDATES: DropFilter := (namespace, mode, data) => mode == "updates"

  function RunningFrame(turn: string): JsonMap {
    map["type" := Str("status"), "state" := Str("running"), "turn_id" := Str(turn)]
  }

  /** An update; the empty turn id is no turn id. */
  function UpdatesFrame(turn: string): JsonMap {
    map["type" := Str("event"), "mode" := Str("updates"), "turn_id" := Str(turn)]
  }

  function EndFrame(turn: string): JsonMap {
    map["type" := Str("event"), "mode" := Str("custom"), "turn_id" := Str(turn),
        "data" := Obj(map["type" := Str(STREAM_END)])]
  }

  predicate IsTurnName(turn: string) { turn != "" && Strip(turn) == turn }

  lemma PlainWords()
    ensures Strip("running") == Lower("running") == "running" && Strip(STREAM_END) == STREAM_END
    ensures Lower(Strip("turn")) == "turn" && Strip("") == ""
  {
    StripTrims("running");
    StripTrims("turn");
    StripTrims(STREAM_END);
  }

  predicate LooksRunning(v: View, turn: string) {
    Running(v) && v.plainState == "running" && v.turn == Some(turn) && v.loopId.None? && v.seqNo.None? && !v.cancelAck
    && !v.turnEnd
  }

  lemma RunningLooks(turn: string, drop: DropFilter)
    requires IsTurnName(turn)
    ensures LooksRunning(LookAt(RunningFrame(turn), drop), turn)
  {
    PlainWords();
    hide Strip;
    hide Lower;
    hide IsTurnEnd;
    hide IsProgress;
    assert FrameTurnId(RunningFrame(turn)) == Some(turn);
    assert LookAt(RunningFrame(turn), drop).state == "running";
  }

  predicate LooksProgress(v: View, turn: TurnId) {
    && v.kind.Event? && v.progress && v.turn == turn && v.loopId.None? && v.seqNo.None? && !v.cancelAck
    && !v.turnEnd
  }

  lemma UpdatesLooks(turn: string, drop: DropFilter)
    requires turn == "" || IsTurnName(turn)
    ensures var v := LookAt(UpdatesFrame(turn), drop);
      LooksProgress(v, if turn == "" then None else Some(turn)) && v.dropped == drop(Null, "updates", Null)
  {
    PlainWords();
    hide Strip;
    hide IsTurnEnd;
    assert FrameTurnId(UpdatesFrame(turn)) == if turn == "" then None else Some(turn);
    assert "updates"[0] != "custom"[0];
  }

  lemma EndPayload()
    ensures var data: JsonMap := map["type" := Str(STREAM_END)];
      IsTurnEnd(Obj(data)) && !IsProgress("custom", Obj(data)) && FrameTurnId(data) == None
  {
    PlainWords();
    hide Strip;
    hide Lower;
    var data: JsonMap := map["type" := Str(STREAM_END)];
    assert CustomType(data) == STREAM_END && !Truthy(Get(data, "scope"));
    TurnEndIsNoProgress(Obj(data));
  }

  predicate LooksEnd(v: View, turn: string) {
    && v.kind.Event? && v.turnEnd && v.turn == v.endTurn == Some(turn) && v.loopId.None? && v.seqNo.None?
    && !v.cancelAck && !v.progress
  }

  lemma EndLooks(turn: string, drop: DropFilter)
    requires IsTurnName(turn)
    ensures var v := LookAt(EndFrame(turn), drop);
      LooksEnd(v, turn) && v.dropped == drop(Null, "custom", Obj(map["type" := Str(STREAM_END)]))
  {
    EndPayload();
    PlainWords();
    hide Strip;
    hide Lower;
    hide IsTurnEnd;
    hide IsProgress;
    assert FrameTurnId(EndFrame(turn)) == Some(turn);
    hide FrameTurnId;
    hide CustomType;
    hide IsCancelReason;
  }

  lemma BareFrames(turn: string)
    ensures Unwrap(RunningFrame(turn)) == RunningFrame(turn) && Plain(RunningFrame(turn))
    ensures Unwrap(UpdatesFrame(turn)) == UpdatesFrame(turn) && Plain(UpdatesFrame(turn))
    ensures Unwrap(EndFrame(turn)) == EndFrame(turn) && Plain(EndFrame(turn))
  {
  }

  /** What the reader sees of a frame. */
  function Look(frame: JsonMap, drop: DropFilter): View { LookAt(Unwrap(frame), drop) }

  lemma RunningFair(loop: string, s: Reader, turn: string, drop: DropFilter)
    requires IsTurnName(turn)
    ensures Fair(loop, s, RunningFrame(turn), drop) && Plain(RunningFrame(turn))
    ensures LooksRunning(Look(RunningFrame(turn), drop), turn)
  {
    RunningLooks(turn, drop);
    BareFrames(turn);
    hide LookAt;
    hide Unwrap;
    hide RunningFrame;
    hide Plain;
  }

  lemma UpdatesFair(loop: string, s: Reader, turn: string, drop: DropFilter)
    requires turn == "" || IsTurnName(turn)
    ensures Fair(loop, s, UpdatesFrame(turn), drop) && Plain(UpdatesFrame(turn))
    ensures LooksProgress(Look(UpdatesFrame(turn), drop), if turn == "" then None else Some(turn))
    ensures Look(UpdatesFrame(turn), drop).dropped == drop(Null, "updates", Null)
  {
    UpdatesLooks(turn, drop);
    BareFrames(turn);
    hide LookAt;
    hide Unwrap;
    hide UpdatesFrame;
    hide Plain;
  }

  lemma EndFair(loop: string, s: Reader, turn: string, drop: DropFilter)
    requires IsTurnName(turn)
    ensures Fair(loop, s, EndFrame(turn), drop) && Plain(EndFrame(turn))
    ensures LooksEnd(Look(EndFrame(turn), drop), turn)
    ensures Look(EndFrame(turn), drop).dropped == drop(Null, "custom", Obj(map["type" := Str(STREAM_END)]))
  {
    EndLooks(turn, drop);
    BareFrames(turn);
    hide LookAt;
    hide Unwrap;
    hide EndFrame;
    hide Plain;
  }

  lemma ThreeLooks(b: Boundary, x: JsonMap, y: JsonMap, z: JsonMap, drop: DropFilter)
    requires Plain(x) && Plain(y) && Plain(z)
    ensures Looks([x, y, z], drop) == [Look(x, drop), Look(y, drop), Look(z, drop)]
    ensures FedFrames(b, [x, y, z]) == FedAll(b, [Look(x, drop), Look(y, drop), Look(z, drop)])
  {
    hide LookAt;
    hide Unwrap;
    hide Plain;
    hide FedAll;
    hide FedFrames;
    PlainFramesFeed(b, [x, y, z], drop);
  }

  /** Three views that differ at most in their ids. */
  lemma ThreeFrames(s: Reader, b: Boundary, x: View, y: View, z: View)
    requires s.phase.Reading? && Step(s, Msg(x)).phase.Reading? && Step(Step(s, Msg(x)), Msg(y)).phase.Reading?
    ensures RunMain(s, Msgs([x, y])) == Step(Step(s, Msg(x)), Msg(y)) && RunMain(s, Msgs([x])) == Step(s, Msg(x))
    ensures RunMain(s, Msgs([x, y, z])) == Step(Step(Step(s, Msg(x)), Msg(y)), Msg(z))
    ensures FedAll(b, [x, y, z]) == Fed(Fed(Fed(b, x), y), z)
  {
    hide Step;
    hide Fed;
    OneMoreFrame(s, b, [], x);
    OneMoreFrame(s, b, [x], y);
    OneMoreFrame(s, b, [x, y], z);
    assert [] + [x] == [x] && [x] + [y] == [x, y] && [x, y] + [z] == [x, y, z] && Msgs([]) == [];
  }

  /** Lockstep needs the progress heard: on a running status, an update that the filter drops and the
      end of the stream, the boundary ends the turn and the reader goes on reading. */
  lemma DroppedProgressSplitsThem()
    ensures var frames := [RunningFrame("t"), UpdatesFrame("t"), EndFrame("t")];
      && (forall i :: 0 <= i < 3 ==> Fair("loop", Fresh(), frames[i], DROP_UPDATES))
      && NoneOutdated(FloorsOf(Fresh()), Looks(frames, DROP_UPDATES))
      && FedFrames(FreshBoundary(), frames).ended
      && RunMain(OpenCall(Fresh()), Msgs(Looks(frames, DROP_UPDATES))).phase.Reading?
  {
    hide Fair;
    hide Plain;
    hide Look;
    hide RunningFrame;
    hide UpdatesFrame;
    hide EndFrame;
    hide RunMain;
    hide FedFrames;
    hide FedAll;
    hide Fed;
    hide Step;
    hide LooksRunning;
    hide LooksProgress;
    hide LooksEnd;
    hide NoneOutdated;
    hide Fresh;
    hide IsTurnName;
    TIsTurnName();
    RunningFair("loop", Fresh(), "t", DROP_UPDATES);
    UpdatesFair("loop", Fresh(), "t", DROP_UPDATES);
    EndFair("loop", Fresh(), "t", DROP_UPDATES);
    var f, g, h := RunningFrame("t"), UpdatesFrame("t"), EndFrame("t");
    var x, y, z := Look(f, DROP_UPDATES), Look(g, DROP_UPDATES), Look(h, DROP_UPDATES);
    ThreeLooks(FreshBoundary(), f, g, h, DROP_UPDATES);
    DroppedSplits(x, y, z);
    ThreeFrames(OpenCall(Fresh()), FreshBoundary(), x, y, z);
  }

  lemma TIsTurnName()
    ensures IsTurnName("t")
  {
    StripTrims("t");
  }

  lemma DroppedSplits(running: View, dropped: View, end: View)
    requires LooksRunning(running, "t") && LooksProgress(dropped, Some("t")) && dropped.dropped && LooksEnd(end, "t")
    ensures var s := Step(OpenCall(Fresh()), Msg(running));
      s.phase.Reading? && Step(s, Msg(dropped)) == s && Step(s, Msg(end)) == s
    ensures Fed(Fed(Fed(FreshBoundary(), running), dropped), end).ended
    ensures NoneOutdated(FloorsOf(Fresh()), [running, dropped, end])
  {
    StripTrims("t");
    assert ParseTurnGeneration(Some("t")) == None;
    assert TurnText(Some("t")) == "t" && TurnText(None) == "";
    assert ShouldBind(Some("t"), None, 0);
    hide ParseTurnGeneration;
    hide ShouldBind;
    hide TurnText;
  }

  // ---------------------------------------------------------------- outdated running statuses

  /** A turn id as the daemon writes it. */
  lemma TurnIdReads(loopId: string, generation: nat)
    requires Strip(loopId) != "" && generation > 0
    ensures IsTurnName(FormatTurnId(loopId, generation))
    ensures ParseTurnGeneration(Some(FormatTurnId(loopId, generation))) == Some(generation)
  {
    GenerationRoundTrip(loopId, generation);
    StripTrims(loopId);
    ParsePrintInt(generation);
    StripTrims(FormatTurnId(loopId, generation));
  }

  /** Without `NoneOutdated` the boundary may end first. On a running status of a completed generation,
      an update and the end of that turn, the boundary ends and the reader, which never bound the
      turn, reads on; though it heard the progress and the last frame. */
  lemma OutdatedTurnSplitsThem(loop: string, s: Reader, lid: string, generation: nat)
    requires s.phase.Idle? && Strip(lid) != "" && 0 < generation <= s.genFloor
    ensures var id := FormatTurnId(lid, generation);
      var frames := [RunningFrame(id), UpdatesFrame(id), EndFrame(id)];
      var start, views := OpenCall(s), Looks(frames, KEEP_ALL);
      && (forall i :: 0 <= i < 3 ==> Fair(loop, s, frames[i], KEEP_ALL))
      && FedFrames(FreshBoundary(), frames).ended && RunMain(start, Msgs(views)).phase.Reading?
      && Heard(RunMain(start, Msgs(views[..2])), views[2]) && ProgressHeard(start, views[..2])
  {
    hide Fair;
    hide Plain;
    hide Look;
    hide RunningFrame;
    hide UpdatesFrame;
    hide EndFrame;
    hide RunMain;
    hide FedFrames;
    hide FedAll;
    hide Fed;
    hide Step;
    hide LooksRunning;
    hide LooksProgress;
    hide LooksEnd;
    hide Heard;
    hide ProgressHeard;
    hide IsTurnName;
    hide FormatTurnId;
    hide ParseTurnGeneration;
    var id := FormatTurnId(lid, generation);
    TurnIdReads(lid, generation);
    RunningFair(loop, s, id, KEEP_ALL);
    UpdatesFair(loop, s, id, KEEP_ALL);
    EndFair(loop, s, id, KEEP_ALL);
    var f, g, h := RunningFrame(id), UpdatesFrame(id), EndFrame(id);
    var x, y, z := Look(f, KEEP_ALL), Look(g, KEEP_ALL), Look(h, KEEP_ALL);
    ThreeLooks(FreshBoundary(), f, g, h, KEEP_ALL);
    assert [x, y, z][..2] == [x, y];
    UnboundReadsOn(s, id, x, y, z);
    ThreeFrames(OpenCall(s), FreshBoundary(), x, y, z);
    UnboundHears(OpenCall(s), id, x, y);
  }

  lemma UnboundReadsOn(s: Reader, id: string, running: View, update: View, end: View)
    requires IsTurnName(id) && ParseTurnGeneration(Some(id)).Some? && ParseTurnGeneration(Some(id)).value <= s.genFloor
    requires LooksRunning(running, id) && LooksProgress(update, Some(id)) && !update.dropped && LooksEnd(end, id)
    requires !end.dropped
    ensures var s1 := Step(OpenCall(s), Msg(running));
      var s2 := Step(s1, Msg(update));
      && s1.phase.Reading? && s2.phase.Reading? && Step(s2, Msg(end)).phase.Reading?
      && s1.bound == None && s2.bound == None && Heard(s1, update) && Heard(s2, end)
    ensures Fed(Fed(Fed(FreshBoundary(), running), update), end).ended
  {
    assert Strip("") == "";
    assert TurnText(Some(id)) == id && TurnText(None) == "";
    assert ShouldBind(Some(id), None, 0) && !ShouldBind(Some(id), None, s.genFloor);
    hide ParseTurnGeneration;
    hide ShouldBind;
    hide TurnText;
  }

  lemma UnboundHears(s: Reader, id: string, running: View, update: View)
    requires s.phase.Reading? && LooksProgress(update, Some(id))
    requires Heard(Step(s, Msg(running)), update) && RunMain(s, Msgs([running])) == Step(s, Msg(running))
    ensures ProgressHeard(s, [running, update])
  {
    hide Heard;
    hide Step;
    hide RunMain;
    assert [running, update][..1] == [running];
    assert ProgressAt(s, [running, update], 1) && Uncleared(s, [running, update], 1);
  }

  /** Or it may not end at all: on an update without an id, running statuses of a completed generation
      and of a later one, and the end of the later turn, the reader accepts; the boundary lost the
      progress when it bound the second turn after the first. */
  lemma OutdatedTurnKeepsBoundaryOpen(loop: string, s: Reader, lid: string, older: nat, newer: nat)
    requires s.phase.Idle? && Strip(lid) != "" && 0 < older <= s.genFloor < newer
    ensures var a, b := FormatTurnId(lid, older), FormatTurnId(lid, newer);
      var frames := [UpdatesFrame(""), RunningFrame(a), RunningFrame(b), EndFrame(b)];
      && (forall i :: 0 <= i < 4 ==> Fair(loop, s, frames[i], KEEP_ALL))
      && RunMain(OpenCall(s), Msgs(Looks(frames, KEEP_ALL))).phase.Draining?
      && !FedFrames(FreshBoundary(), frames).ended
  {
    hide Fair;
    hide Plain;
    hide Look;
    hide RunningFrame;
    hide UpdatesFrame;
    hide EndFrame;
    hide RunMain;
    hide FedFrames;
    hide FedAll;
    hide Fed;
    hide Step;
    hide LooksRunning;
    hide LooksProgress;
    hide LooksEnd;
    hide IsTurnName;
    hide FormatTurnId;
    hide ParseTurnGeneration;
    var a, b := FormatTurnId(lid, older), FormatTurnId(lid, newer);
    TurnIdReads(lid, older);
    TurnIdReads(lid, newer);
    UpdatesFair(loop, s, "", KEEP_ALL);
    RunningFair(loop, s, a, KEEP_ALL);
    RunningFair(loop, s, b, KEEP_ALL);
    EndFair(loop, s, b, KEEP_ALL);
    var f, g, h, i := UpdatesFrame(""), RunningFrame(a), RunningFrame(b), EndFrame(b);
    var u, x, y, z := Look(f, KEEP_ALL), Look(g, KEEP_ALL), Look(h, KEEP_ALL), Look(i, KEEP_ALL);
    FourLooks(FreshBoundary(), f, g, h, i, KEEP_ALL);
    BoundAfresh(s, a, b, u, x, y, z);
    ThreeFrames(OpenCall(s), FreshBoundary(), u, x, y);
    OneMoreFrame(OpenCall(s), FreshBoundary(), [u, x, y], z);
    assert [u, x, y] + [z] == [u, x, y, z];
  }

  lemma FourLooks(b: Boundary, w: JsonMap, x: JsonMap, y: JsonMap, z: JsonMap, drop: DropFilter)
    requires Plain(w) && Plain(x) && Plain(y) && Plain(z)
    ensures Looks([w, x, y, z], drop) == [Look(w, drop), Look(x, drop), Look(y, drop), Look(z, drop)]
    ensures FedFrames(b, [w, x, y, z]) == FedAll(b, [Look(w, drop), Look(x, drop), Look(y, drop), Look(z, drop)])
  {
    hide LookAt;
    hide Unwrap;
    hide Plain;
    hide FedAll;
    hide FedFrames;
    PlainFramesFeed(b, [w, x, y, z], drop);
  }

  lemma BoundAfresh(s: Reader, a: string, b: string, update: View, older: View, newer: View, end: View)
    requires IsTurnName(a) && ParseTurnGeneration(Some(a)).Some? && ParseTurnGeneration(Some(a)).value <= s.genFloor
    requires IsTurnName(b) && ParseTurnGeneration(Some(b)).Some? && ParseTurnGeneration(Some(b)).value > s.genFloor
    requires LooksProgress(update, None) && !update.dropped && LooksRunning(older, a) && LooksRunning(newer, b)
    requires LooksEnd(end, b) && !end.dropped
    ensures var s1 := Step(OpenCall(s), Msg(update));
      var s2 := Step(s1, Msg(older));
      var s3 := Step(s2, Msg(newer));
      s1.phase.Reading? && s2.phase.Reading? && s3.phase.Reading? && Step(s3, Msg(end)).phase.Draining?
    ensures !Fed(Fed(Fed(Fed(FreshBoundary(), update), older), newer), end).ended
  {
    hide Step;
    hide Fed;
    hide ParseTurnGeneration;
    hide IsTurnName;
    UnboundReads(s, a, update, older);
    BindsAndEnds(Step(Step(OpenCall(s), Msg(update)), Msg(older)), b, newer, end);
    BoundTwice(a, b, update, older, newer, end);
  }

  lemma UnboundReads(s: Reader, a: string, update: View, older: View)
    requires IsTurnName(a) && ParseTurnGeneration(Some(a)).Some? && ParseTurnGeneration(Some(a)).value <= s.genFloor
    requires LooksProgress(update, None) && !update.dropped && LooksRunning(older, a)
    ensures var s1 := Step(OpenCall(s), Msg(update));
      s1.phase.Reading? && Step(s1, Msg(older)) == s1 && s1.bound == None && s1.progress && s1.genFloor == s.genFloor
  {
    assert !ShouldBind(Some(a), None, s.genFloor);
    hide ParseTurnGeneration;
    hide ShouldBind;
  }

  lemma BindsAndEnds(s: Reader, b: string, newer: View, end: View)
    requires IsTurnName(b) && ParseTurnGeneration(Some(b)).Some? && ParseTurnGeneration(Some(b)).value > s.genFloor
    requires s.phase.Reading? && s.bound == None && s.progress
    requires LooksRunning(newer, b) && LooksEnd(end, b) && !end.dropped
    ensures Step(s, Msg(newer)).phase.Reading? && Step(Step(s, Msg(newer)), Msg(end)).phase.Draining?
  {
    assert TurnText(Some(b)) == b && TurnText(None) == "" by { assert Strip("") == ""; }
    assert ShouldBind(Some(b), None, s.genFloor);
    hide ParseTurnGeneration;
    hide ShouldBind;
    hide TurnText;
  }

  /** The boundary binds both turns, and the second binding clears the progress. */
  lemma BoundTwice(a: string, b: string, update: View, older: View, newer: View, end: View)
    requires IsTurnName(a) && IsTurnName(b) && a != b
    requires ParseTurnGeneration(Some(a)).Some? && ParseTurnGeneration(Some(b)).Some?
    requires ParseTurnGeneration(Some(a)).value < ParseTurnGeneration(Some(b)).value
    requires LooksProgress(update, None) && LooksRunning(older, a) && LooksRunning(newer, b) && LooksEnd(end, b)
    ensures !Fed(Fed(Fed(Fed(FreshBoundary(), update), older), newer), end).ended
  {
    assert ShouldBind(Some(a), None, 0) && ShouldBind(Some(b), Some(a), 0);
    hide ParseTurnGeneration;
    hide ShouldBind;
    hide TurnText;
  }
}
