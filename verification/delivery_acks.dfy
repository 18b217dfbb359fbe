/** Delivery acknowledgements: one counter of received terminal frames and one of acknowledged
    ones per loop, with the acks sent by scheduled tasks (`websocket.py`). */
module DeliveryAcks {
  import opened PythonText
  import opened JsonValues
  import opened TurnGates
  import opened InboundQueues

  // ---------------------------------------------------------------- which frames count

  /** A list payload whose first message ends a stream. */
  predicate ListTerminal(data: Json) {
    data.Arr? && MessageTerminal(data)
  }

  predicate CustomTurnEnd(data: Json) {
    data.Obj? && Get(data.fields, "type").Str? && TurnEndType(Get(data.fields, "type").s)
  }

  predicate EventNeedsAck(mode: Json, data: Json) {
    (mode == Str("messages") && ListTerminal(data)) || (mode == Str("custom") && CustomTurnEnd(data))
  }

  /** `_inbound_needs_delivery_ack`. */
  predicate NeedsAck(event: JsonMap) {
    var t := Get(event, "type");
    if t == Str("complete") then true
    else if t == Str("next") then
      Get(event, "payload").Obj?
      && var payload := Get(event, "payload").fields;
         Get(payload, "data").Obj? && Get(payload, "mode") == Str("event")
         && EventNeedsAck(Get(Get(payload, "data").fields, "mode"), Get(Get(payload, "data").fields, "data"))
    else t == Str("event") && EventNeedsAck(Get(event, "mode"), Get(event, "data"))
  }

  /** `_extract_loop_id_from_inbound`. */
  function LoopOf(event: JsonMap): Option<string> {
    var own := NonBlank(Get(event, "loop_id"));
    if own.Some? then own
    else if Get(event, "type") == Str("next") && Get(event, "payload").Obj?
            && Get(Get(event, "payload").fields, "data").Obj?
    then NonBlank(Get(Get(Get(event, "payload").fields, "data").fields, "loop_id"))
    else None
  }

  /** The loops an admitted frame counts for, a nested batch once per part. */
  function LoopsOf(event: Json): seq<string>
    decreases event, 1
  {
    if !event.Obj? then []
    else
      var f := event.fields;
      if Get(f, "type") == Str("event_batch") then
        if "events" in f && f["events"].Arr? then LoopsOfAll(f["events"].items) else []
      else if NeedsAck(f) && LoopOf(f).Some? then [LoopOf(f).value]
      else []
  }

  function LoopsOfAll(events: seq<Json>): seq<string>
    decreases events, 0
  {
    if events == [] then [] else LoopsOf(events[0]) + LoopsOfAll(events[1..])
  }

  /** The first message of a list ends a stream. */
  predicate EndsAStream(data: Json) {
    data.Arr? && |data.items| > 0 && data.items[0].Obj? && "stream_terminal" in data.items[0].fields
    && data.items[0].fields["stream_terminal"] == Bool(true)
  }

  predicate EndsATurn(data: Json) {
    data.Obj? && "type" in data.fields
    && data.fields["type"] in {Str("soothe.stream.end"), Str("soothe.cognition.strange_loop.completed")}
  }

  predicate TerminalEvent(mode: Json, data: Json) {
    (mode == Str("messages") && EndsAStream(data)) || (mode == Str("custom") && EndsATurn(data))
  }

  /** Exactly the frames that need an ack: a completion, bare or not, and an event that ends a stream or a
      turn, sent bare or inside an event envelope. */
  lemma NeedsAckExactlyWhen(event: JsonMap)
    ensures NeedsAck(event)
       <==> || Get(event, "type") == Str("complete")
            || (Get(event, "type") == Str("event") && TerminalEvent(Get(event, "mode"), Get(event, "data")))
            || (Get(event, "type") == Str("next") && Get(event, "payload").Obj?
                && var payload := Get(event, "payload").fields;
                   && Get(payload, "mode") == Str("event") && Get(payload, "data").Obj?
                   && TerminalEvent(Get(Get(payload, "data").fields, "mode"), Get(Get(payload, "data").fields, "data")))
  {
    EndingsAgree(Get(event, "data"));
    if Get(event, "payload").Obj? && Get(Get(event, "payload").fields, "data").Obj? {
      EndingsAgree(Get(Get(Get(event, "payload").fields, "data").fields, "data"));
    }
    hide EndsAStream;
    hide EndsATurn;
    hide ListTerminal;
    hide CustomTurnEnd;
  }

  lemma EndingsAgree(data: Json)
    ensures ListTerminal(data) <==> EndsAStream(data)
    ensures CustomTurnEnd(data) <==> EndsATurn(data)
  {
  }

  /** A frame counts for the loop it names itself, trimmed, and an envelope that names none for the loop of
      the frame inside; a batch counts for the loops of its parts, in order. */
  lemma CountsForItsLoop(event: JsonMap)
    requires Get(event, "type") != Str("event_batch") && NeedsAck(event)
    ensures var own := NonBlank(Get(event, "loop_id"));
      LoopsOf(Obj(event)) ==
        if own.Some? then [own.value]
        else if Get(event, "type") == Str("next") && Get(event, "payload").Obj?
                && Get(Get(event, "payload").fields, "data").Obj?
                && NonBlank(Get(Get(Get(event, "payload").fields, "data").fields, "loop_id")).Some?
        then [NonBlank(Get(Get(Get(event, "payload").fields, "data").fields, "loop_id")).value]
        else []
  {
    hide NeedsAck;
    hide NonBlank;
  }

  /** A bare frame that needs an ack is never evicted from the inbound queue. */
  lemma BareAckedFramesAreKept(event: JsonMap)
    requires NeedsAck(event) && Get(event, "type") != Str("next")
    ensures Rank(Some(event)) == Some(CRITICAL)
  {
  }

  /** A wrapped one can be, unless the payload's type or the outer frame happens to keep it: it is
      acknowledged when it is queued, and may be evicted before the consumer reads it. */
  lemma WrappedAckedFramesAreDroppable(event: JsonMap)
    requires NeedsAck(event) && Get(event, "type") == Str("next")
    ensures var t := PayloadType(Get(event, "payload").fields);
      Droppable(Item(0, Some(event))) <==> !KeptType(t) && !KeptOutside(event, t)
  {
    assert Get(Get(event, "payload").fields, "mode") == Str("event");
    DroppableEnvelopes(event);
    hide Droppable;
  }

  // ---------------------------------------------------------------- the protocol

  datatype Ack = Ack(loop: string, seqNo: nat)

  datatype Acks = Acks(
    received: map<string, nat>,
    acked: map<string, nat>,
    tasks: multiset<string>,      // scheduled and not yet run
    sent: seq<Ack>,
    counted: seq<string>)         // the loop of every counted frame, in order

  /** A task runs up to its only await, the send; `up` is the state of the connection. */
  datatype Step = Admit(event: JsonMap) | RunTask(loop: string, up: bool)

  function At(m: map<string, nat>, loop: string): nat {
    if loop in m then m[loop] else 0
  }

  function Counted(s: Acks, loop: string): Acks {
    s.(received := s.received[loop := At(s.received, loop) + 1],
       tasks := s.tasks + multiset{loop}, counted := s.counted + [loop])
  }

  function CountedAll(s: Acks, loops: seq<string>): Acks
    decreases |loops|
  {
    if loops == [] then s else CountedAll(Counted(s, loops[0]), loops[1..])
  }

  function TaskRun(s: Acks, loop: string, up: bool): Acks {
    var n := At(s.received, loop);
    var rest := s.(tasks := s.tasks - multiset{loop});
    if n <= At(s.acked, loop) then rest
    else rest.(acked := s.acked[loop := n], sent := s.sent + if up then [Ack(loop, n)] else [])
  }

  function Next(s: Acks, step: Step): Acks {
    match step
    case Admit(event) => CountedAll(s, LoopsOf(Obj(event)))
    case RunTask(loop, up) => if loop in s.tasks then TaskRun(s, loop, up) else s
  }

  function Run(s: Acks, steps: seq<Step>): Acks
    decreases |steps|
  {
    if steps == [] then s else Run(Next(s, steps[0]), steps[1..])
  }

  class AckCounters {
    var received: map<string, nat>
    var acked: map<string, nat>
    ghost var tasks: multiset<string>
    ghost var sent: seq<Ack>
    ghost var counted: seq<string>

    ghost function Value(): Acks
      reads this
    {
      Acks(received, acked, tasks, sent, counted)
    }

    constructor ()
      ensures Value() == Nothing()
    {
      received, acked, tasks, sent, counted := map[], map[], multiset{}, [], [];
    }

    /** `_track_inbound_delivery_ack`. */
    method Track(event: Json)
      modifies this
      ensures Value() == CountedAll(old(Value()), LoopsOf(event))
      decreases event, 1
    {
      if !event.Obj? {
        return;
      }
      var f := event.fields;
      if Get(f, "type") == Str("event_batch") {
        if "events" in f && f["events"].Arr? {
          TrackAll(f["events"].items);
        }
        return;
      }
      if !NeedsAck(f) {
        return;
      }
      var loop := LoopOf(f);
      if loop.None? {
        return;
      }
      received := received[loop.value := At(received, loop.value) + 1];
      tasks, counted := tasks + multiset{loop.value}, counted + [loop.value];
      assert [loop.value][1..] == [];
    }

    method TrackAll(events: seq<Json>)
      modifies this
      ensures Value() == CountedAll(old(Value()), LoopsOfAll(events))
      decreases events, 0
    {
      var i := 0;
      while i < |events|
        invariant i <= |events|
        invariant CountedAll(Value(), LoopsOfAll(events[i..])) == CountedAll(old(Value()), LoopsOfAll(events))
      {
        CountedInTurn(Value(), LoopsOf(events[i]), LoopsOfAll(events[i + 1..]));
        assert events[i..][1..] == events[i + 1..];
        Track(events[i]);
        i := i + 1;
      }
    }

    /** `_send_delivery_ack`, up to the send. */
    method SendDeliveryAck(loop: string, up: bool) returns (ack: Option<Ack>)
      requires loop in tasks
      modifies this
      ensures Value() == TaskRun(old(Value()), loop, up)
      ensures sent == old(sent) + if ack.Some? then [ack.value] else []
    {
      tasks := tasks - multiset{loop};
      var seqNo := At(received, loop);
      if seqNo <= At(acked, loop) {
        return None;
      }
      acked := acked[loop := seqNo];
      if !up {
        return None;
      }
      sent := sent + [Ack(loop, seqNo)];
      return Some(Ack(loop, seqNo));
    }
  }

  lemma {:induction false} CountedInTurn(s: Acks, a: seq<string>, b: seq<string>)
    ensures CountedAll(s, a + b) == CountedAll(CountedAll(s, a), b)
    decreases |a|
  {
    hide Counted;
    if a == [] {
      assert a + b == b;
    } else {
      assert (a + b)[1..] == a[1..] + b;
      CountedInTurn(Counted(s, a[0]), a[1..], b);
    }
  }

  // ---------------------------------------------------------------- every interleaving

  /** Frames counted for a loop. */
  function Count(counted: seq<string>, loop: string): nat {
    if counted == [] then 0
    else Count(counted[..|counted| - 1], loop) + if counted[|counted| - 1] == loop then 1 else 0
  }

  ghost predicate LoopOk(s: Acks, loop: string) {
    && At(s.received, loop) == Count(s.counted, loop)
    && At(s.acked, loop) <= At(s.received, loop)
    && (At(s.acked, loop) < At(s.received, loop) ==> loop in s.tasks)
  }

  ghost predicate SentOk(s: Acks) {
    && (forall i :: 0 <= i < |s.sent| ==> s.sent[i].seqNo <= At(s.acked, s.sent[i].loop))
    && (forall i, j :: 0 <= i < j < |s.sent| && s.sent[i].loop == s.sent[j].loop ==>
          s.sent[i].seqNo < s.sent[j].seqNo)
  }

  ghost predicate Ok(s: Acks) {
    SentOk(s) && forall loop :: LoopOk(s, loop)
  }

  lemma CountedIsOk(s: Acks, loop: string)
    requires Ok(s)
    ensures Ok(Counted(s, loop))
  {
    var s' := Counted(s, loop);
    forall l
      ensures LoopOk(s', l)
    {
      assert LoopOk(s, l);
      assert s'.counted[..|s.counted|] == s.counted;
    }
  }

  lemma {:induction false} CountedAllIsOk(s: Acks, loops: seq<string>)
    requires Ok(s)
    ensures Ok(CountedAll(s, loops))
    decreases |loops|
  {
    hide Ok;
    hide Counted;
    if loops != [] {
      CountedIsOk(s, loops[0]);
      CountedAllIsOk(Counted(s, loops[0]), loops[1..]);
    }
  }

  lemma TaskIsOk(s: Acks, loop: string, up: bool)
    requires Ok(s)
    ensures Ok(TaskRun(s, loop, up))
  {
    hide Count;
    var s' := TaskRun(s, loop, up);
    forall l
      ensures LoopOk(s', l)
    {
      assert LoopOk(s, l);
    }
  }

  function Nothing(): Acks {
    Acks(map[], map[], multiset{}, [], [])
  }

  lemma {:induction false} RunIsOk(s: Acks, steps: seq<Step>)
    requires Ok(s)
    ensures Ok(Run(s, steps))
    decreases |steps|
  {
    hide Ok;
    hide CountedAll;
    hide TaskRun;
    if steps != [] {
      match steps[0] {
        case Admit(event) => CountedAllIsOk(s, LoopsOf(Obj(event)));
        case RunTask(loop, up) => TaskIsOk(s, loop, up);
      }
      RunIsOk(Next(s, steps[0]), steps[1..]);
    }
  }

  /** The loops of every admitted frame that needs an ack, in order of admission. */
  function NeededIn(steps: seq<Step>): seq<string> {
    if steps == [] then []
    else NeededBy(steps[0]) + NeededIn(steps[1..])
  }

  function NeededBy(step: Step): seq<string> {
    match step
    case Admit(event) => LoopsOf(Obj(event))
    case RunTask(_, _) => []
  }

  lemma {:induction false} CountedAllLogs(s: Acks, loops: seq<string>)
    ensures CountedAll(s, loops).counted == s.counted + loops
    decreases |loops|
  {
    if loops != [] {
      CountedAllLogs(Counted(s, loops[0]), loops[1..]);
    }
  }

  /** The log of a run is what its arrivals need. */
  lemma {:induction false} RunCounts(s: Acks, steps: seq<Step>)
    ensures Run(s, steps).counted == s.counted + NeededIn(steps)
    decreases |steps|
  {
    hide NeededBy;
    hide Next;
    if steps != [] {
      NextCounts(s, steps[0]);
      RunCounts(Next(s, steps[0]), steps[1..]);
      Joined(s.counted, NeededBy(steps[0]), NeededIn(steps[1..]));
    }
  }

  lemma NextCounts(s: Acks, step: Step)
    ensures Next(s, step).counted == s.counted + NeededBy(step)
  {
    hide LoopsOf;
    hide CountedAll;
    match step {
      case Admit(event) => CountedAllLogs(s, LoopsOf(Obj(event)));
      case RunTask(loop, up) => assert s.counted + [] == s.counted;
    }
  }

  lemma Joined(a: seq<string>, b: seq<string>, c: seq<string>)
    ensures a + b + c == a + (b + c)
  {
  }

  /** Under every interleaving of arrivals and ack tasks, up or down: a loop has received exactly its
      admitted frames that need an ack and never acknowledges more, its acks carry strictly increasing
      numbers, a loop behind has a task still to run, and once none is left all of them are
      acknowledged. */
  lemma EveryAckRun(steps: seq<Step>, loop: string)
    ensures var s := Run(Nothing(), steps);
      && SentOk(s)
      && At(s.acked, loop) <= At(s.received, loop) == Count(NeededIn(steps), loop)
      && (At(s.acked, loop) < At(s.received, loop) ==> loop in s.tasks)
      && (s.tasks == multiset{} ==> At(s.acked, loop) == Count(NeededIn(steps), loop))
  {
    assert Ok(Nothing());
    RunIsOk(Nothing(), steps);
    RunCounts(Nothing(), steps);
    assert Nothing().counted + NeededIn(steps) == NeededIn(steps);
    hide SentOk;
    hide Count;
    assert LoopOk(Run(Nothing(), steps), loop);
  }

  // ---------------------------------------------------------------- acks that go out

  /** The number of the last ack sent for a loop. */
  function LastSent(sent: seq<Ack>, loop: string): nat {
    if sent == [] then 0
    else if sent[|sent| - 1].loop == loop then sent[|sent| - 1].seqNo
    else LastSent(sent[..|sent| - 1], loop)
  }

  lemma SendsWhatItNotes(s: Acks, task: string, loop: string)
    requires LastSent(s.sent, loop) == At(s.acked, loop)
    ensures LastSent(TaskRun(s, task, true).sent, loop) == At(TaskRun(s, task, true).acked, loop)
  {
    var n := At(s.received, task);
    var more := s.sent + [Ack(task, n)];
    assert more[..|more| - 1] == s.sent && s.sent + [] == s.sent;
  }

  lemma {:induction false} CountingSendsNothing(s: Acks, loops: seq<string>)
    ensures CountedAll(s, loops).sent == s.sent && CountedAll(s, loops).acked == s.acked
    decreases |loops|
  {
    if loops != [] {
      CountingSendsNothing(Counted(s, loops[0]), loops[1..]);
    }
  }

  lemma {:induction false} RunSends(s: Acks, steps: seq<Step>, loop: string)
    requires LastSent(s.sent, loop) == At(s.acked, loop)
    requires forall i :: 0 <= i < |steps| && steps[i].RunTask? ==> steps[i].up
    ensures LastSent(Run(s, steps).sent, loop) == At(Run(s, steps).acked, loop)
    decreases |steps|
  {
    hide LoopsOf;
    hide CountedAll;
    hide TaskRun;
    hide LastSent;
    if steps != [] {
      match steps[0] {
        case Admit(event) => CountingSendsNothing(s, LoopsOf(Obj(event)));
        case RunTask(task, up) => SendsWhatItNotes(s, task, loop);
      }
      assert forall i :: 0 <= i < |steps[1..]| ==> steps[1..][i] == steps[i + 1];
      RunSends(Next(s, steps[0]), steps[1..], loop);
    }
  }

  /** While the connection is up, every ack that is noted goes out: once no task is left, the last ack sent
      for a loop carries the number of its frames that need one. */
  lemma EveryAckGoesOut(steps: seq<Step>, loop: string)
    requires forall i :: 0 <= i < |steps| && steps[i].RunTask? ==> steps[i].up
    ensures var s := Run(Nothing(), steps);
      && LastSent(s.sent, loop) == At(s.acked, loop)
      && (s.tasks == multiset{} ==> LastSent(s.sent, loop) == Count(NeededIn(steps), loop))
  {
    RunSends(Nothing(), steps, loop);
    EveryAckRun(steps, loop);
    hide Run;
    hide Count;
    hide LastSent;
  }
}
