/** Where inbound frames go: the `_pending_events` deque that RPC and handshake waits spill into,
    and the single consumer that reads it (`websocket.py`, `stream_terminal.py`). */
module FrameRouting {
  import opened PythonText
  import opened JsonValues
  import opened TurnGates
  import opened InboundQueues

  // ---------------------------------------------------------------- stale leftovers

  predicate StaleType(t: string) {
    t in ["connection_ack", "soothe.card.replay.begin", "soothe.card.replay.end", "soothe.card.created", "complete"]
  }

  /** `stale_pending_frame_label`. */
  function StaleLabel(event: Json): Option<string>
    requires event.Obj?
    decreases event
  {
    var f := event.fields;
    var t := TextOf(Get(f, "type"));
    if StaleType(t) then Some(t)
    else if t == "status" then StatusLabel(f)
    else if t == "next" then
      if "payload" !in f || !f["payload"].Obj? then None
      else
        var payload := f["payload"].fields;
        var mode := TextOf(Get(payload, "mode"));
        if StaleType(mode) then Some(mode)
        else if "data" in payload && payload["data"].Obj? then StaleLabel(payload["data"])
        else if TextOf(Get(payload, "type")) == "status" then StatusLabel(payload)
        else None
    else if t == "event" && TextOf(Get(f, "mode")) == "custom" && IsTurnEnd(Get(f, "data")) then
      Some(Strip(TextOf(Get(Get(f, "data").fields, "type"))))
    else None
  }

  function StatusLabel(f: JsonMap): Option<string> {
    var state := Lower(Strip(TextOf(Get(f, "state"))));
    if state == "idle" || state == "stopped" then Some("status." + state) else None
  }

  predicate Stale(x: Item) {
    x.frame.Some? && StaleLabel(Obj(x.frame.value)).Some?
  }

  // ---------------------------------------------------------------- what a wait does with a frame

  datatype Op = Free | Requesting(id: string) | Subscribing(id: string) | Greeting

  datatype Fate = Ends | Swallowed | Spilled | SpilledLast | Discarded

  /** `not event`. */
  predicate Falsy(frame: Frame) {
    frame.None? || frame.value == map[]
  }

  predicate HasType(frame: Frame, t: string) {
    frame.Some? && Get(frame.value, "type") == Str(t)
  }

  predicate Transitional(frame: Frame) {
    frame.Some? && Get(frame.value, "result").Obj?
    && Get(Get(frame.value, "result").fields, "readiness_state") in [Str("starting"), Str("warming")]
  }

  function FateOf(op: Op, frame: Frame): Fate
    requires !op.Free?
  {
    if Falsy(frame) then Ends
    else
      match op
      case Requesting(id) =>
        if Get(frame.value, "id") != Str(id) then Spilled
        else if HasType(frame, "error") || HasType(frame, "response") then Ends
        else Swallowed
      case Subscribing(id) =>
        if Get(frame.value, "id") != Str(id) then Spilled
        else if HasType(frame, "error") then Ends
        else if HasType(frame, "next") || HasType(frame, "complete") then SpilledLast
        else Spilled
      case Greeting =>
        if !HasType(frame, "connection_ack") then if HasType(frame, "status") then Discarded else Spilled
        else if Transitional(frame) then Swallowed
        else Ends
  }

  // ---------------------------------------------------------------- the transition system

  datatype Router = Router(
    q: Inbound,
    pending: seq<Item>,
    op: Op,
    handed: seq<Item>,         // returned by read_event or next, less what was pushed back
    consumed: seq<Item>,       // used up by a request, subscription or handshake
    discarded: seq<Item>,      // statuses dropped during the handshake
    peeled: seq<Item>)

  /** `Wait` is one completed await of the operation under way. */
  datatype Move = Socket(step: Step) | Begin(op: Op) | Wait | TimedOut | Read | PushFront | Peel

  function Rest(): Router {
    Router(Start(), [], Free, [], [], [], [])
  }

  function FirstOfType(pending: seq<Item>, t: string): (i: nat)
    ensures i <= |pending|
    ensures i < |pending| ==> HasType(pending[i].frame, t)
    ensures forall j :: 0 <= j < i ==> !HasType(pending[j].frame, t)
  {
    if pending == [] || HasType(pending[0].frame, t) then 0 else 1 + FirstOfType(pending[1..], t)
  }

  function Without(s: seq<Item>, i: nat): seq<Item>
    requires i < |s|
  {
    s[..i] + s[i + 1..]
  }

  function Kept(pending: seq<Item>): seq<Item> {
    if pending == [] then []
    else (if Stale(pending[0]) then [] else [pending[0]]) + Kept(pending[1..])
  }

  function Removed(pending: seq<Item>): seq<Item> {
    if pending == [] then []
    else (if Stale(pending[0]) then [pending[0]] else []) + Removed(pending[1..])
  }

  /** The wait meets frame `x`, already taken from where it was. */
  function Meets(s: Router, x: Item): Router
    requires !s.op.Free?
  {
    match FateOf(s.op, x.frame)
    case Ends => s.(consumed := s.consumed + [x], op := Free)
    case Swallowed => s.(consumed := s.consumed + [x])
    case Spilled => s.(pending := s.pending + [x])
    case SpilledLast => s.(pending := s.pending + [x], op := Free)
    case Discarded => s.(discarded := s.discarded + [x])
  }

  function Waited(s: Router): Router
    requires !s.op.Free?
  {
    var i := if s.op.Greeting? then FirstOfType(s.pending, "connection_ack") else |s.pending|;
    if i < |s.pending| then Meets(s.(pending := Without(s.pending, i)), s.pending[i])
    else if s.q.queue != [] then Meets(s.(q := Next(s.q, Take)), s.q.queue[0])
    else s
  }

  function Go(s: Router, move: Move): Router {
    match move
    case Socket(step) => if step.Take? then s else s.(q := Next(s.q, step))
    case Begin(op) => if s.op.Free? then s.(op := op) else s
    case Wait => if s.op.Free? then s else Waited(s)
    case TimedOut => s.(op := Free)
    case Read =>
      if !s.op.Free? then s
      else if s.pending != [] then s.(handed := s.handed + [s.pending[0]], pending := s.pending[1..])
      else if s.q.queue != [] then s.(handed := s.handed + [s.q.queue[0]], q := Next(s.q, Take))
      else s
    case PushFront =>
      if s.handed == [] then s
      else s.(handed := s.handed[..|s.handed| - 1], pending := [s.handed[|s.handed| - 1]] + s.pending)
    case Peel => if s.op.Free? then s.(peeled := s.peeled + Removed(s.pending), pending := Kept(s.pending)) else s
  }

  function Run(s: Router, moves: seq<Move>): Router
    decreases |moves|
  {
    if moves == [] then s else Run(Go(s, moves[0]), moves[1..])
  }

  /** What has been read and not used up, then what is still to be read, stands in arrival order. */
  ghost predicate InOrder(s: Router) {
    Ordered(s.handed + s.pending, s.q)
  }

  /** Every frame read from the queue is in exactly one bucket. */
  ghost predicate Accounted(s: Router) {
    Bag(s.q.delivered) == Bag(s.handed) + Bag(s.pending) + Bag(s.consumed) + Bag(s.discarded) + Bag(s.peeled)
  }

  // ---------------------------------------------------------------- order

  /** Dropping an earlier frame keeps the order of the others. */
  lemma ThinnerKeepsOrder(a: seq<Item>, x: Item, b: seq<Item>, q: Inbound)
    requires Ordered(a + [x] + b, q)
    ensures Ordered(a + b, q)
  {
    var l, r := a + [x] + b + q.queue + q.waiting, a + b + q.queue + q.waiting;
    forall k | 0 <= k < |r|
      ensures r[k] == l[if k < |a| then k else k + 1]
    {
    }
  }

  lemma {:induction false} KeptKeepsOrder(a: seq<Item>, pending: seq<Item>, q: Inbound)
    requires Ordered(a + pending, q)
    ensures Ordered(a + Kept(pending), q)
    decreases |pending|
  {
    hide Stale;
    hide Ordered;
    if pending != [] {
      var x, rest := pending[0], pending[1..];
      assert a + pending == a + [x] + rest;
      if Stale(x) {
        ThinnerKeepsOrder(a, x, rest, q);
        KeptKeepsOrder(a, rest, q);
        assert [] + Kept(rest) == Kept(rest);
      } else {
        KeptKeepsOrder(a + [x], rest, q);
        assert a + [x] + Kept(rest) == a + ([x] + Kept(rest));
      }
    }
  }

  /** A frame met by a wait joins the pending frames or leaves. */
  lemma MeetKeepsOrder(s: Router, x: Item, q: Inbound)
    requires !s.op.Free? && q == s.q && Ordered(s.handed + s.pending + [x], q)
    ensures InOrder(Meets(s, x))
  {
    hide FateOf;
    hide Ordered;
    assert s.handed + (s.pending + [x]) == s.handed + s.pending + [x];
    assert s.handed + s.pending + [x] + [] == s.handed + s.pending + [x];
    ThinnerKeepsOrder(s.handed + s.pending, x, [], q);
    assert s.handed + s.pending + [] == s.handed + s.pending;
  }

  lemma WaitKeepsOrder(s: Router)
    requires InOrder(s) && !s.op.Free?
    ensures InOrder(Waited(s))
  {
    hide FateOf;
    hide Ordered;
    hide Next;
    var i := if s.op.Greeting? then FirstOfType(s.pending, "connection_ack") else |s.pending|;
    if i < |s.pending| {
      var x := s.pending[i];
      FateOfAck(s.op, x);
      assert s.handed + s.pending == s.handed + s.pending[..i] + [x] + s.pending[i + 1..];
      ThinnerKeepsOrder(s.handed + s.pending[..i], x, s.pending[i + 1..], s.q);
      assert s.handed + Without(s.pending, i) == s.handed + s.pending[..i] + s.pending[i + 1..];
    } else if s.q.queue != [] {
      TakeKeepsOrder(s.handed + s.pending, s.q);
      MeetKeepsOrder(s.(q := Next(s.q, Take)), s.q.queue[0], Next(s.q, Take));
    }
  }

  lemma FateOfAck(op: Op, x: Item)
    requires op.Greeting? && HasType(x.frame, "connection_ack")
    ensures FateOf(op, x.frame).Ends? || FateOf(op, x.frame).Swallowed?
  {
  }

  lemma GoKeepsOrder(s: Router, move: Move)
    requires InOrder(s)
    ensures InOrder(Go(s, move))
  {
    hide Ordered;
    hide Next;
    hide Waited;
    match move {
      case Socket(step) =>
        if !step.Take? {
          SocketKeepsOrder(s.handed + s.pending, s.q, step);
        }
      case Wait =>
        if !s.op.Free? {
          WaitKeepsOrder(s);
        }
      case Read =>
        if s.pending != [] {
          assert s.handed + [s.pending[0]] + s.pending[1..] == s.handed + s.pending;
        } else if s.q.queue != [] {
          TakeKeepsOrder(s.handed + s.pending, s.q);
          assert s.handed + [] == s.handed;
          assert s.handed + [s.q.queue[0]] + [] == s.handed + [s.q.queue[0]];
        }
      case PushFront =>
        if s.handed != [] {
          var n := |s.handed| - 1;
          assert s.handed[..n] + ([s.handed[n]] + s.pending) == s.handed + s.pending;
        }
      case Peel =>
        KeptKeepsOrder(s.handed, s.pending, s.q);
      case _ =>
    }
  }

  // ---------------------------------------------------------------- accounting

  lemma {:induction false} PeelParts(pending: seq<Item>)
    ensures Bag(pending) == Bag(Kept(pending)) + Bag(Removed(pending))
    decreases |pending|
  {
    hide Stale;
    if pending != [] {
      PeelParts(pending[1..]);
      BagHead(pending);
      BagsJoin([pending[0]], Kept(pending[1..]));
      BagsJoin([pending[0]], Removed(pending[1..]));
      BagsJoin([], Kept(pending[1..]));
      BagsJoin([], Removed(pending[1..]));
      Bags([], pending[0]);
      hide Bag;
    }
  }

  lemma MeetAccounts(s: Router, x: Item, all: multiset<Item>)
    requires !s.op.Free?
    requires all == Bag(s.handed) + Bag(s.pending) + Bag(s.consumed) + Bag(s.discarded) + Bag(s.peeled) + multiset{x}
    ensures var s' := Meets(s, x);
      && s'.q == s.q
      && all == Bag(s'.handed) + Bag(s'.pending) + Bag(s'.consumed) + Bag(s'.discarded) + Bag(s'.peeled)
  {
    hide FateOf;
    hide Bag;
    Bags(s.consumed, x);
    Bags(s.pending, x);
    Bags(s.discarded, x);
  }

  lemma TakeDelivers(q: Inbound)
    requires q.queue != []
    ensures Bag(Next(q, Take).delivered) == Bag(q.delivered) + multiset{q.queue[0]}
  {
    Bags(q.delivered, q.queue[0]);
  }

  lemma WaitAccounts(s: Router)
    requires Accounted(s) && !s.op.Free?
    ensures Accounted(Waited(s))
  {
    hide Bag;
    hide Meets;
    hide Next;
    var i := if s.op.Greeting? then FirstOfType(s.pending, "connection_ack") else |s.pending|;
    if i < |s.pending| {
      EvictionParts(s.pending, i);
      MeetAccounts(s.(pending := Without(s.pending, i)), s.pending[i], Bag(s.q.delivered));
    } else if s.q.queue != [] {
      TakeDelivers(s.q);
      MeetAccounts(s.(q := Next(s.q, Take)), s.q.queue[0], Bag(Next(s.q, Take).delivered));
    }
  }

  lemma LastBag(q: seq<Item>)
    requires q != []
    ensures Bag(q) == Bag(q[..|q| - 1]) + multiset{q[|q| - 1]}
  {
    assert q == q[..|q| - 1] + [q[|q| - 1]];
  }

  lemma ReadAccounts(s: Router)
    requires Accounted(s)
    ensures Accounted(Go(s, Read))
  {
    hide Bag;
    hide Next;
    if s.pending != [] {
      BagHead(s.pending);
      Bags(s.handed, s.pending[0]);
    } else if s.q.queue != [] {
      TakeDelivers(s.q);
      Bags(s.handed, s.q.queue[0]);
    }
  }

  lemma PushAccounts(s: Router)
    requires Accounted(s)
    ensures Accounted(Go(s, PushFront))
  {
    hide Bag;
    if s.handed != [] {
      LastBag(s.handed);
      BagsJoin([s.handed[|s.handed| - 1]], s.pending);
      Bags([], s.handed[|s.handed| - 1]);
    }
  }

  lemma PeelAccounts(s: Router)
    requires Accounted(s)
    ensures Accounted(Go(s, Peel))
  {
    hide Bag;
    hide Kept;
    hide Removed;
    PeelParts(s.pending);
    BagsJoin(s.peeled, Removed(s.pending));
  }

  lemma GoAccounts(s: Router, move: Move)
    requires Accounted(s)
    ensures Accounted(Go(s, move))
  {
    match move {
      case Socket(step) =>
        if !step.Take? {
          hide Next;
          SocketDeliversNothing(s.q, step);
        }
      case Wait =>
        if !s.op.Free? {
          hide Waited;
          WaitAccounts(s);
        }
      case Read => hide Go; ReadAccounts(s);
      case PushFront => hide Go; PushAccounts(s);
      case Peel => hide Go; PeelAccounts(s);
      case _ =>
    }
  }

  // ---------------------------------------------------------------- whole runs

  ghost predicate Sound(s: Router) {
    InOrder(s) && Accounted(s) && InboundQueues.Ok(s.q)
  }

  lemma QueueStaysOk(q: Inbound, step: Step)
    requires InboundQueues.Ok(q)
    ensures InboundQueues.Ok(Next(q, step))
  {
    hide Next;
    assert InboundQueues.Run(Next(q, step), []) == Next(q, step);
    assert [step][1..] == [];
    RunIsOk(q, [step]);
  }

  lemma GoKeepsQueue(s: Router, move: Move)
    requires InboundQueues.Ok(s.q)
    ensures InboundQueues.Ok(Go(s, move).q)
  {
    hide InboundQueues.Ok;
    hide FateOf;
    hide Next;
    QueueStaysOk(s.q, Take);
    if move.Socket? {
      QueueStaysOk(s.q, move.step);
    }
  }

  lemma {:induction false} RunIsSound(s: Router, moves: seq<Move>)
    requires Sound(s)
    ensures Sound(Run(s, moves))
    decreases |moves|
  {
    hide Go;
    hide InOrder;
    hide Accounted;
    hide InboundQueues.Ok;
    if moves != [] {
      GoKeepsOrder(s, moves[0]);
      GoAccounts(s, moves[0]);
      GoKeepsQueue(s, moves[0]);
      RunIsSound(Go(s, moves[0]), moves[1..]);
    }
  }

  /** All places a frame can be. */
  ghost function Places(s: Router): multiset<Item> {
    Bag(s.handed) + Bag(s.pending) + Bag(s.consumed) + Bag(s.discarded) + Bag(s.peeled)
    + Bag(s.q.queue) + Bag(s.q.waiting) + Bag(s.q.evicted) + Bag(s.q.lost)
  }

  /** In every run of requests, subscriptions, handshakes, reads, push-backs and peels by one
      consumer, interleaved in any way with arrivals: delivered, pending and inbound frames stand in
      arrival order, and every arrival is in exactly one place. */
  lemma EveryRoutingRun(moves: seq<Move>, k: nat)
    requires k < |Run(Rest(), moves).q.arrived|
    ensures var s := Run(Rest(), moves);
      && Increasing(s.handed + s.pending + s.q.queue + s.q.waiting)
      && Places(s)[Item(k, s.q.arrived[k])] == 1
      && |Places(s)| == |s.q.arrived|
  {
    RestIsSound();
    RunIsSound(Rest(), moves);
    OnePlaceEach(Run(Rest(), moves), k);
  }

  lemma RestIsSound()
    ensures Sound(Rest())
  {
    assert Items([]) == [];
  }

  lemma OnePlaceEach(s: Router, k: nat)
    requires Sound(s) && k < |s.q.arrived|
    ensures Increasing(s.handed + s.pending + s.q.queue + s.q.waiting)
    ensures Places(s)[Item(k, s.q.arrived[k])] == 1 && |Places(s)| == |s.q.arrived|
  {
    hide Increasing;
    hide Before;
    hide Harmless;
    assert Places(s) == Everything(s.q) by {
      hide Bag;
    }
    var items := Items(s.q.arrived);
    ItemOnce(items, k);
    assert items[k] == Item(k, s.q.arrived[k]);
  }

  lemma {:induction false} ItemOnce(items: seq<Item>, k: nat)
    requires k < |items| && forall i :: 0 <= i < |items| ==> items[i].at == i
    ensures Bag(items)[items[k]] == 1 && |Bag(items)| == |items|
    decreases |items|
  {
    var n := |items| - 1;
    assert items == items[..n] + [items[n]];
    if k < n {
      ItemOnce(items[..n], k);
    }
  }

  // ---------------------------------------------------------------- what a wait may touch

  /** Frames a wait uses up: an end of stream, a frame with its own id, a rejection of its
      subscription, an acknowledgement of the connection. */
  predicate Own(op: Op, frame: Frame) {
    Falsy(frame)
    || match op
       case Free => false
       case Requesting(id) => Get(frame.value, "id") == Str(id)
       case Subscribing(id) => Get(frame.value, "id") == Str(id) && HasType(frame, "error")
       case Greeting => HasType(frame, "connection_ack")
  }

  /** `n` completed awaits of the operation under way. */
  function Waits(s: Router, n: nat): Router {
    if n == 0 then s else Go(Waits(s, n - 1), Wait)
  }

  datatype Sort = Used | LeftPending | Dropped

  /** Which frames a wait uses, leaves pending, or discards. */
  predicate Sorts(op: Op, sort: Sort, frame: Frame) {
    match sort
    case Used => Own(op, frame)
    case LeftPending => !Own(op, frame)
    case Dropped => op.Greeting? && HasType(frame, "status")
  }

  /** `b` is `a` and then only frames of the given sort. */
  ghost predicate Extends(a: seq<Item>, b: seq<Item>, op: Op, sort: Sort) {
    a <= b && forall i :: |a| <= i < |b| ==> Sorts(op, sort, b[i].frame)
  }

  lemma ExtendsTwice(a: seq<Item>, b: seq<Item>, c: seq<Item>, op: Op, sort: Sort)
    requires Extends(a, b, op, sort) && Extends(b, c, op, sort)
    ensures Extends(a, c, op, sort)
  {
  }

  /** However long it waits, an RPC uses up only its own frames and leaves every other frame it read
      pending, behind those that were; the handshake discards statuses and nothing else. */
  ghost predicate TouchesOnlyItsOwn(s: Router, t: Router, op: Op) {
    && t.handed == s.handed && t.peeled == s.peeled && (t.op == op || t.op.Free?)
    && Extends(s.consumed, t.consumed, op, Used)
    && Extends(s.discarded, t.discarded, op, Dropped)
    && (!op.Greeting? ==> Extends(s.pending, t.pending, op, LeftPending))
  }

  lemma {:induction false} WaitsTouchOnlyTheirOwn(s: Router, op: Op, n: nat)
    requires s.op == op && !op.Free?
    ensures TouchesOnlyItsOwn(s, Waits(s, n), op)
  {
    hide Extends;
    if n == 0 {
      Unextended(s, op);
    } else {
      hide Waited;
      WaitsTouchOnlyTheirOwn(s, op, n - 1);
      var t := Waits(s, n - 1);
      if !t.op.Free? {
        WaitTouches(t);
        var u := Waited(t);
        ExtendsTwice(s.consumed, t.consumed, u.consumed, op, Used);
        ExtendsTwice(s.discarded, t.discarded, u.discarded, op, Dropped);
        if !op.Greeting? {
          ExtendsTwice(s.pending, t.pending, u.pending, op, LeftPending);
        }
      }
    }
  }

  lemma Unextended(s: Router, op: Op)
    ensures Extends(s.consumed, s.consumed, op, Used) && Extends(s.discarded, s.discarded, op, Dropped)
    ensures Extends(s.pending, s.pending, op, LeftPending)
  {
  }

  /** One await. */
  lemma WaitTouches(t: Router)
    requires !t.op.Free?
    ensures TouchesOnlyItsOwn(t, Waited(t), t.op)
  {
    hide Next;
    hide Falsy;
    hide FirstOfType;
  }

  // ---------------------------------------------------------------- peeling

  /** A peel leaves no stale frame behind. */
  lemma {:induction false} PeelLeavesNoStale(pending: seq<Item>)
    ensures forall i :: 0 <= i < |Kept(pending)| ==> !Stale(Kept(pending)[i])
    ensures forall i :: 0 <= i < |Removed(pending)| ==> Stale(Removed(pending)[i])
    decreases |pending|
  {
    hide Stale;
    if pending != [] {
      PeelLeavesNoStale(pending[1..]);
    }
  }

  /** A leftover status is peeled exactly when it is terminal; a running one stays. */
  lemma LeftoverTerminalsArePeeled(event: JsonMap)
    requires Get(event, "type") == Str("status") && Get(event, "state").Str?
    ensures Stale(Item(0, Some(event))) <==> Lower(Strip(Get(event, "state").s)) in ["idle", "stopped"]
  {
  }

  /** Exactly the bare leftovers that are peeled. */
  lemma BareStaleExactlyWhen(event: JsonMap)
    requires Get(event, "type").Str? && Get(event, "type") != Str("next")
    ensures var t := Get(event, "type").s;
      Stale(Item(0, Some(event)))
      <==> || t in {"connection_ack", "soothe.card.replay.begin", "soothe.card.replay.end", "soothe.card.created",
                    "complete"}
           || (t == "status" && StatusLabel(event).Some?)
           || (t == "event" && TextOf(Get(event, "mode")) == "custom" && IsTurnEnd(Get(event, "data")))
  {
    hide StatusLabel;
    hide IsTurnEnd;
    hide Strip;
  }

  /** An envelope is peeled for the mode of its payload, for the frame inside, or for a status that the
      payload is. */
  lemma WrappedStaleExactlyWhen(event: JsonMap)
    requires Get(event, "type") == Str("next") && Get(event, "payload").Obj?
    ensures var payload := Get(event, "payload").fields;
      Stale(Item(0, Some(event)))
      <==> || StaleType(TextOf(Get(payload, "mode")))
           || (if Get(payload, "data").Obj? then Stale(Item(0, Some(Get(payload, "data").fields)))
               else Get(payload, "type") == Str("status") && StatusLabel(payload).Some?)
  {
    hide StatusLabel;
    hide IsTurnEnd;
    hide Strip;
    NoOtherStatus(Get(Get(event, "payload").fields, "type"));
  }

  lemma NoOtherStatus(t: Json)
    ensures TextOf(t) == "status" <==> t == Str("status")
  {
    NumbersNameNothing(t);
  }

  lemma NumbersNameNothing(t: Json)
    ensures t.Num? ==> PyStr(t) != "status"
  {
    if t.Num? {
      ParsePrintInt(t.n);
      assert ParseInt("status") == None;
    }
  }
}
