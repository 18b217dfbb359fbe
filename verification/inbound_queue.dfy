/** The bounded inbound queue of the WebSocket client and its priority-aware overflow policy
    (`websocket.py`). Every await of the reader task is a step boundary. */
module InboundQueues {
  import opened PythonText
  import opened JsonValues
  import opened TurnGates

  const CRITICAL := 0
  const HIGH := 1
  const NORMAL := 2
  const INBOUND_MAXSIZE: nat := 20000

  type Frame = Option<JsonMap>     // None is the end-of-stream sentinel

  // ---------------------------------------------------------------- drop priority

  /** The first message of an event payload ends an assistant stream. */
  predicate MessageTerminal(data: Json) {
    match data
    case Obj(body) => Get(body, "stream_terminal") == Bool(true)
    case Arr(items) => items != [] && items[0].Obj? && Get(items[0].fields, "stream_terminal") == Bool(true)
    case _ => false
  }

  predicate FirstIsGoalCompletion(data: Json) {
    data.Arr? && data.items != [] && data.items[0].Obj? && Get(data.items[0].fields, "phase") == Str("goal_completion")
  }

  predicate TurnEndType(t: string) {
    t == STREAM_END || t == STRANGE_LOOP_COMPLETED
  }

  /** Rank of a custom payload's type, if the type decides it; `None` when the type is not a string,
      which raises. */
  function CustomRank(data: JsonMap): (r: Option<Option<int>>)
    ensures r.Some? && r.value.Some? ==> r.value.value < NORMAL
  {
    match if "type" in data then data["type"] else Str("")
    case Str(t) =>
      if TurnEndType(t) then Some(Some(CRITICAL))
      else if StartsWith(t, "soothe.cognition.") then Some(Some(HIGH))
      else if StartsWith(t, "soothe.error.") || t == "stream_degraded" then Some(Some(CRITICAL))
      else if t == "soothe.ux.stream_tool_wire.tool_call_updates_batch" then Some(Some(HIGH))
      else Some(None)
    case _ => None
  }

  /** The unwrapped part: `kind` is the frame's own type, or the payload's for a `next` envelope. */
  function RankAs(event: JsonMap, kind: Json): Option<int> {
    var data := Get(event, "data");
    if kind == Str("complete") then Some(CRITICAL)
    else if kind == Str("status")
            && Get(event, "state") in [Str("idle"), Str("running"), Str("stopped"), Str("detached")]
    then Some(CRITICAL)
    else if kind == Str("error") || kind == Str("connection_ack") then Some(CRITICAL)
    else if kind != Str("event") && Get(event, "type") != Str("event") then Some(NORMAL)
    else if Get(event, "mode") == Str("custom") && data.Obj? then
      match CustomRank(data.fields)
      case None => None
      case Some(Some(rank)) => Some(rank)
      case Some(None) => Some(NORMAL)
    else if Get(event, "mode") == Str("messages") && (MessageTerminal(data) || FirstIsGoalCompletion(data)) then
      Some(CRITICAL)
    else Some(NORMAL)
  }

  /** `_inbound_frame_drop_priority`; `None` when it raises. */
  function Rank(frame: Frame): (rank: Option<int>)
    ensures rank.Some? ==> CRITICAL <= rank.value <= NORMAL
  {
    if frame.None? then Some(CRITICAL)
    else
      var event := frame.value;
      var kind := Get(event, "type");
      if kind == Str("event_batch") || kind == Str("tool_call_updates_batch") then Some(HIGH)
      else if kind == Str("next") && Get(event, "payload").Obj? then
        var payload := Get(event, "payload").fields;
        var data := Get(payload, "data");
        if Get(payload, "mode") == Str("messages") && data.Arr?
           && (MessageTerminal(data) || FirstIsGoalCompletion(data))
        then Some(CRITICAL)
        else RankAs(event, if "type" in payload then payload["type"] else Str(""))
      else RankAs(event, kind)
  }

  // ---------------------------------------------------------------- making room

  /** A frame and the number of frames that arrived before it. */
  datatype Item = Item(at: nat, frame: Frame)

  predicate Droppable(x: Item) {
    Rank(x.frame) == Some(NORMAL)
  }

  /** The first droppable entry, or the length. */
  function OldestNormal(q: seq<Item>): (i: nat)
    ensures i <= |q|
    ensures i < |q| ==> Droppable(q[i])
    ensures forall j :: 0 <= j < i ==> !Droppable(q[j])
  {
    if q == [] || Droppable(q[0]) then 0 else 1 + OldestNormal(q[1..])
  }

  datatype Room = Fits(queue: seq<Item>, evicted: seq<Item>) | Blocked | Raises

  function RoomFor(q: seq<Item>, rank: int): Room {
    if |q| < INBOUND_MAXSIZE then Fits(q, [])
    else
      var i := OldestNormal(q);
      if i < |q| then Fits(q[..i] + q[i + 1..], [q[i]])
      else if rank == NORMAL then Blocked
      else Raises
  }

  /** The queue object: entries and the drop counter. */
  class InboundQueue {
    var queue: seq<Item>
    var dropped: nat

    constructor ()
      ensures queue == [] && dropped == 0
    {
      queue, dropped := [], 0;
    }

    /** `put_nowait`; false is `QueueFull`. */
    method PutNowait(x: Item) returns (ok: bool)
      modifies this`queue
      ensures ok == (|old(queue)| < INBOUND_MAXSIZE)
      ensures queue == old(queue) + if ok then [x] else []
    {
      ok := |queue| < INBOUND_MAXSIZE;
      queue := if ok then queue + [x] else queue;
    }

    /** The synchronous part of `_put_inbound_queue`: drain, look for the entry to drop, refill. */
    method MakeRoom(rank: int) returns (raised: bool)
      requires |queue| <= INBOUND_MAXSIZE && CRITICAL <= rank <= NORMAL
      requires forall i :: 0 <= i < |queue| ==> Rank(queue[i].frame).Some?
      modifies this
      ensures match RoomFor(old(queue), rank)
        case Fits(q, evicted) => !raised && queue == q && dropped == old(dropped) + |evicted|
        case Blocked => !raised && queue == old(queue) && dropped == old(dropped)
        case Raises => raised && queue == old(queue) && dropped == old(dropped) + 1
    {
      hide Rank;
      hide OldestNormal;
      raised := false;
      if |queue| < INBOUND_MAXSIZE {
        return;
      }
      var temp := Drain();
      var dropAt, dropRank := DropCandidate(temp);
      Refill(temp, if dropRank >= NORMAL then dropAt else |temp|);
      if dropRank >= NORMAL {
        dropped := dropped + 1;
      } else {
        assert temp[..|temp|] == temp;
        if rank < NORMAL {
          dropped := dropped + 1;
          var ok := PutBack(temp[1..]);
          raised := !ok;
        }
      }
    }

    method Drain() returns (temp: seq<Item>)
      modifies this`queue
      ensures temp == old(queue) && queue == []
    {
      temp := [];
      while queue != []
        invariant temp + queue == old(queue)
        decreases |queue|
      {
        temp, queue := temp + [queue[0]], queue[1..];
      }
    }

    /** Everything but the entry at `skip` goes back, in order. */
    method Refill(temp: seq<Item>, skip: nat)
      requires queue == [] && |temp| <= INBOUND_MAXSIZE && skip <= |temp|
      modifies this`queue
      ensures queue == temp[..skip] + if skip < |temp| then temp[skip + 1..] else []
    {
      var i := 0;
      while i < |temp|
        invariant i <= |temp|
        invariant queue == if skip < i then temp[..skip] + temp[skip + 1..i] else temp[..i]
      {
        if i != skip {
          var ok := PutNowait(temp[i]);
        }
        i := i + 1;
      }
    }

    /** The forced drop puts entries back onto the queue it has already refilled. */
    method PutBack(items: seq<Item>) returns (ok: bool)
      requires |queue| == INBOUND_MAXSIZE
      modifies this`queue
      ensures queue == old(queue) && ok == (items == [])
    {
      ok := true;
      var j := 0;
      while j < |items| && ok
        invariant j <= |items| && queue == old(queue) && ok == (j == 0)
      {
        ok := PutNowait(items[j]);
        j := j + 1;
      }
    }

    /** The first entry of the largest rank. */
    method DropCandidate(temp: seq<Item>) returns (at: nat, rank: int)
      requires forall i :: 0 <= i < |temp| ==> Rank(temp[i].frame).Some?
      ensures rank <= NORMAL
      ensures rank >= NORMAL <==> OldestNormal(temp) < |temp|
      ensures rank >= NORMAL ==> at == OldestNormal(temp)
    {
      hide Rank;
      at, rank := 0, -1;
      var i := 0;
      while i < |temp|
        invariant i <= |temp| && rank <= NORMAL
        invariant forall j :: 0 <= j < i ==> Rank(temp[j].frame).value <= rank
        invariant rank >= 0 ==> at < i && Rank(temp[at].frame) == Some(rank)
        invariant rank >= 0 ==> forall j :: 0 <= j < at ==> Rank(temp[j].frame).value < rank
      {
        var p := Rank(temp[i].frame).value;
        if p > rank {
          at, rank := i, p;
        }
        i := i + 1;
      }
      if rank >= NORMAL {
        FirstNormal(temp, at);
      }
    }
  }

  lemma {:induction false} FirstNormal(q: seq<Item>, at: nat)
    requires at < |q| && Droppable(q[at]) && forall j :: 0 <= j < at ==> !Droppable(q[j])
    ensures OldestNormal(q) == at
  {
  }

  // ---------------------------------------------------------------- what the ranks protect

  /** Sent bare, a terminal status or a turn-end payload is never a drop candidate. */
  lemma BareTerminalsAreCritical(event: JsonMap)
    requires || (Get(event, "type") == Str("status") && Get(event, "state") in [Str("idle"), Str("stopped")])
             || (Get(event, "type") == Str("event") && Get(event, "mode") == Str("custom")
                 && Get(event, "data").Obj? && Get(Get(event, "data").fields, "type").Str?
                 && TurnEndType(Get(Get(event, "data").fields, "type").s))
    ensures Rank(Some(event)) == Some(CRITICAL)
  {
  }

  /** Which bare custom events may be dropped. */
  lemma DroppableCustomEvents(event: JsonMap, t: string)
    requires Get(event, "type") == Str("event") && Get(event, "mode") == Str("custom")
    requires Get(event, "data").Obj? && Get(Get(event, "data").fields, "type") == Str(t)
    ensures Droppable(Item(0, Some(event)))
       <==> !TurnEndType(t) && !StartsWith(t, "soothe.cognition.") && !StartsWith(t, "soothe.error.")
            && t != "stream_degraded" && t != "soothe.ux.stream_tool_wire.tool_call_updates_batch"
  {
  }

  /** A messages payload ends a stream when it, or the first of its messages, says so, and completes a goal
      when the first of its messages is of that phase. */
  lemma MessagesAreKeptExactlyWhen(data: Json)
    ensures MessageTerminal(data)
       <==> || (data.Obj? && "stream_terminal" in data.fields && data.fields["stream_terminal"] == Bool(true))
            || (data.Arr? && |data.items| > 0 && data.items[0].Obj? && "stream_terminal" in data.items[0].fields
                && data.items[0].fields["stream_terminal"] == Bool(true))
    ensures FirstIsGoalCompletion(data)
       <==> data.Arr? && |data.items| > 0 && data.items[0].Obj? && "phase" in data.items[0].fields
            && data.items[0].fields["phase"] == Str("goal_completion")
  {
  }

  /** Exactly which bare frames may be dropped. A custom event whose type is no string cannot be ranked. */
  lemma DroppableBareFrames(event: JsonMap)
    requires Get(event, "type") != Str("next")
    ensures var t, data := Get(event, "type"), Get(event, "data");
      Droppable(Item(0, Some(event)))
      <==> (&& t !in {Str("event_batch"), Str("tool_call_updates_batch"), Str("complete"), Str("error"),
                      Str("connection_ack")}
            && (t == Str("status") ==>
                  Get(event, "state") !in {Str("idle"), Str("running"), Str("stopped"), Str("detached")})
            && (t == Str("event") && Get(event, "mode") == Str("custom") && data.Obj? ==>
                  CustomRank(data.fields) == Some(None))
            && (t == Str("event") && Get(event, "mode") == Str("messages") ==>
                  !MessageTerminal(data) && !FirstIsGoalCompletion(data)))
  {
    hide CustomRank;
    hide MessageTerminal;
    hide FirstIsGoalCompletion;
  }

  /** A messages payload that ends a stream or completes a goal. */
  predicate KeptMessages(payload: JsonMap) {
    Get(payload, "mode") == Str("messages") && Get(payload, "data").Arr?
    && (MessageTerminal(Get(payload, "data")) || FirstIsGoalCompletion(Get(payload, "data")))
  }

  function PayloadType(payload: JsonMap): Json {
    if "type" in payload then payload["type"] else Str("")
  }

  /** A payload type that keeps the envelope, whatever is inside. */
  predicate KeptType(t: Json) {
    t == Str("complete") || t == Str("error") || t == Str("connection_ack")
  }

  /** For the payload types `status` and `event` the rank reads the outer frame's own keys. */
  predicate KeptOutside(event: JsonMap, t: Json) {
    || (t == Str("status") && Get(event, "state") in [Str("idle"), Str("running"), Str("stopped"), Str("detached")])
    || (t == Str("event") && Get(event, "mode") == Str("custom") && Get(event, "data").Obj?
        && CustomRank(Get(event, "data").fields) != Some(None))
    || (t == Str("event") && Get(event, "mode") == Str("messages")
        && (MessageTerminal(Get(event, "data")) || FirstIsGoalCompletion(Get(event, "data"))))
  }

  /** Exactly which subscription envelopes may be dropped: the rank looks at the payload's own type
      and mode and at the outer frame, and never at the frame inside. */
  lemma DroppableEnvelopes(event: JsonMap)
    requires Get(event, "type") == Str("next")
    ensures Droppable(Item(0, Some(event)))
       <==> !Get(event, "payload").Obj?
            || (var payload := Get(event, "payload").fields;
                !KeptMessages(payload) && !KeptType(PayloadType(payload)) && !KeptOutside(event, PayloadType(payload)))
  {
    hide MessageTerminal;
    hide FirstIsGoalCompletion;
    hide CustomRank;
  }

  // ---------------------------------------------------------------- whole runs

  /** The queue, the frame whose put is waiting, and what became of every other frame. */
  datatype Inbound = Inbound(
    queue: seq<Item>,
    waiting: seq<Item>,        // at most one
    ended: bool,               // the reader task is over
    dropped: nat,              // inbound_dropped
    raised: nat,               // forced drops that raised QueueFull
    arrived: seq<Frame>,
    delivered: seq<Item>,
    evicted: seq<Item>,
    lost: seq<Item>)           // not admitted: unreadable, or the queue raised

  datatype Step = Arrive(frame: Frame) | Admit | Take

  function Start(): Inbound {
    Inbound([], [], false, 0, 0, [], [], [], [])
  }

  /** The frame is stored, waits, or is lost and takes the reader down. */
  function PutFrame(s: Inbound, frame: Frame): Inbound {
    var x := Item(|s.arrived|, frame);
    var s' := s.(arrived := s.arrived + [frame]);
    match Rank(frame)
    case None => s'.(lost := s.lost + [x], ended := true)
    case Some(rank) =>
      match RoomFor(s.queue, rank)
      case Fits(q, evicted) =>
        s'.(queue := q + [x], evicted := s.evicted + evicted, dropped := s.dropped + |evicted|, ended := frame.None?)
      case Blocked => s'.(waiting := [x])
      case Raises => s'.(lost := s.lost + [x], dropped := s.dropped + 1, raised := s.raised + 1, ended := true)
  }

  /** A reader that fails tries once to leave the end-of-stream sentinel behind. */
  function Arrived(s: Inbound, frame: Frame): Inbound {
    var s' := PutFrame(s, frame);
    if |s'.lost| > |s.lost| then PutFrame(s', None).(ended := true) else s'
  }

  function Next(s: Inbound, step: Step): Inbound {
    match step
    case Arrive(frame) => if s.ended || s.waiting != [] then s else Arrived(s, frame)
    case Admit =>
      if s.waiting != [] && |s.queue| < INBOUND_MAXSIZE then s.(queue := s.queue + s.waiting, waiting := []) else s
    case Take =>
      if s.queue == [] then s else s.(queue := s.queue[1..], delivered := s.delivered + [s.queue[0]])
  }

  function Run(s: Inbound, steps: seq<Step>): Inbound
    decreases |steps|
  {
    if steps == [] then s else Run(Next(s, steps[0]), steps[1..])
  }

  ghost predicate Increasing(s: seq<Item>) {
    forall i, j :: 0 <= i < j < |s| ==> s[i].at < s[j].at
  }

  ghost predicate Before(s: seq<Item>, n: nat) {
    forall i :: 0 <= i < |s| ==> s[i].at < n
  }

  function Items(arrived: seq<Frame>): (items: seq<Item>)
    ensures |items| == |arrived|
    ensures forall i :: 0 <= i < |items| ==> items[i] == Item(i, arrived[i])
  {
    seq(|arrived|, i requires 0 <= i < |arrived| => Item(i, arrived[i]))
  }

  ghost function Bag(s: seq<Item>): multiset<Item> { multiset(s) }

  lemma Bags(a: seq<Item>, x: Item)
    ensures Bag([]) == multiset{} && Bag([x]) == multiset{x} && Bag(a + [x]) == Bag(a) + multiset{x}
  {
  }

  ghost function Everything(s: Inbound): multiset<Item> {
    Bag(s.delivered) + Bag(s.queue) + Bag(s.waiting) + Bag(s.evicted) + Bag(s.lost)
  }

  /** Earlier frames, then the queue and the waiting frame: in arrival order, within capacity. */
  ghost predicate Ordered(earlier: seq<Item>, s: Inbound) {
    && Increasing(earlier + s.queue + s.waiting) && Before(earlier + s.queue + s.waiting, |s.arrived|)
    && |s.queue| <= INBOUND_MAXSIZE && |s.waiting| <= 1
  }

  /** Arrival order, capacity, nothing created or destroyed, and only droppable entries evicted. */
  ghost predicate Ok(s: Inbound) {
    && Ordered(s.delivered, s)
    && Everything(s) == Bag(Items(s.arrived))
    && Harmless(s)
  }

  ghost predicate Harmless(s: Inbound) {
    && |s.waiting| <= 1 && (s.waiting != [] ==> Droppable(s.waiting[0]) && !s.ended)
    && (forall i :: 0 <= i < |s.evicted| ==> Droppable(s.evicted[i]))
    && s.dropped == |s.evicted| + s.raised && s.raised <= |s.lost| && (s.lost != [] ==> s.ended)
  }

  lemma OneMore(s: Inbound, frame: Frame)
    ensures Items(s.arrived + [frame]) == Items(s.arrived) + [Item(|s.arrived|, frame)]
  {
  }

  lemma EvictionOrder(d: seq<Item>, q: seq<Item>, i: nat, x: Item)
    requires i < |q| && Increasing(d + q) && Before(d + q, x.at)
    ensures Increasing(d + (q[..i] + q[i + 1..] + [x])) && Before(d + (q[..i] + q[i + 1..] + [x]), x.at + 1)
  {
    var a, b := d + q, d + (q[..i] + q[i + 1..] + [x]);
    forall k | 0 <= k < |b| - 1
      ensures b[k] == a[if k < |d| + i then k else k + 1]
    {
    }
  }

  lemma AppendOrder(a: seq<Item>, x: Item)
    requires Increasing(a) && Before(a, x.at)
    ensures Increasing(a + [x]) && Before(a + [x], x.at + 1)
  {
  }

  lemma EvictionParts(q: seq<Item>, i: nat)
    requires i < |q|
    ensures Bag(q) == Bag(q[..i] + q[i + 1..]) + multiset{q[i]}
  {
    assert q == q[..i] + [q[i]] + q[i + 1..];
  }

  lemma PutKeepsOrder(earlier: seq<Item>, s: Inbound, frame: Frame)
    requires s.waiting == [] && Ordered(earlier, s)
    ensures Ordered(earlier, PutFrame(s, frame))
  {
    hide Rank;
    hide Increasing;
    hide Before;
    var x := Item(|s.arrived|, frame);
    assert earlier + s.queue + [] == earlier + s.queue;
    Loosen(earlier + s.queue, |s.arrived|);
    AppendOrder(earlier + s.queue, x);
    if Rank(frame).Some? {
      match RoomFor(s.queue, Rank(frame).value) {
        case Fits(q, evicted) =>
          if evicted != [] {
            EvictionOrder(earlier, s.queue, OldestNormal(s.queue), x);
          }
          assert earlier + (s.queue + [x]) == earlier + s.queue + [x];
          assert earlier + (q + [x]) + [] == earlier + (q + [x]);
        case _ =>
      }
    }
  }

  lemma Loosen(a: seq<Item>, n: nat)
    requires Before(a, n)
    ensures Before(a, n + 1)
  {
  }

  lemma PutKeepsEverything(s: Inbound, frame: Frame)
    requires s.waiting == [] && Everything(s) == Bag(Items(s.arrived))
    ensures Everything(PutFrame(s, frame)) == Bag(Items(PutFrame(s, frame).arrived))
  {
    hide Rank;
    hide Items;
    hide Bag;
    hide OldestNormal;
    hide RoomFor;
    var x := Item(|s.arrived|, frame);
    OneMore(s, frame);
    Bags(Items(s.arrived), x);
    Bags(s.lost, x);
    if Rank(frame).Some? && RoomFor(s.queue, Rank(frame).value).Fits? {
      var room := RoomFor(s.queue, Rank(frame).value);
      RoomBags(s.queue, Rank(frame).value);
      Bags(room.queue, x);
      BagsJoin(s.evicted, room.evicted);
    }
  }

  lemma RoomShape(q: seq<Item>, rank: int)
    requires RoomFor(q, rank).Fits?
    ensures var i := OldestNormal(q);
      || RoomFor(q, rank) == Fits(q, [])
      || (i < |q| && RoomFor(q, rank) == Fits(q[..i] + q[i + 1..], [q[i]]))
  {
    hide OldestNormal;
  }

  lemma RoomBags(q: seq<Item>, rank: int)
    requires RoomFor(q, rank).Fits?
    ensures Bag(RoomFor(q, rank).queue) + Bag(RoomFor(q, rank).evicted) == Bag(q)
  {
    hide Bag;
    hide RoomFor;
    hide OldestNormal;
    RoomShape(q, rank);
    var i := OldestNormal(q);
    if i < |q| {
      EvictionParts(q, i);
      Bags([], q[i]);
    }
    NothingInEmpty();
  }

  lemma NothingInEmpty()
    ensures Bag([]) == multiset{}
  {
  }

  lemma BagsJoin(a: seq<Item>, b: seq<Item>)
    ensures Bag(a + b) == Bag(a) + Bag(b)
  {
  }

  lemma PutIsHarmless(s: Inbound, frame: Frame)
    requires Harmless(s) && s.waiting == [] && (s.ended ==> frame.None?)
    ensures Harmless(PutFrame(s, frame))
  {
  }

  /** The sentinel never waits, nor does a frame that is lost. */
  lemma SomeNeverWait(s: Inbound, frame: Frame)
    requires s.waiting == []
    ensures PutFrame(s, None).waiting == [] && PutFrame(s, None).ended
    ensures |PutFrame(s, frame).lost| > |s.lost| ==> PutFrame(s, frame).waiting == [] && PutFrame(s, frame).ended
  {
  }

  /** Whatever the socket side does, order and capacity are kept with respect to earlier frames. */
  lemma SocketKeepsOrder(earlier: seq<Item>, s: Inbound, step: Step)
    requires Ordered(earlier, s) && !step.Take?
    ensures Ordered(earlier, Next(s, step))
  {
    hide PutFrame;
    hide Increasing;
    hide Before;
    if step.Arrive? && !s.ended && s.waiting == [] {
      PutKeepsOrder(earlier, s, step.frame);
      SomeNeverWait(s, step.frame);
      var s' := PutFrame(s, step.frame);
      if |s'.lost| > |s.lost| {
        PutKeepsOrder(earlier, s', None);
        SomeNeverWait(s', None);
      }
    } else if s.waiting != [] {
      assert earlier + (s.queue + s.waiting) + [] == earlier + s.queue + s.waiting;
    }
  }

  /** The frame taken becomes the last of the earlier ones. */
  lemma TakeKeepsOrder(earlier: seq<Item>, s: Inbound)
    requires Ordered(earlier, s) && s.queue != []
    ensures Ordered(earlier + [s.queue[0]], Next(s, Take))
  {
    hide Increasing;
    hide Before;
    HeadMoves(earlier, s.queue, s.waiting);
  }

  lemma HeadMoves(d: seq<Item>, q: seq<Item>, w: seq<Item>)
    requires q != []
    ensures d + [q[0]] + q[1..] + w == d + q + w
  {
    assert q == [q[0]] + q[1..];
  }

  lemma BagHead(q: seq<Item>)
    requires q != []
    ensures Bag(q) == multiset{q[0]} + Bag(q[1..])
  {
    assert q == [q[0]] + q[1..];
  }

  /** Every arrival is in exactly one place. */
  lemma StepKeepsEverything(s: Inbound, step: Step)
    requires Everything(s) == Bag(Items(s.arrived))
    ensures Everything(Next(s, step)) == Bag(Items(Next(s, step).arrived))
  {
    hide PutFrame;
    hide Items;
    hide Bag;
    match step {
      case Arrive(frame) =>
        if !s.ended && s.waiting == [] {
          PutKeepsEverything(s, frame);
          SomeNeverWait(s, frame);
          if |PutFrame(s, frame).lost| > |s.lost| {
            PutKeepsEverything(PutFrame(s, frame), None);
          }
        }
      case Admit =>
        BagsJoin(s.queue, s.waiting);
        Bags(s.queue, Item(0, None));
      case Take =>
        if s.queue != [] {
          BagHead(s.queue);
          Bags(s.delivered, s.queue[0]);
        }
    }
  }

  lemma StepIsHarmless(s: Inbound, step: Step)
    requires Harmless(s)
    ensures Harmless(Next(s, step))
  {
    hide PutFrame;
    hide Droppable;
    if step.Arrive? && !s.ended && s.waiting == [] {
      PutIsHarmless(s, step.frame);
      SomeNeverWait(s, step.frame);
      if |PutFrame(s, step.frame).lost| > |s.lost| {
        PutIsHarmless(PutFrame(s, step.frame), None);
        SomeNeverWait(PutFrame(s, step.frame), None);
      }
    }
  }

  lemma {:induction false} RunIsOk(s: Inbound, steps: seq<Step>)
    requires Ok(s)
    ensures Ok(Run(s, steps))
    decreases |steps|
  {
    hide Ordered;
    hide Everything;
    hide Harmless;
    hide Items;
    hide PutFrame;
    if steps != [] {
      var step := steps[0];
      if step.Take? {
        if s.queue != [] {
          TakeKeepsOrder(s.delivered, s);
        }
      } else {
        SocketKeepsOrder(s.delivered, s, step);
        SocketDeliversNothing(s, step);
      }
      StepKeepsEverything(s, step);
      StepIsHarmless(s, step);
      RunIsOk(Next(s, step), steps[1..]);
    }
  }

  lemma SocketDeliversNothing(s: Inbound, step: Step)
    requires !step.Take?
    ensures Next(s, step).delivered == s.delivered
  {
  }

  /** Every run: frames come out in arrival order, the queue stays within its capacity, every
      arrival is in exactly one place, and only droppable frames are ever evicted. The run loses no
      frame exactly when every arrival can be ranked and no CRITICAL or HIGH one meets a full queue
      without a NORMAL frame; arrivals are then delivered, queued, waiting or counted as dropped, and
      every CRITICAL or HIGH frame is delivered or queued. */
  lemma EveryInboundRun(steps: seq<Step>)
    ensures var s := Run(Start(), steps);
      && Ok(s)
      && (Roomy(Start(), steps) <==> s.lost == [])
      && (Roomy(Start(), steps) ==>
            && |s.arrived| == |s.delivered| + |s.queue| + |s.waiting| + s.dropped
            && forall k :: 0 <= k < |s.arrived| && !Droppable(Item(k, s.arrived[k])) ==>
                 InSeq(Item(k, s.arrived[k]), s.delivered) || InSeq(Item(k, s.arrived[k]), s.queue))
  {
    assert Ok(Start()) by {
      assert Items([]) == [];
    }
    RunIsOk(Start(), steps);
    NothingLostExactlyWhen(Start(), steps);
    hide Roomy;
    hide Run;
    var s := Run(Start(), steps);
    if s.lost == [] {
      Settled(s);
    }
  }

  ghost predicate InSeq(x: Item, s: seq<Item>) {
    exists i :: 0 <= i < |s| && s[i] == x
  }

  lemma Settled(s: Inbound)
    requires Ok(s) && s.lost == []
    ensures |s.arrived| == |s.delivered| + |s.queue| + |s.waiting| + s.dropped
    ensures forall k :: 0 <= k < |s.arrived| && !Droppable(Item(k, s.arrived[k])) ==>
      InSeq(Item(k, s.arrived[k]), s.delivered) || InSeq(Item(k, s.arrived[k]), s.queue)
  {
    hide Droppable;
    hide Increasing;
    hide Before;
    assert |Everything(s)| == |Bag(Items(s.arrived))|;
    forall k | 0 <= k < |s.arrived| && !Droppable(Item(k, s.arrived[k]))
      ensures InSeq(Item(k, s.arrived[k]), s.delivered) || InSeq(Item(k, s.arrived[k]), s.queue)
    {
      var x := Item(k, s.arrived[k]);
      assert x == Items(s.arrived)[k] && x in Bag(Items(s.arrived));
      assert x in Everything(s);
      assert x !in s.evicted && x !in s.waiting;
      assert x in s.delivered || x in s.queue;
    }
  }

  /** Every arriving frame can be ranked, and whenever the queue is full it, or the frame that arrives,
      is droppable. */
  ghost predicate Roomy(s: Inbound, steps: seq<Step>)
    decreases |steps|
  {
    steps != [] ==>
      && (steps[0].Arrive? && !s.ended && s.waiting == [] ==> !Loses(s, steps[0].frame))
      && Roomy(Next(s, steps[0]), steps[1..])
  }

  /** What costs the reader a frame. */
  ghost predicate Loses(s: Inbound, frame: Frame) {
    || Rank(frame).None?
    || (|s.queue| >= INBOUND_MAXSIZE && !Droppable(Item(0, frame))
        && forall i :: 0 <= i < |s.queue| ==> !Droppable(s.queue[i]))
  }

  /** A run loses a frame exactly when some arrival is one that costs it. */
  lemma {:induction false} NothingLostExactlyWhen(s: Inbound, steps: seq<Step>)
    requires |s.queue| <= INBOUND_MAXSIZE && |s.waiting| <= 1 && s.lost == []
    ensures Run(s, steps).lost == [] <==> Roomy(s, steps)
    decreases |steps|
  {
    hide Loses;
    hide PutFrame;
    if steps != [] {
      var s' := Next(s, steps[0]);
      StepLoses(s, steps[0]);
      if s'.lost == [] {
        NothingLostExactlyWhen(s', steps[1..]);
      } else {
        LostStaysLost(s', steps[1..]);
      }
    }
  }

  lemma StepLoses(s: Inbound, step: Step)
    requires |s.queue| <= INBOUND_MAXSIZE && |s.waiting| <= 1 && s.lost == []
    ensures Next(s, step).lost != [] <==> step.Arrive? && !s.ended && s.waiting == [] && Loses(s, step.frame)
    ensures Next(s, step).lost == [] ==> |Next(s, step).queue| <= INBOUND_MAXSIZE && |Next(s, step).waiting| <= 1
  {
    if step.Arrive? && !s.ended && s.waiting == [] {
      LostExactlyWhen(s, step.frame);
      PutStaysWithin(s, step.frame);
      LostOnlyGrows(PutFrame(s, step.frame), None);
      hide PutFrame;
    }
  }

  lemma PutStaysWithin(s: Inbound, frame: Frame)
    requires |s.queue| <= INBOUND_MAXSIZE && |s.waiting| <= 1
    ensures |PutFrame(s, frame).queue| <= INBOUND_MAXSIZE && |PutFrame(s, frame).waiting| <= 1
  {
    hide Rank;
  }

  lemma LostOnlyGrows(s: Inbound, frame: Frame)
    ensures |PutFrame(s, frame).lost| >= |s.lost|
  {
    hide Rank;
  }

  lemma {:induction false} LostStaysLost(s: Inbound, steps: seq<Step>)
    requires s.lost != []
    ensures Run(s, steps).lost != []
    decreases |steps|
  {
    hide PutFrame;
    if steps != [] {
      if steps[0].Arrive? {
        LostOnlyGrows(s, steps[0].frame);
        LostOnlyGrows(PutFrame(s, steps[0].frame), None);
      }
      LostStaysLost(Next(s, steps[0]), steps[1..]);
    }
  }

  /** One overflow removes exactly the oldest droppable entry and keeps the others in order; a
      droppable arrival waits when there is none. */
  lemma OverflowEvictsOldestNormal(s: Inbound, frame: Frame, i: nat)
    requires |s.queue| == INBOUND_MAXSIZE && i < |s.queue| && Droppable(s.queue[i])
    requires forall j :: 0 <= j < i ==> !Droppable(s.queue[j])
    requires Rank(frame).Some?
    ensures var s' := PutFrame(s, frame);
      && s'.queue == s.queue[..i] + s.queue[i + 1..] + [Item(|s.arrived|, frame)]
      && s'.evicted == s.evicted + [s.queue[i]] && s'.dropped == s.dropped + 1
  {
    hide Rank;
    FirstNormal(s.queue, i);
  }

  /** A frame is lost exactly when it cannot be ranked, or when it is CRITICAL or HIGH and finds the
      queue full with nothing droppable in it. */
  lemma LostExactlyWhen(s: Inbound, frame: Frame)
    requires |s.queue| <= INBOUND_MAXSIZE
    ensures |PutFrame(s, frame).lost| > |s.lost|
       <==> Rank(frame).None?
            || (|s.queue| == INBOUND_MAXSIZE && !Droppable(Item(0, frame))
                && forall i :: 0 <= i < |s.queue| ==> !Droppable(s.queue[i]))
  {
  }

  /** The forced drop forces nothing: the queue is unchanged, the important frame and the
      end-of-stream sentinel after it are both lost, two drops are counted, and the reader is over. */
  lemma ForcedDropLosesFrameAndSentinel(s: Inbound, frame: Frame)
    requires |s.queue| == INBOUND_MAXSIZE && s.waiting == [] && !s.ended
    requires Rank(frame).Some? && Rank(frame).value < NORMAL
    requires forall i :: 0 <= i < |s.queue| ==> !Droppable(s.queue[i])
    ensures var s' := Next(s, Arrive(frame));
      && s'.queue == s.queue && s'.ended && s'.dropped == s.dropped + 2 && s'.evicted == s.evicted
      && s'.lost == s.lost + [Item(|s.arrived|, frame), Item(|s.arrived| + 1, None)]
  {
  }
}
