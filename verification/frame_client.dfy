/** The reading side of the WebSocket client as an object: its deque of pending frames, the frames
    waiting in the inbound queue, and the loops over both (`websocket.py`). Each loop runs the
    transition system of `FrameRouting`. */
module FrameClients {
  import opened JsonValues
  import opened InboundQueues
  import opened FrameRouting

  datatype Reply = Reply(x: Item) | NoReply     // nothing more arrives before the timeout

  // ---------------------------------------------------------------- what a caller can rely on

  /** The first entry that meets the condition, or the length. */
  function FirstWhere(s: seq<Item>, p: Item -> bool): (k: nat)
    ensures k <= |s| && (k < |s| ==> p(s[k])) && forall j :: 0 <= j < k ==> !p(s[j])
  {
    if s == [] || p(s[0]) then 0 else 1 + FirstWhere(s[1..], p)
  }

  /** The entries that meet the condition, in order. */
  function Where(s: seq<Item>, p: Item -> bool): seq<Item> {
    if s == [] then [] else Where(s[..|s| - 1], p) + if p(s[|s| - 1]) then [s[|s| - 1]] else []
  }

  /** What stands behind the k-th entry. */
  function Behind(s: seq<Item>, k: nat): seq<Item> {
    if k < |s| then s[k + 1..] else []
  }

  /** The reply to a request: the error or the response with its id, or the end of the stream. */
  predicate Answers(id: string, frame: Frame) {
    frame.None? || frame.value == map[]
    || ("id" in frame.value && frame.value["id"] == Str(id) && "type" in frame.value
        && (frame.value["type"] == Str("error") || frame.value["type"] == Str("response")))
  }

  /** A frame with another id, or none. */
  predicate Foreign(id: string, frame: Frame) {
    frame.Some? && frame.value != map[] && !("id" in frame.value && frame.value["id"] == Str(id))
  }

  /** The rejection of a subscription, or the end of the stream. */
  predicate Rejects(id: string, frame: Frame) {
    frame.None? || frame.value == map[]
    || ("id" in frame.value && frame.value["id"] == Str(id) && "type" in frame.value
        && frame.value["type"] == Str("error"))
  }

  /** That, or the first frame of the stream subscribed to. */
  predicate Settles(id: string, frame: Frame) {
    Rejects(id, frame)
    || ("id" in frame.value && frame.value["id"] == Str(id) && "type" in frame.value
        && (frame.value["type"] == Str("next") || frame.value["type"] == Str("complete")))
  }

  function AnswersTo(id: string): Item -> bool { (x: Item) => Answers(id, x.frame) }

  function Strangers(id: string): Item -> bool { (x: Item) => Foreign(id, x.frame) }

  function SettlesFor(id: string): Item -> bool { (x: Item) => Settles(id, x.frame) }

  /** A request takes the first reply in the queue and nothing else; frames before it with another id
      go behind the pending ones, in order, those with its own id are dropped. Without a reply it reads
      all there is. */
  ghost predicate Requested(id: string, was: seq<Item>, base: seq<Item>, reply: Reply, queue: seq<Item>,
                            pending: seq<Item>)
  {
    var k := FirstWhere(was, AnswersTo(id));
    && reply == (if k < |was| then Reply(was[k]) else NoReply)
    && queue == Behind(was, k)
    && pending == base + Where(was[..k], Strangers(id))
  }

  /** A subscription takes a rejection that comes before the first frame of its stream; every other
      frame it reads, that first one included, goes behind the pending ones, in order. */
  ghost predicate Subscribed(id: string, was: seq<Item>, base: seq<Item>, rejected: Reply, queue: seq<Item>,
                             pending: seq<Item>)
  {
    var k := FirstWhere(was, SettlesFor(id));
    && queue == Behind(was, k)
    && if k < |was| && Rejects(id, was[k].frame) then rejected == Reply(was[k]) && pending == base + was[..k]
       else rejected == NoReply && pending == base + was[..if k < |was| then k + 1 else k]
  }

  predicate IsAck(frame: Frame) {
    frame.Some? && "type" in frame.value && frame.value["type"] == Str("connection_ack")
  }

  /** An acknowledgement that is not of a daemon still starting or warming up. */
  predicate FinalAck(frame: Frame) {
    && IsAck(frame)
    && !("result" in frame.value && frame.value["result"].Obj? && "readiness_state" in frame.value["result"].fields
         && frame.value["result"].fields["readiness_state"] in [Str("starting"), Str("warming")])
  }

  predicate EndsHandshake(frame: Frame) {
    frame.None? || frame.value == map[] || FinalAck(frame)
  }

  /** Neither an acknowledgement nor a status. */
  predicate Spills(frame: Frame) {
    frame.Some? && frame.value != map[]
    && ("type" in frame.value ==> frame.value["type"] != Str("connection_ack") && frame.value["type"] != Str("status"))
  }

  function FinalAcks(): Item -> bool { (x: Item) => FinalAck(x.frame) }

  function Handshakes(): Item -> bool { (x: Item) => EndsHandshake(x.frame) }

  function NotAcks(): Item -> bool { (x: Item) => !IsAck(x.frame) }

  function Spilt(): Item -> bool { (x: Item) => Spills(x.frame) }

  /** The handshake takes the first final acknowledgement that is pending; failing that, the first one in
      the queue, or the end of the stream. Acknowledgements met before it are used up, statuses are
      discarded, and every other frame read goes behind the pending ones, in order. */
  ghost predicate Greeted(was: seq<Item>, base: seq<Item>, ack: Reply, queue: seq<Item>, pending: seq<Item>) {
    var k, m := FirstWhere(base, FinalAcks()), FirstWhere(was, Handshakes());
    if k < |base| then
      ack == Reply(base[k]) && queue == was && pending == Where(base[..k], NotAcks()) + base[k + 1..]
    else
      && ack == (if m < |was| then Reply(was[m]) else NoReply)
      && queue == Behind(was, m)
      && pending == Where(base, NotAcks()) + Where(was[..m], Spilt())
  }

  // ---------------------------------------------------------------- the loops, frame by frame

  /** A request that has read `k` frames. */
  ghost predicate RequestSoFar(id: string, was: seq<Item>, base: seq<Item>, k: nat, queue: seq<Item>,
                                pending: seq<Item>)
  {
    && k <= |was| && queue == was[k..] && (forall j :: 0 <= j < k ==> !AnswersTo(id)(was[j]))
    && pending == base + Where(was[..k], Strangers(id))
  }

  lemma RequestStarts(id: string, was: seq<Item>, base: seq<Item>)
    ensures RequestSoFar(id, was, base, 0, was, base)
  {
  }

  lemma RequestReads(id: string, was: seq<Item>, base: seq<Item>, k: nat, queue: seq<Item>, pending: seq<Item>)
    requires RequestSoFar(id, was, base, k, queue, pending) && queue != []
    ensures var x, fate := queue[0], FateOf(Requesting(id), queue[0].frame);
      && fate in {Ends, Swallowed, Spilled}
      && (fate.Ends? ==> Requested(id, was, base, Reply(x), queue[1..], pending))
      && (fate.Spilled? ==> RequestSoFar(id, was, base, k + 1, queue[1..], pending + [x]))
      && (fate.Swallowed? ==> RequestSoFar(id, was, base, k + 1, queue[1..], pending))
  {
    hide FateOf;
    hide Where;
    hide Answers;
    hide Foreign;
    var x := queue[0];
    RequestFates(id, x.frame);
    WhereGrows(was, k, Strangers(id));
    var others := Where(was[..k], Strangers(id));
    assert base + others + [x] == base + (others + [x]) && others + [] == others;
    if Answers(id, x.frame) {
      FirstFound(was, k, AnswersTo(id));
    }
  }

  lemma RequestRunsDry(id: string, was: seq<Item>, base: seq<Item>, k: nat, pending: seq<Item>)
    requires RequestSoFar(id, was, base, k, [], pending)
    ensures Requested(id, was, base, NoReply, [], pending)
  {
    hide Where;
    hide Answers;
    hide Foreign;
    NoneFound(was, AnswersTo(id));
    assert was[..k] == was[..|was|];
  }

  /** A subscription that has read `k` frames. */
  ghost predicate SubscribeSoFar(id: string, was: seq<Item>, base: seq<Item>, k: nat, queue: seq<Item>,
                                pending: seq<Item>)
  {
    && k <= |was| && queue == was[k..] && (forall j :: 0 <= j < k ==> !SettlesFor(id)(was[j]))
    && pending == base + was[..k]
  }

  lemma SubscribeStarts(id: string, was: seq<Item>, base: seq<Item>)
    ensures SubscribeSoFar(id, was, base, 0, was, base)
  {
  }

  lemma SubscribeReads(id: string, was: seq<Item>, base: seq<Item>, k: nat, queue: seq<Item>, pending: seq<Item>)
    requires SubscribeSoFar(id, was, base, k, queue, pending) && queue != []
    ensures var x, fate := queue[0], FateOf(Subscribing(id), queue[0].frame);
      && fate in {Ends, Spilled, SpilledLast}
      && (fate.Ends? ==> Subscribed(id, was, base, Reply(x), queue[1..], pending))
      && (fate.Spilled? ==> SubscribeSoFar(id, was, base, k + 1, queue[1..], pending + [x]))
      && (fate.SpilledLast? ==> Subscribed(id, was, base, NoReply, queue[1..], pending + [x]))
  {
    hide FateOf;
    hide Settles;
    hide Rejects;
    var x := queue[0];
    SubscribeFates(id, x.frame);
    assert was[..k + 1] == was[..k] + [x];
    assert base + was[..k] + [x] == base + was[..k + 1];
    if Settles(id, x.frame) {
      FirstFound(was, k, SettlesFor(id));
    }
  }

  lemma SubscribeRunsDry(id: string, was: seq<Item>, base: seq<Item>, k: nat, pending: seq<Item>)
    requires SubscribeSoFar(id, was, base, k, [], pending)
    ensures Subscribed(id, was, base, NoReply, [], pending)
  {
    hide Settles;
    hide Rejects;
    NoneFound(was, SettlesFor(id));
    assert was[..k] == was[..|was|];
  }

  /** A handshake past `j` pending and `m` queued frames. */
  ghost predicate GreetSoFar(was: seq<Item>, base: seq<Item>, j: nat, m: nat, queue: seq<Item>, pending: seq<Item>) {
    && j <= |base| && m <= |was| && queue == was[m..] && (m > 0 ==> j == |base|)
    && (forall i :: 0 <= i < j ==> !FinalAcks()(base[i])) && (forall i :: 0 <= i < m ==> !Handshakes()(was[i]))
    && pending == Where(base[..j], NotAcks()) + base[j..] + Where(was[..m], Spilt())
  }

  lemma GreetStarts(was: seq<Item>, base: seq<Item>)
    ensures GreetSoFar(was, base, 0, 0, was, base)
  {
    assert [] + base + [] == base;
  }

  lemma {:induction false} WhereAll(s: seq<Item>, p: Item -> bool)
    requires forall i :: 0 <= i < |s| ==> p(s[i])
    ensures Where(s, p) == s
  {
    if s != [] {
      WhereAll(s[..|s| - 1], p);
    }
  }

  lemma {:induction false} WhereMeets(s: seq<Item>, p: Item -> bool)
    ensures forall i :: 0 <= i < |Where(s, p)| ==> p(Where(s, p)[i])
  {
    if s != [] {
      WhereMeets(s[..|s| - 1], p);
    }
  }

  lemma {:induction false} WhereJoins(a: seq<Item>, b: seq<Item>, p: Item -> bool)
    ensures Where(a + b, p) == Where(a, p) + Where(b, p)
    decreases |b|
  {
    if b == [] {
      assert a + b == a && Where(b, p) == [];
    } else {
      var n := |b| - 1;
      WhereJoins(a, b[..n], p);
      assert (a + b)[..|a + b| - 1] == a + b[..n];
    }
  }

  /** The first pending acknowledgement is popped. */
  lemma GreetPops(was: seq<Item>, base: seq<Item>, j: nat, m: nat, queue: seq<Item>, pending: seq<Item>)
    returns (j': nat)
    requires GreetSoFar(was, base, j, m, queue, pending)
    requires FirstOfType(pending, "connection_ack") < |pending|
    ensures var i := FirstOfType(pending, "connection_ack");
      var x, left := pending[i], Without(pending, i);
      && FateOf(Greeting, x.frame) in {Ends, Swallowed}
      && (FateOf(Greeting, x.frame).Ends? ==> Greeted(was, base, Reply(x), queue, left))
      && (FateOf(Greeting, x.frame).Swallowed? ==> GreetSoFar(was, base, j', m, queue, left))
  {
    hide FateOf;
    hide Where;
    hide FirstOfType;
    hide Spills;
    var kept, late := Where(base[..j], NotAcks()), Where(was[..m], Spilt());
    var i := FirstOfType(pending, "connection_ack");
    var x := pending[i];
    GreetingFates(x.frame);
    WhereMeets(base[..j], NotAcks());
    WhereMeets(was[..m], Spilt());
    NoAckSpills(late);
    assert |kept| <= i < |kept| + |base[j..]|;
    var k := j + i - |kept|;
    assert base[k] == x;
    forall t | j <= t < k
      ensures NotAcks()(base[t])
    {
      assert base[t] == pending[|kept| + t - j];
      GreetingFates(base[t].frame);
    }
    WhereAll(base[j..k], NotAcks());
    WhereJoins(base[..j], base[j..k], NotAcks());
    assert base[..k] == base[..j] + base[j..k];
    assert Where(base[..k], NotAcks()) == kept + base[j..k];
    WhereGrows(base, k, NotAcks());
    j' := k + 1;
    assert m == 0 && late == [] by { NothingRead(was); }
    assert Without(pending, i) == Where(base[..k], NotAcks()) + base[k + 1..];
    assert Where(base[..k], NotAcks()) + [] == Where(base[..k], NotAcks());
    if FinalAck(x.frame) {
      FirstFound(base, k, FinalAcks());
      assert was[0..] == was;
    } else {
      assert Where(base[..k], NotAcks()) + base[k + 1..] + [] == Where(base[..k], NotAcks()) + base[k + 1..];
    }
  }

  lemma NothingRead(was: seq<Item>)
    ensures Where(was[..0], Spilt()) == []
  {
  }

  lemma NoAckSpills(s: seq<Item>)
    requires forall i :: 0 <= i < |s| ==> Spilt()(s[i])
    ensures forall i :: 0 <= i < |s| ==> !HasType(s[i].frame, "connection_ack")
  {
  }

  /** No acknowledgement is pending any more. */
  lemma GreetPast(was: seq<Item>, base: seq<Item>, j: nat, m: nat, queue: seq<Item>, pending: seq<Item>)
    returns (j': nat)
    requires GreetSoFar(was, base, j, m, queue, pending)
    requires FirstOfType(pending, "connection_ack") == |pending|
    ensures j' == |base| && GreetSoFar(was, base, j', m, queue, pending)
  {
    hide FateOf;
    hide Where;
    hide FirstOfType;
    var kept := Where(base[..j], NotAcks());
    forall t | j <= t < |base|
      ensures NotAcks()(base[t]) && !FinalAcks()(base[t])
    {
      assert base[t] == pending[|kept| + t - j];
      GreetingFates(base[t].frame);
    }
    WhereAll(base[j..], NotAcks());
    WhereJoins(base[..j], base[j..], NotAcks());
    j' := |base|;
    assert base[..j] + base[j..] == base == base[..j'] && base[j'..] == [];
    assert Where(base[..j'], NotAcks()) + [] == kept + base[j..];
  }

  lemma GreetReads(was: seq<Item>, base: seq<Item>, m: nat, queue: seq<Item>, pending: seq<Item>)
    requires GreetSoFar(was, base, |base|, m, queue, pending) && queue != []
    ensures var x, fate := queue[0], FateOf(Greeting, queue[0].frame);
      && fate in {Ends, Swallowed, Discarded, Spilled}
      && (fate.Ends? ==> Greeted(was, base, Reply(x), queue[1..], pending))
      && (fate.Spilled? ==> GreetSoFar(was, base, |base|, m + 1, queue[1..], pending + [x]))
      && (fate.Swallowed? || fate.Discarded? ==> GreetSoFar(was, base, |base|, m + 1, queue[1..], pending))
  {
    hide FateOf;
    hide Where;
    hide FinalAck;
    hide Spills;
    var x := queue[0];
    GreetingFates(x.frame);
    WhereGrows(was, m, Spilt());
    var kept, late := Where(base, NotAcks()), Where(was[..m], Spilt());
    assert base[..|base|] == base && base[|base|..] == [];
    assert pending == kept + late;
    assert kept + late + [x] == kept + (late + [x]) && late + [] == late;
    NoneFound(base, FinalAcks());
    if EndsHandshake(x.frame) {
      FirstFound(was, m, Handshakes());
    }
  }

  lemma GreetRunsDry(was: seq<Item>, base: seq<Item>, m: nat, pending: seq<Item>)
    requires GreetSoFar(was, base, |base|, m, [], pending)
    ensures Greeted(was, base, NoReply, [], pending)
  {
    hide Where;
    hide FinalAck;
    hide Spills;
    NoneFound(base, FinalAcks());
    NoneFound(was, Handshakes());
    assert base[..|base|] == base && base[|base|..] == [] && was[..m] == was[..|was|];
    assert Where(base, NotAcks()) + [] == Where(base, NotAcks());
  }

  lemma WhereGrows(s: seq<Item>, k: nat, p: Item -> bool)
    requires k < |s|
    ensures Where(s[..k + 1], p) == Where(s[..k], p) + if p(s[k]) then [s[k]] else []
  {
    assert s[..k + 1][..k] == s[..k];
  }

  lemma {:induction false} FirstFound(s: seq<Item>, k: nat, p: Item -> bool)
    requires k < |s| && p(s[k]) && forall j :: 0 <= j < k ==> !p(s[j])
    ensures FirstWhere(s, p) == k
  {
  }

  lemma NoneFound(s: seq<Item>, p: Item -> bool)
    requires forall j :: 0 <= j < |s| ==> !p(s[j])
    ensures FirstWhere(s, p) == |s|
  {
  }

  class FrameClient {
    var pending: seq<Item>
    var queue: seq<Item>
    ghost var model: Router

    ghost predicate Valid()
      reads this
    {
      pending == model.pending && queue == model.q.queue && model.op.Free?
    }

    constructor ()
      ensures Valid() && model == Rest()
    {
      pending, queue, model := [], [], Rest();
    }

    /** The socket side acts between two calls. */
    method Receive(ghost step: Step, now: seq<Item>)
      requires Valid() && !step.Take? && now == Next(model.q, step).queue
      modifies this`queue, this`model
      ensures Valid() && model == Go(old(model), Socket(step))
    {
      queue, model := now, Go(model, Socket(step));
    }

    /** `read_event`: pending frames first. */
    method ReadEvent() returns (reply: Reply)
      requires Valid()
      modifies this
      ensures Valid() && model == Go(old(model), Read)
      ensures match reply
        case Reply(x) => model.handed == old(model).handed + [x]
        case NoReply => pending == queue == [] && model == old(model)
    {
      hide Stale;
      model := Go(model, Read);
      if pending != [] {
        reply, pending := Reply(pending[0]), pending[1..];
      } else if queue != [] {
        reply, queue := Reply(queue[0]), queue[1..];
      } else {
        reply := NoReply;
      }
    }

    /** `push_pending_event_front` of the frame just read: the read is undone. */
    method PushPendingEventFront(x: Item)
      requires Valid() && model.handed != [] && model.handed[|model.handed| - 1] == x
      modifies this`pending, this`model
      ensures Valid() && model == Go(old(model), PushFront)
    {
      pending, model := [x] + pending, Go(model, PushFront);
    }

    /** `peel_stale_pending_control_events`. */
    method PeelStalePendingControlEvents() returns (removed: seq<string>)
      requires Valid()
      modifies this`pending, this`model
      ensures Valid() && model == Go(old(model), Peel)
      ensures removed == Labels(Removed(old(pending)))
    {
      hide Stale;
      hide LabelOf;
      hide Labels;
      ghost var was := pending;
      var kept := [];
      removed := [];
      ghost var out := [];
      assert Labels([]) == [] by { NoLabels(); }
      while pending != []
        invariant kept + Kept(pending) == Kept(was) && out + Removed(pending) == Removed(was)
        invariant model == old(model) && removed == Labels(out)
        decreases |pending|
      {
        var x := pending[0];
        PeelOne(pending, kept, out);
        pending := pending[1..];
        if Stale(x) {
          LabelsGrow(out, x);
          removed, out := removed + [LabelOf(x)], out + [x];
        } else {
          kept := kept + [x];
        }
      }
      assert Kept([]) == [] && Removed([]) == [];
      assert kept == Kept(was) && out == Removed(was);
      pending := kept;
      model := Go(model, Peel);
    }

    /** `_pop_pending_event_by_type`: the first match leaves, the others keep their order. */
    method PopPendingEventByType(t: string) returns (matched: Reply)
      modifies this`pending
      ensures var i := FirstOfType(old(pending), t);
        if i < |old(pending)| then matched == Reply(old(pending)[i]) && pending == Without(old(pending), i)
        else matched == NoReply && pending == old(pending)
    {
      hide HasType;
      hide FirstOfType;
      ghost var was := pending;
      ghost var k := FirstOfType(was, t);
      var kept := [];
      matched := NoReply;
      ghost var n := 0;
      while pending != []
        invariant n <= |was| && pending == was[n..]
        invariant matched == if k < n then Reply(was[k]) else NoReply
        invariant kept == Passed(was, k, n)
        decreases |pending|
      {
        var x := pending[0];
        assert x == was[n];
        PassedGrows(was, k, n);
        pending := pending[1..];
        if matched.NoReply? && HasType(x.frame, t) {
          matched := Reply(x);
        } else {
          kept := kept + [x];
        }
        n := n + 1;
      }
      pending := kept;
      assert was[..|was|] == was;
    }

    /** `request`: read until the reply, spilling everything else. */
    method Request(id: string) returns (reply: Reply, ghost n: nat)
      requires Valid()
      modifies this
      ensures Valid()
      ensures model == Go(Waits(Go(old(model), Begin(Requesting(id))), n), TimedOut)
      ensures Requested(id, old(queue), old(pending), reply, queue, pending)
    {
      hide FateOf;
      hide Next;
      hide FirstOfType;
      hide Kept;
      hide Removed;
      hide Requested;
      hide RequestSoFar;
      ghost var begun, was, base, k := Go(model, Begin(Requesting(id))), queue, pending, 0;
      RequestStarts(id, was, base);
      model, n := begun, 0;
      while queue != []
        invariant pending == model.pending && queue == model.q.queue && model.op == Requesting(id)
        invariant model == Waits(begun, n)
        invariant RequestSoFar(id, was, base, k, queue, pending)
        decreases |queue|
      {
        var x := queue[0];
        TakeLeaves(model.q);
        RequestReads(id, was, base, k, queue, pending);
        queue := queue[1..];
        model, n := Go(model, Wait), n + 1;
        match FateOf(Requesting(id), x.frame) {
          case Ends =>
            return Reply(x), n;
          case Spilled =>
            pending := pending + [x];
          case _ =>
        }
        k := k + 1;
      }
      RequestRunsDry(id, was, base, k, pending);
      model := Go(model, TimedOut);
      reply := NoReply;
    }

    /** `subscribe`: only a rejection is used up; the first frame of the stream is left to be read. */
    method Subscribe(id: string) returns (rejected: Reply, ghost n: nat)
      requires Valid()
      modifies this
      ensures Valid()
      ensures model == Go(Waits(Go(old(model), Begin(Subscribing(id))), n), TimedOut)
      ensures Subscribed(id, old(queue), old(pending), rejected, queue, pending)
    {
      hide FateOf;
      hide Next;
      hide FirstOfType;
      hide Kept;
      hide Removed;
      hide Subscribed;
      hide SubscribeSoFar;
      ghost var begun, was, base, k := Go(model, Begin(Subscribing(id))), queue, pending, 0;
      SubscribeStarts(id, was, base);
      model, n := begun, 0;
      while queue != []
        invariant pending == model.pending && queue == model.q.queue && model.op == Subscribing(id)
        invariant model == Waits(begun, n)
        invariant SubscribeSoFar(id, was, base, k, queue, pending)
        decreases |queue|
      {
        var x := queue[0];
        TakeLeaves(model.q);
        SubscribeReads(id, was, base, k, queue, pending);
        queue := queue[1..];
        model, n := Go(model, Wait), n + 1;
        match FateOf(Subscribing(id), x.frame) {
          case Ends =>
            return Reply(x), n;
          case Spilled =>
            pending := pending + [x];
          case SpilledLast =>
            pending := pending + [x];
            return NoReply, n;
          case _ =>
        }
        k := k + 1;
      }
      SubscribeRunsDry(id, was, base, k, pending);
      model := Go(model, TimedOut);
      rejected := NoReply;
    }

    /** `wait_for_connection_ack`: an ack that was spilled earlier is found first; statuses met on
        the way are discarded. */
    method WaitForConnectionAck() returns (ack: Reply, ghost n: nat)
      requires Valid()
      modifies this
      ensures Valid()
      ensures model == Go(Waits(Go(old(model), Begin(Greeting)), n), TimedOut)
      ensures Greeted(old(queue), old(pending), ack, queue, pending)
    {
      hide FateOf;
      hide Next;
      hide FirstOfType;
      hide Own;
      hide Kept;
      hide Removed;
      hide Greeted;
      hide GreetSoFar;
      ghost var begun, was, base, j, m := Go(model, Begin(Greeting)), queue, pending, 0, 0;
      GreetStarts(was, base);
      model, n := begun, 0;
      while true
        invariant pending == model.pending && queue == model.q.queue && model.op == Greeting
        invariant model == Waits(begun, n)
        invariant GreetSoFar(was, base, j, m, queue, pending)
        decreases |queue| + |pending|, |queue|
      {
        ghost var held := pending;
        var popped := PopPendingEventByType("connection_ack");
        if popped.NoReply? {
          j := GreetPast(was, base, j, m, queue, pending);
          if queue == [] {
            break;
          }
        }
        var x;
        if popped.Reply? {
          x := popped.x;
          AckFates(x.frame);
          j := GreetPops(was, base, j, m, queue, held);
        } else {
          x := queue[0];
          TakeLeaves(model.q);
          GreetReads(was, base, m, queue, pending);
          queue := queue[1..];
          m := m + 1;
        }
        model, n := Go(model, Wait), n + 1;
        match FateOf(Greeting, x.frame) {
          case Ends =>
            return Reply(x), n;
          case Spilled =>
            pending := pending + [x];
          case SpilledLast =>
            GreetingFates(x.frame);
          case _ =>
        }
      }
      GreetRunsDry(was, base, m, pending);
      model := Go(model, TimedOut);
      ack := NoReply;
    }
  }

  function LabelOf(x: Item): string {
    if Stale(x) then StaleLabel(Obj(x.frame.value)).value else ""
  }

  function Labels(s: seq<Item>): seq<string> {
    seq(|s|, i requires 0 <= i < |s| => LabelOf(s[i]))
  }

  lemma NoLabels()
    ensures Labels([]) == []
  {
  }

  lemma LabelsGrow(s: seq<Item>, x: Item)
    ensures Labels(s + [x]) == Labels(s) + [LabelOf(x)]
  {
    hide LabelOf;
  }

  lemma Joined(a: seq<Item>, x: Item, b: seq<Item>)
    ensures a + ([x] + b) == a + [x] + b && a + ([] + b) == a + b
  {
    assert [] + b == b;
  }

  lemma PeelOne(pending: seq<Item>, kept: seq<Item>, out: seq<Item>)
    requires pending != []
    ensures var x, rest := pending[0], pending[1..];
      && kept + Kept(pending) == (if Stale(x) then kept else kept + [x]) + Kept(rest)
      && out + Removed(pending) == (if Stale(x) then out + [x] else out) + Removed(rest)
  {
    hide Stale;
    Joined(kept, pending[0], Kept(pending[1..]));
    Joined(out, pending[0], Removed(pending[1..]));
  }

  /** The first `n` frames but for the one at `k`. */
  ghost function Passed(was: seq<Item>, k: nat, n: nat): seq<Item>
    requires n <= |was|
  {
    if k < n then was[..k] + was[k + 1..n] else was[..n]
  }

  lemma PassedGrows(was: seq<Item>, k: nat, n: nat)
    requires n < |was|
    ensures Passed(was, k, n + 1) == Passed(was, k, n) + if n == k then [] else [was[n]]
  {
  }

  lemma TakeLeaves(q: Inbound)
    requires q.queue != []
    ensures Next(q, Take).queue == q.queue[1..]
  {
  }

  lemma RequestFates(id: string, frame: Frame)
    ensures FateOf(Requesting(id), frame) in {Ends, Swallowed, Spilled}
    ensures FateOf(Requesting(id), frame).Ends? <==> Answers(id, frame)
    ensures FateOf(Requesting(id), frame).Spilled? <==> Foreign(id, frame)
  {
  }

  lemma SubscribeFates(id: string, frame: Frame)
    ensures FateOf(Subscribing(id), frame) in {Ends, Spilled, SpilledLast}
    ensures FateOf(Subscribing(id), frame).Ends? <==> Rejects(id, frame)
    ensures Rejects(id, frame) ==> Settles(id, frame)
    ensures FateOf(Subscribing(id), frame).Spilled? <==> !Settles(id, frame)
  {
  }

  lemma GreetingFates(frame: Frame)
    ensures FateOf(Greeting, frame) in {Ends, Swallowed, Discarded, Spilled}
    ensures FateOf(Greeting, frame).Ends? <==> EndsHandshake(frame)
    ensures FateOf(Greeting, frame).Swallowed? <==> IsAck(frame) && !FinalAck(frame)
    ensures FateOf(Greeting, frame).Spilled? <==> Spills(frame)
    ensures IsAck(frame) <==> HasType(frame, "connection_ack")
    ensures IsAck(frame) ==> !Spills(frame)
  {
  }

  lemma AckFates(frame: Frame)
    requires HasType(frame, "connection_ack")
    ensures FateOf(Greeting, frame) in {Ends, Swallowed}
  {
  }
}
