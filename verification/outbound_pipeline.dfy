/** The outbound priority queue between the processor thread and the consumer (`appkit/turn.py`).
    Every operation on the queue is one step; the consumer may run between any two of them, also in
    the middle of an eviction. */
module OutboundPipeline {
  const PRIORITY_CRITICAL := -1
  const PRIORITY_HIGH := 0
  const PRIORITY_NORMAL := 1
  const PRIORITY_LOW := 2

  /** `at` numbers the entries in the order in which they are produced. */
  datatype Entry = Entry(priority: int, at: nat, sentinel: bool)

  predicate Less(a: Entry, b: Entry) {
    a.priority < b.priority || (a.priority == b.priority && a.at < b.at)
  }

  /** What the processor thread is doing with the entry it is putting. */
  datatype Work =
    | Ready
    | Draining(entry: Entry, temp: seq<Entry>)                  // taking everything out
    | Refilling(entry: Entry, temp: seq<Entry>, evicted: bool)  // putting the rest back
    | Retrying(entry: Entry)                                    // room was made
    | Blocking(entry: Entry)                                    // waiting for room, with a timeout
    | Finished                                                  // the sentinel has been put, or lost

  datatype Pipe = Pipe(
    maxsize: nat,              // 0 is unbounded
    queue: seq<Entry>,         // smallest first
    work: Work,
    dropped: nat,              // _outbound_dropped
    over: bool,                // the consumer has met the sentinel
    produced: seq<Entry>,
    delivered: seq<Entry>,
    evicted: seq<Entry>,
    refused: seq<Entry>)       // dropped without having been admitted

  datatype Step = Produce(priority: int) | End | Proc | TimeOut | Consume

  function Open(maxsize: nat): Pipe {
    Pipe(maxsize, [], Ready, 0, false, [], [], [], [])
  }

  predicate Full(s: Pipe) {
    s.maxsize > 0 && |s.queue| >= s.maxsize
  }

  /** Where an entry belongs in a sorted queue. */
  function Place(q: seq<Entry>, e: Entry): (i: nat)
    ensures i <= |q|
    ensures forall j :: 0 <= j < i ==> Less(q[j], e)
    ensures i < |q| ==> !Less(q[i], e)
  {
    if q == [] || !Less(q[0], e) then 0 else 1 + Place(q[1..], e)
  }

  function Inserted(q: seq<Entry>, e: Entry): seq<Entry> {
    q[..Place(q, e)] + [e] + q[Place(q, e)..]
  }

  /** The first entry of the largest priority value, or the length when none exceeds the bound. */
  function DropTarget(temp: seq<Entry>, above: int): (i: nat)
    ensures i <= |temp|
    ensures i < |temp| ==> temp[i].priority > above
    ensures i < |temp| ==> forall j :: 0 <= j < |temp| ==> temp[j].priority <= temp[i].priority
    ensures i < |temp| ==> forall j :: 0 <= j < i ==> temp[j].priority < temp[i].priority
    ensures i == |temp| ==> forall j :: 0 <= j < |temp| ==> temp[j].priority <= above
  {
    if temp == [] then 0
    else
      var rest := DropTarget(temp[1..], if temp[0].priority > above then temp[0].priority else above);
      if rest < |temp| - 1 then rest + 1 else if temp[0].priority > above then 0 else |temp|
  }

  function MinEvictable(incoming: int): int {
    if incoming <= PRIORITY_HIGH then PRIORITY_NORMAL else PRIORITY_LOW
  }

  /** The index the eviction drops, or the length when nothing may go. */
  function Evictable(temp: seq<Entry>, incoming: int): (i: nat)
    ensures i <= |temp|
  {
    var i := DropTarget(temp, PRIORITY_CRITICAL - 1);
    if i < |temp| && temp[i].priority >= MinEvictable(incoming) then i else |temp|
  }

  function Settled(s: Pipe, e: Entry): Pipe {
    s.(work := if e.sentinel then Finished else Ready)
  }

  function Admitted(s: Pipe, e: Entry): Pipe {
    Settled(s.(queue := Inserted(s.queue, e)), e)
  }

  function Refused(s: Pipe, e: Entry): Pipe {
    Settled(s.(dropped := s.dropped + 1, refused := s.refused + [e]), e)
  }

  /** `put_nowait`, else an eviction begins. */
  function Put(s: Pipe, priority: int, sentinel: bool): Pipe {
    var e := Entry(priority, |s.produced|, sentinel);
    var s' := s.(produced := s.produced + [e]);
    if Full(s) then s'.(work := Draining(e, [])) else Admitted(s', e)
  }

  /** The queue is drained: choose what to drop. */
  function Chosen(s: Pipe, e: Entry, temp: seq<Entry>): Pipe {
    var i := Evictable(temp, e.priority);
    if i < |temp| then
      s.(work := Refilling(e, temp[..i] + temp[i + 1..], true), dropped := s.dropped + 1,
         evicted := s.evicted + [temp[i]])
    else s.(work := Refilling(e, temp, false))
  }

  function Worked(s: Pipe): Pipe {
    match s.work
    case Draining(e, temp) =>
      if s.queue != [] then s.(queue := s.queue[1..], work := Draining(e, temp + [s.queue[0]])) else Chosen(s, e, temp)
    case Refilling(e, temp, evicted) =>
      if temp != [] then
        if Full(s) then s      // put_nowait would raise; never happens
        else s.(queue := Inserted(s.queue, temp[0]), work := Refilling(e, temp[1..], evicted))
      else if evicted then s.(work := Retrying(e))
      else if e.priority <= PRIORITY_HIGH then s.(work := Blocking(e))
      else Refused(s, e)
    case Retrying(e) =>
      if !Full(s) then Admitted(s, e)
      else if e.priority <= PRIORITY_HIGH then s.(work := Blocking(e))
      else Refused(s, e)
    case Blocking(e) => if !Full(s) then Admitted(s, e) else s
    case _ => s
  }

  function Next(s: Pipe, step: Step): Pipe {
    match step
    case Produce(priority) => if s.work.Ready? then Put(s, priority, false) else s
    case End => if s.work.Ready? then Put(s, PRIORITY_LOW, true) else s
    case Proc => Worked(s)
    case TimeOut => if s.work.Blocking? && Full(s) then Refused(s, s.work.entry) else s
    case Consume =>
      if s.over || s.queue == [] then s
      else s.(queue := s.queue[1..], delivered := s.delivered + [s.queue[0]], over := s.queue[0].sentinel)
  }

  function Run(s: Pipe, steps: seq<Step>): Pipe
    decreases |steps|
  {
    if steps == [] then s else Run(Next(s, steps[0]), steps[1..])
  }

  lemma {:induction false} RunMore(s: Pipe, steps: seq<Step>, step: Step)
    ensures Run(s, steps + [step]) == Next(Run(s, steps), step)
    decreases |steps|
  {
    hide Next;
    if steps == [] {
      assert [] + [step] == [step] && [step][1..] == [];
    } else {
      assert (steps + [step])[1..] == steps[1..] + [step];
      RunMore(Next(s, steps[0]), steps[1..], step);
    }
  }

  // ---------------------------------------------------------------- invariants

  /** How often `x` occurs. */
  ghost function Times(s: seq<Entry>, x: Entry): nat { multiset(s)[x] }

  function Hit(e: Entry, x: Entry): nat { if e == x then 1 else 0 }

  /** Entries the processor holds in its hands. */
  function Held(w: Work): seq<Entry> {
    match w
    case Draining(e, temp) => [e] + temp
    case Refilling(e, temp, _) => [e] + temp
    case Retrying(e) => [e]
    case Blocking(e) => [e]
    case _ => []
  }

  /** Every entry produced is delivered, queued, held or dropped, as often as it was produced. */
  ghost predicate Conserved(s: Pipe, x: Entry) {
    && Times(s.produced, x) == Times(s.delivered, x) + Times(s.queue, x) + Times(Held(s.work), x)
                               + Times(s.evicted, x) + Times(s.refused, x)
    && |s.produced| == |s.delivered| + |s.queue| + |Held(s.work)| + s.dropped
    && s.dropped == |s.evicted| + |s.refused|
  }

  /** What an eviction takes out fits back in, with a place to spare once something was dropped. */
  ghost predicate Fits(s: Pipe) {
    s.maxsize > 0 ==>
      match s.work
      case Draining(_, temp) => |s.queue| + |temp| <= s.maxsize
      case Refilling(_, temp, evicted) => |s.queue| + |temp| <= s.maxsize - if evicted then 1 else 0
      case Retrying(_) => |s.queue| < s.maxsize
      case _ => |s.queue| <= s.maxsize
  }

  ghost predicate Sparing(s: Pipe) {
    forall i :: 0 <= i < |s.evicted| ==> s.evicted[i].priority > PRIORITY_HIGH
  }

  lemma Adds(a: seq<Entry>, e: Entry, x: Entry)
    ensures Times([], x) == 0 && Times([e], x) == Hit(e, x)
    ensures Times(a + [e], x) == Times(a, x) + Hit(e, x) == Times([e] + a, x)
  {
  }

  lemma HeadCounts(q: seq<Entry>, x: Entry)
    requires q != []
    ensures Times(q, x) == Hit(q[0], x) + Times(q[1..], x)
  {
    assert q == [q[0]] + q[1..];
  }

  lemma InsertCounts(q: seq<Entry>, e: Entry, x: Entry)
    ensures Times(Inserted(q, e), x) == Times(q, x) + Hit(e, x) && |Inserted(q, e)| == |q| + 1
  {
    assert q == q[..Place(q, e)] + q[Place(q, e)..];
  }

  lemma RemovalCounts(q: seq<Entry>, i: nat, x: Entry)
    requires i < |q|
    ensures Times(q, x) == Times(q[..i] + q[i + 1..], x) + Hit(q[i], x)
  {
    assert q == q[..i] + [q[i]] + q[i + 1..];
  }

  lemma PutConserves(s: Pipe, priority: int, sentinel: bool, x: Entry)
    requires Conserved(s, x) && s.work.Ready?
    ensures Conserved(Put(s, priority, sentinel), x)
  {
    hide Times;
    hide Hit;
    var e := Entry(priority, |s.produced|, sentinel);
    Adds(s.produced, e, x);
    Adds([], e, x);
    hide Inserted;
    assert [e] + [] == [e];
    InsertCounts(s.queue, e, x);
  }

  lemma DrainConserves(s: Pipe, x: Entry)
    requires Conserved(s, x) && s.work.Draining?
    ensures Conserved(Worked(s), x)
  {
    hide Times;
    hide Hit;
    hide Evictable;
    var e, temp := s.work.entry, s.work.temp;
    Adds(temp, e, x);
    if s.queue != [] {
      HeadCounts(s.queue, x);
      Adds(temp, s.queue[0], x);
      Adds(temp + [s.queue[0]], e, x);
    } else {
      var i := Evictable(temp, e.priority);
      if i < |temp| {
        RemovalCounts(temp, i, x);
        Adds(temp[..i] + temp[i + 1..], e, x);
        Adds(s.evicted, temp[i], x);
      }
    }
  }

  lemma RefillConserves(s: Pipe, x: Entry)
    requires Conserved(s, x) && s.work.Refilling?
    ensures Conserved(Worked(s), x)
  {
    hide Times;
    hide Hit;
    hide Inserted;
    var e, temp := s.work.entry, s.work.temp;
    Adds(temp, e, x);
    if temp != [] {
      HeadCounts(temp, x);
      InsertCounts(s.queue, temp[0], x);
      Adds(temp[1..], e, x);
    } else {
      assert [e] + temp == [e];
      Adds(s.refused, e, x);
    }
  }

  lemma LastPutConserves(s: Pipe, x: Entry)
    requires Conserved(s, x) && (s.work.Retrying? || s.work.Blocking?)
    ensures Conserved(Worked(s), x) && Conserved(Refused(s, s.work.entry), x)
  {
    hide Times;
    hide Hit;
    hide Inserted;
    Adds(s.refused, s.work.entry, x);
    InsertCounts(s.queue, s.work.entry, x);
  }

  lemma StepConserves(s: Pipe, step: Step, x: Entry)
    requires Conserved(s, x)
    ensures Conserved(Next(s, step), x)
  {
    hide Times;
    hide Hit;
    hide Put;
    hide Worked;
    match step {
      case Produce(priority) =>
        if s.work.Ready? { PutConserves(s, priority, false, x); }
      case End =>
        if s.work.Ready? { PutConserves(s, PRIORITY_LOW, true, x); }
      case Proc =>
        match s.work {
          case Draining(_, _) => DrainConserves(s, x);
          case Refilling(_, _, _) => RefillConserves(s, x);
          case Retrying(_) => LastPutConserves(s, x);
          case Blocking(_) => LastPutConserves(s, x);
          case _ => Idles(s);
        }
      case TimeOut =>
        if s.work.Blocking? { LastPutConserves(s, x); }
      case Consume =>
        if s.queue != [] {
          HeadCounts(s.queue, x);
          Adds(s.delivered, s.queue[0], x);
        }
    }
  }

  lemma Idles(s: Pipe)
    requires s.work.Ready? || s.work.Finished?
    ensures Worked(s) == s
  {
  }

  lemma WorkFits(s: Pipe)
    requires Fits(s)
    ensures Fits(Worked(s))
  {
  }

  lemma StepFits(s: Pipe, step: Step)
    requires Fits(s)
    ensures Fits(Next(s, step))
  {
    hide Inserted;
    hide Worked;
    WorkFits(s);
    match step {
      case Produce(priority) =>
        InsertCounts(s.queue, Entry(priority, |s.produced|, false), Entry(0, 0, false));
      case End =>
        InsertCounts(s.queue, Entry(PRIORITY_LOW, |s.produced|, true), Entry(0, 0, false));
      case _ =>
    }
  }

  lemma StepSpares(s: Pipe, step: Step)
    requires Sparing(s)
    ensures Sparing(Next(s, step))
  {
    hide Inserted;
    hide DropTarget;
  }

  // ---------------------------------------------------------------- whole runs

  ghost predicate Sound(s: Pipe) {
    Fits(s) && Sparing(s) && forall x :: Conserved(s, x)
  }

  lemma StepIsSound(s: Pipe, step: Step)
    requires Sound(s)
    ensures Sound(Next(s, step))
  {
    hide Fits;
    hide Sparing;
    hide Conserved;
    hide Next;
    StepFits(s, step);
    StepSpares(s, step);
    forall x
      ensures Conserved(Next(s, step), x)
    {
      StepConserves(s, step, x);
    }
  }

  lemma {:induction false} RunIsSound(s: Pipe, steps: seq<Step>)
    requires Sound(s)
    ensures Sound(Run(s, steps))
    decreases |steps|
  {
    hide Sound;
    hide Next;
    if steps != [] {
      StepIsSound(s, steps[0]);
      RunIsSound(Next(s, steps[0]), steps[1..]);
    }
  }

  /** Every interleaving of processor and consumer: what was produced is delivered, queued, held by
      an eviction in progress or counted as dropped; no CRITICAL or HIGH entry is evicted from the
      queue; and putting back never meets a full queue. */
  lemma EveryPipelineRun(maxsize: nat, steps: seq<Step>)
    ensures var s := Run(Open(maxsize), steps);
      && (forall x :: Conserved(s, x))
      && Sparing(s)
      && (s.work.Refilling? && s.work.temp != [] ==> !Full(s))
      && (s.work.Retrying? ==> !Full(s))
  {
    RunIsSound(Open(maxsize), steps);
    hide Conserved;
    hide Sparing;
  }

  // ---------------------------------------------------------------- the sentinel

  /** Nothing is below LOW. */
  ghost predicate Usual(steps: seq<Step>) {
    forall i :: 0 <= i < |steps| && steps[i].Produce? ==> steps[i].priority <= PRIORITY_LOW
  }

  /** Entries put before the one in hand, if any: none is the sentinel, none is below LOW. */
  ghost predicate Ordinary(q: seq<Entry>, bound: nat) {
    forall i :: 0 <= i < |q| ==> q[i].at < bound && q[i].priority <= PRIORITY_LOW && !q[i].sentinel
  }

  ghost predicate SentinelLast(s: Pipe) {
    match s.work
    case Ready => Ordinary(s.queue, |s.produced|) && !s.over
    case Finished =>
      (s.over ==> s.queue == [])
      && (s.queue != [] ==> Ordinary(s.queue[..|s.queue| - 1], |s.produced|))
    case Draining(e, temp) => HandOk(s, e) && Ordinary(temp, e.at)
    case Refilling(e, temp, _) => HandOk(s, e) && Ordinary(temp, e.at)
    case Retrying(e) => HandOk(s, e)
    case Blocking(e) => HandOk(s, e)
  }

  ghost predicate HandOk(s: Pipe, e: Entry) {
    && Ordinary(s.queue, e.at) && !s.over && e.at < |s.produced|
    && e.priority <= PRIORITY_LOW && (e.sentinel ==> e.priority == PRIORITY_LOW)
  }

  lemma OrdinaryInserted(q: seq<Entry>, e: Entry, bound: nat)
    requires Ordinary(q, bound) && e.at < bound && e.priority <= PRIORITY_LOW && !e.sentinel
    ensures Ordinary(Inserted(q, e), bound)
  {
  }

  /** Admitting the entry in hand. */
  lemma AdmissionOrders(s: Pipe, e: Entry)
    requires HandOk(s, e)
    ensures SentinelLast(Admitted(s, e)) && SentinelLast(Refused(s, e))
  {
  }

  lemma PutOrders(s: Pipe, priority: int, sentinel: bool)
    requires SentinelLast(s) && s.work.Ready? && priority <= PRIORITY_LOW && (sentinel ==> priority == PRIORITY_LOW)
    ensures SentinelLast(Put(s, priority, sentinel))
  {
  }

  lemma WorkOrders(s: Pipe)
    requires SentinelLast(s)
    ensures SentinelLast(Worked(s))
  {
    hide Inserted;
    hide DropTarget;
    hide Admitted;
    hide Refused;
    match s.work {
      case Refilling(e, temp, _) =>
        AdmissionOrders(s, e);
        if temp != [] {
          OrdinaryInserted(s.queue, temp[0], e.at);
        }
      case Retrying(e) => AdmissionOrders(s, e);
      case Blocking(e) => AdmissionOrders(s, e);
      case _ =>
    }
  }

  lemma StepOrders(s: Pipe, step: Step)
    requires SentinelLast(s) && (step.Produce? ==> step.priority <= PRIORITY_LOW)
    ensures SentinelLast(Next(s, step))
  {
    hide Put;
    hide Worked;
    hide Refused;
    match step {
      case Produce(priority) =>
        if s.work.Ready? { PutOrders(s, priority, false); }
      case End =>
        if s.work.Ready? { PutOrders(s, PRIORITY_LOW, true); }
      case Proc => WorkOrders(s);
      case TimeOut =>
        if s.work.Blocking? { AdmissionOrders(s, s.work.entry); }
      case Consume =>
        if s.queue != [] && s.work.Finished? {
          assert s.queue[1..][..|s.queue| - 1 - (if |s.queue| > 1 then 1 else 0)]
              == s.queue[..|s.queue| - (if |s.queue| > 1 then 1 else 0)][1..];
        }
    }
  }

  lemma {:induction false} RunOrders(s: Pipe, steps: seq<Step>)
    requires SentinelLast(s) && Usual(steps)
    ensures SentinelLast(Run(s, steps))
    decreases |steps|
  {
    hide SentinelLast;
    hide Next;
    if steps != [] {
      StepOrders(s, steps[0]);
      RunOrders(Next(s, steps[0]), steps[1..]);
    }
  }

  /** The sentinel is delivered only after every admitted chunk: once the consumer meets it, nothing
      is queued or held, and everything produced was delivered or dropped. */
  lemma SentinelComesLast(maxsize: nat, steps: seq<Step>)
    requires Usual(steps)
    ensures var s := Run(Open(maxsize), steps);
      s.over ==> s.queue == [] && Held(s.work) == [] && |s.produced| == |s.delivered| + s.dropped
  {
    RunOrders(Open(maxsize), steps);
    RunIsSound(Open(maxsize), steps);
    var s := Run(Open(maxsize), steps);
    assert Conserved(s, Entry(0, 0, false));
  }

  // ---------------------------------------------------------------- a lost sentinel

  /** The sentinel was given up, or is about to be. */
  ghost predicate Doomed(s: Pipe) {
    && !s.over && (forall i :: 0 <= i < |s.queue| ==> !s.queue[i].sentinel)
    && match s.work
       case Refilling(e, temp, evicted) =>
         e.sentinel && e.priority == PRIORITY_LOW && !evicted
         && forall i :: 0 <= i < |temp| ==> !temp[i].sentinel
       case Finished => true
       case _ => false
  }

  /** The sentinel is in the queue, delivered, or about to be admitted. */
  ghost predicate Saved(s: Pipe) {
    match s.work
    case Refilling(e, _, evicted) => e.sentinel && evicted
    case Retrying(e) => e.sentinel
    case Finished => s.over || exists i :: 0 <= i < |s.queue| && s.queue[i].sentinel
    case _ => false
  }

  lemma StepDooms(s: Pipe, step: Step)
    requires Doomed(s)
    ensures Doomed(Next(s, step))
  {
    hide DropTarget;
  }

  lemma StepSaves(s: Pipe, step: Step)
    requires Saved(s) && Fits(s)
    ensures Saved(Next(s, step)) && Fits(Next(s, step))
  {
    StepFits(s, step);
    hide DropTarget;
    hide Fits;
    RetryHasRoom(s);
    if s.work.Retrying? && step.Proc? {
      var e := s.work.entry;
      assert Inserted(s.queue, e)[Place(s.queue, e)] == e;
    } else if s.work.Finished? && step.Consume? && !s.over && s.queue != [] && !s.queue[0].sentinel {
      var i :| 0 <= i < |s.queue| && s.queue[i].sentinel;
      assert s.queue[1..][i - 1].sentinel;
    }
  }

  lemma RetryHasRoom(s: Pipe)
    requires Fits(s)
    ensures s.work.Retrying? ==> !Full(s)
  {
  }

  /** Once the queue is full, the end sentinel survives exactly when the eviction finds a LOW entry.
      Otherwise it is dropped, and in no continuation does the consumer ever meet it. */
  lemma {:induction false} SentinelLostExactlyWhen(s: Pipe, steps: seq<Step>)
    requires Fits(s) && s.work.Draining? && s.work.entry.sentinel && s.work.entry.priority == PRIORITY_LOW
    requires s.queue == [] && !s.over && forall i :: 0 <= i < |s.work.temp| ==> !s.work.temp[i].sentinel
    ensures var later := Run(Next(s, Proc), steps);
      if exists i :: 0 <= i < |s.work.temp| && s.work.temp[i].priority >= PRIORITY_LOW
      then Saved(later) else Doomed(later) && !later.over
  {
    StepFits(s, Proc);
    var s' := Next(s, Proc);
    if exists i :: 0 <= i < |s.work.temp| && s.work.temp[i].priority >= PRIORITY_LOW {
      assert Saved(s');
      StaysSaved(s', steps);
    } else {
      assert Doomed(s');
      StaysDoomed(s', steps);
    }
  }

  lemma {:induction false} StaysSaved(s: Pipe, steps: seq<Step>)
    requires Saved(s) && Fits(s)
    ensures Saved(Run(s, steps))
    decreases |steps|
  {
    hide Saved;
    hide Fits;
    hide Next;
    if steps != [] {
      StepSaves(s, steps[0]);
      StaysSaved(Next(s, steps[0]), steps[1..]);
    }
  }

  lemma {:induction false} StaysDoomed(s: Pipe, steps: seq<Step>)
    requires Doomed(s)
    ensures Doomed(Run(s, steps))
    decreases |steps|
  {
    hide Doomed;
    hide Next;
    if steps != [] {
      StepDooms(s, steps[0]);
      StaysDoomed(Next(s, steps[0]), steps[1..]);
    }
  }

  // ---------------------------------------------------------------- order

  /** Entries taken out or put back stand in one line with the queue: drained ones before it, those
      still to be put back behind it. */
  function Line(s: Pipe): seq<Entry> {
    match s.work
    case Draining(_, temp) => temp + s.queue
    case Refilling(_, temp, _) => s.queue + temp
    case _ => s.queue
  }

  /** The age of the entry in hand, or of the next one. */
  function HandAt(s: Pipe): nat {
    match s.work
    case Draining(e, _) => e.at
    case Refilling(e, _, _) => e.at
    case Retrying(e) => e.at
    case Blocking(e) => e.at
    case _ => |s.produced|
  }

  ghost predicate Strict(q: seq<Entry>) {
    forall i, j :: 0 <= i < j < |q| ==> Less(q[i], q[j])
  }

  ghost predicate Older(q: seq<Entry>, n: nat) {
    forall i :: 0 <= i < |q| ==> q[i].at < n
  }

  ghost predicate InLine(s: Pipe) {
    && Strict(Line(s)) && Older(Line(s), HandAt(s))
    && (if s.work.Ready? || s.work.Finished? then true else HandAt(s) < |s.produced|)
  }

  lemma InsertionIsStrict(q: seq<Entry>, e: Entry)
    requires Strict(q) && Older(q, e.at)
    ensures Strict(Inserted(q, e)) && forall n: nat :: e.at < n ==> Older(Inserted(q, e), n)
  {
    var n := Place(q, e);
    forall j | n <= j < |q|
      ensures Less(e, q[j])
    {
      assert j == n || Less(q[n], q[j]);
    }
  }

  /** What is larger than everything goes to the end. */
  lemma InsertionAtEnd(q: seq<Entry>, e: Entry)
    requires forall i :: 0 <= i < |q| ==> Less(q[i], e)
    ensures Inserted(q, e) == q + [e]
  {
  }

  lemma RemovalKeepsLine(q: seq<Entry>, i: nat, n: nat)
    requires i < |q| && Strict(q) && Older(q, n)
    ensures Strict(q[..i] + q[i + 1..]) && Older(q[..i] + q[i + 1..], n)
  {
    var r := q[..i] + q[i + 1..];
    forall k | 0 <= k < |r|
      ensures r[k] == q[if k < i then k else k + 1]
    {
    }
  }

  lemma OlderStill(q: seq<Entry>, m: nat, n: nat)
    requires Older(q, m) && m <= n
    ensures Older(q, n)
  {
  }

  lemma AdmissionKeepsLine(s: Pipe, e: Entry)
    requires Strict(s.queue) && Older(s.queue, e.at) && e.at < |s.produced|
    ensures InLine(Admitted(s, e)) && InLine(Refused(s, e))
  {
    InsertionIsStrict(s.queue, e);
    OlderStill(s.queue, e.at, |s.produced|);
    hide Inserted;
    hide Strict;
    hide Older;
  }

  lemma PutKeepsLine(s: Pipe, priority: int, sentinel: bool)
    requires InLine(s) && s.work.Ready?
    ensures InLine(Put(s, priority, sentinel))
  {
    hide Inserted;
    hide Strict;
    hide Older;
    var e := Entry(priority, |s.produced|, sentinel);
    AdmissionKeepsLine(s.(produced := s.produced + [e]), e);
    assert [] + s.queue == s.queue;
  }

  lemma DrainKeepsLine(s: Pipe)
    requires InLine(s) && s.work.Draining?
    ensures InLine(Worked(s))
  {
    hide Strict;
    hide Older;
    hide DropTarget;
    var e, temp := s.work.entry, s.work.temp;
    if s.queue != [] {
      assert temp + [s.queue[0]] + s.queue[1..] == temp + s.queue;
    } else {
      assert temp + [] == temp;
      assert forall rest: seq<Entry> :: [] + rest == rest;
      var i := Evictable(temp, e.priority);
      if i < |temp| {
        RemovalKeepsLine(temp, i, e.at);
      }
    }
  }

  lemma RefillKeepsLine(s: Pipe)
    requires InLine(s) && s.work.Refilling?
    ensures InLine(Worked(s))
  {
    hide Inserted;
    var e, temp := s.work.entry, s.work.temp;
    if temp != [] {
      forall i | 0 <= i < |s.queue|
        ensures Less(s.queue[i], temp[0])
      {
        assert (s.queue + temp)[i] == s.queue[i] && (s.queue + temp)[|s.queue|] == temp[0];
      }
      InsertionAtEnd(s.queue, temp[0]);
      assert s.queue + [temp[0]] + temp[1..] == s.queue + temp;
    } else {
      assert s.queue + temp == s.queue;
      AdmissionKeepsLine(s, e);
    }
    hide Strict;
    hide Older;
    hide Less;
  }

  lemma ConsumeKeepsLine(s: Pipe)
    requires InLine(s)
    ensures InLine(Next(s, Consume))
  {
    hide Strict;
    hide Older;
    if !s.over && s.queue != [] {
      var i := if s.work.Draining? then |s.work.temp| else 0;
      var l := Line(s);
      RemovalKeepsLine(l, i, HandAt(s));
      assert l[..i] + l[i + 1..] == Line(Next(s, Consume));
    }
  }

  lemma StepKeepsLine(s: Pipe, step: Step)
    requires InLine(s)
    ensures InLine(Next(s, step))
  {
    hide Put;
    hide Strict;
    hide Older;
    hide Admitted;
    hide Refused;
    match step {
      case Produce(priority) =>
        if s.work.Ready? { PutKeepsLine(s, priority, false); }
      case End =>
        if s.work.Ready? { PutKeepsLine(s, PRIORITY_LOW, true); }
      case Proc =>
        match s.work {
          case Draining(_, _) => DrainKeepsLine(s);
          case Refilling(_, _, _) => RefillKeepsLine(s);
          case Retrying(e) => AdmissionKeepsLine(s, e);
          case Blocking(e) => AdmissionKeepsLine(s, e);
          case _ =>
        }
      case TimeOut =>
        if s.work.Blocking? { AdmissionKeepsLine(s, s.work.entry); }
      case Consume => ConsumeKeepsLine(s);
    }
  }

  lemma {:induction false} RunKeepsLine(s: Pipe, steps: seq<Step>)
    requires InLine(s)
    ensures InLine(Run(s, steps))
    decreases |steps|
  {
    hide InLine;
    hide Next;
    if steps != [] {
      StepKeepsLine(s, steps[0]);
      RunKeepsLine(Next(s, steps[0]), steps[1..]);
    }
  }

  /** In every run a delivery takes an entry that no other queued entry precedes, by priority and then
      by age. What an eviction holds at that moment is not queued. */
  lemma DeliveryIsLeastQueued(maxsize: nat, steps: seq<Step>)
    ensures var s := Run(Open(maxsize), steps);
      !s.over && s.queue != [] ==>
        Next(s, Consume).delivered == s.delivered + [s.queue[0]]
        && forall i :: 0 < i < |s.queue| ==> Less(s.queue[0], s.queue[i])
  {
    RunKeepsLine(Open(maxsize), steps);
    hide Run;
    var s := Run(Open(maxsize), steps);
    if s.queue != [] {
      HeadOfLine(s);
    }
  }

  /** Where the head of the queue stands in the line. */
  lemma HeadOfLine(s: Pipe)
    requires InLine(s) && s.queue != []
    ensures forall i :: 0 < i < |s.queue| ==> Less(s.queue[0], s.queue[i])
    ensures s.work.Refilling? ==> forall i :: 0 <= i < |s.work.temp| ==> Less(s.queue[0], s.work.temp[i])
    ensures s.work.Draining? ==> forall i :: 0 <= i < |s.work.temp| ==> Less(s.work.temp[i], s.queue[0])
    ensures s.queue[0].at < HandAt(s)
  {
    var l := Line(s);
    match s.work {
      case Draining(_, temp) =>
        assert forall i :: 0 <= i < |s.queue| ==> l[|temp| + i] == s.queue[i];
        assert forall i :: 0 <= i < |temp| ==> l[i] == temp[i];
      case Refilling(_, temp, _) =>
        assert forall i :: 0 <= i < |temp| ==> l[|s.queue| + i] == temp[i];
        assert forall i :: 0 <= i < |s.queue| ==> l[i] == s.queue[i];
      case _ =>
    }
  }

  // ---------------------------------------------------------------- age order

  /** Some entry of the same priority is older and still queued or in the processor's hands. */
  ghost predicate Overtaken(s: Pipe, x: Entry) {
    || (exists i :: 0 <= i < |s.queue| && Elder(s.queue[i], x))
    || (exists i :: 0 <= i < |Held(s.work)| && Elder(Held(s.work)[i], x))
  }

  predicate Elder(y: Entry, x: Entry) {
    y.priority == x.priority && y.at < x.at
  }

  /** The processor is taking entries out and already holds one of this priority. */
  ghost predicate HoldsPeer(s: Pipe, x: Entry) {
    s.work.Draining? && exists i :: 0 <= i < |s.work.temp| && s.work.temp[i].priority == x.priority
  }

  /** Exactly when a delivery is out of age order within its priority: in the middle of a drain that
      has already taken out an entry of that priority. */
  lemma OutOfOrderExactlyWhen(maxsize: nat, steps: seq<Step>)
    ensures var s := Run(Open(maxsize), steps);
      s.queue != [] ==> (Overtaken(s, s.queue[0]) <==> HoldsPeer(s, s.queue[0]))
  {
    RunKeepsLine(Open(maxsize), steps);
    if Run(Open(maxsize), steps).queue != [] {
      PeersExplainOvertaking(Run(Open(maxsize), steps));
    }
  }

  lemma PeersExplainOvertaking(s: Pipe)
    requires InLine(s) && s.queue != []
    ensures Overtaken(s, s.queue[0]) <==> HoldsPeer(s, s.queue[0])
  {
    HeadOfLine(s);
    hide InLine;
    var x := s.queue[0];
    if HoldsPeer(s, x) {
      var i :| 0 <= i < |s.work.temp| && s.work.temp[i].priority == x.priority;
      assert Held(s.work)[i + 1] == s.work.temp[i] && Elder(Held(s.work)[i + 1], x);
    }
  }

  /** The consumer never takes an entry whose peer is being drained. */
  ghost predicate Patient(s: Pipe, steps: seq<Step>)
    decreases |steps|
  {
    steps != [] ==>
      && (steps[0].Consume? && !s.over && s.queue != [] ==> !HoldsPeer(s, s.queue[0]))
      && Patient(Next(s, steps[0]), steps[1..])
  }

  /** Within each priority: deliveries so far in age order, and older than everything in line. */
  ghost predicate Aged(s: Pipe) {
    && (forall i, j :: 0 <= i < j < |s.delivered| && s.delivered[i].priority == s.delivered[j].priority ==>
          s.delivered[i].at < s.delivered[j].at)
    && (forall i, k :: 0 <= i < |s.delivered| && 0 <= k < |Line(s)|
                       && s.delivered[i].priority == Line(s)[k].priority ==>
          s.delivered[i].at < Line(s)[k].at)
    && Older(s.delivered, HandAt(s))
  }

  /** Everything in line afterwards was in line before, or is the entry in hand. */
  ghost predicate LineFrom(s: Pipe, t: Pipe) {
    forall k :: 0 <= k < |Line(t)| ==>
      Line(t)[k].at == HandAt(s) || exists m :: 0 <= m < |Line(s)| && Line(s)[m] == Line(t)[k]
  }

  lemma {:induction false} InsertedFrom(q: seq<Entry>, e: Entry, k: nat)
    requires k <= |q|
    ensures Inserted(q, e)[k] == e || exists m :: 0 <= m < |q| && q[m] == Inserted(q, e)[k]
  {
    var n := Place(q, e);
    if k < n {
      assert Inserted(q, e)[k] == q[k];
    } else if k > n {
      assert Inserted(q, e)[k] == q[k - 1];
    }
  }

  lemma AdmittedFrom(s: Pipe, base: Pipe, e: Entry)
    requires s.queue == Line(base) && e.at == HandAt(base)
    ensures LineFrom(base, Admitted(s, e)) && LineFrom(base, Refused(s, e))
  {
    forall k | 0 <= k < |Inserted(s.queue, e)|
      ensures Inserted(s.queue, e)[k].at == HandAt(base)
           || exists m :: 0 <= m < |Line(base)| && Line(base)[m] == Inserted(s.queue, e)[k]
    {
      InsertedFrom(s.queue, e, k);
    }
    hide Inserted;
  }

  lemma DrainLineFrom(s: Pipe)
    requires s.work.Draining?
    ensures LineFrom(s, Worked(s))
  {
    hide Evictable;
    var e, temp := s.work.entry, s.work.temp;
    if s.queue != [] {
      assert Line(Worked(s)) == Line(s);
      SameLineFrom(s, Worked(s));
    } else {
      var i := Evictable(temp, e.priority);
      assert Line(s) == temp;
      if i < |temp| {
        assert Line(Worked(s)) == temp[..i] + temp[i + 1..];
        RemovedLineFrom(s, Worked(s), i);
      } else {
        assert Line(Worked(s)) == temp;
        SameLineFrom(s, Worked(s));
      }
    }
  }

  lemma SameLineFrom(s: Pipe, t: Pipe)
    requires Line(s) == Line(t)
    ensures LineFrom(s, t)
  {
  }

  lemma RemovedLineFrom(s: Pipe, t: Pipe, i: nat)
    requires i < |Line(s)| && Line(t) == Line(s)[..i] + Line(s)[i + 1..]
    ensures LineFrom(s, t)
  {
    hide Line;
    assert forall k :: 0 <= k < |Line(t)| ==> Line(t)[k] == Line(s)[if k < i then k else k + 1];
  }

  lemma ProcLineFrom(s: Pipe)
    requires InLine(s)
    ensures LineFrom(s, Worked(s)) && HandAt(s) <= HandAt(Worked(s)) && Worked(s).delivered == s.delivered
  {
    hide Inserted;
    hide Evictable;
    match s.work {
      case Draining(_, _) =>
        DrainLineFrom(s);
        hide LineFrom;
      case Refilling(e, temp, _) =>
        if temp != [] {
          RefillSameLine(s);
          SameLineFrom(s, Worked(s));
        } else {
          assert s.queue + temp == s.queue;
          AdmittedFrom(s, s, e);
        }
        hide LineFrom;
      case Retrying(e) => AdmittedFrom(s, s, e);
      case Blocking(e) => AdmittedFrom(s, s, e);
      case _ =>
    }
  }

  lemma RefillSameLine(s: Pipe)
    requires InLine(s) && s.work.Refilling? && s.work.temp != []
    ensures Line(Worked(s)) == Line(s)
  {
    hide Inserted;
    var temp := s.work.temp;
    forall i | 0 <= i < |s.queue|
      ensures Less(s.queue[i], temp[0])
    {
      assert Line(s)[i] == s.queue[i] && Line(s)[|s.queue|] == temp[0];
    }
    InsertionAtEnd(s.queue, temp[0]);
    assert s.queue + [temp[0]] + temp[1..] == s.queue + temp;
  }

  lemma AgedFrom(s: Pipe, t: Pipe)
    requires Aged(s) && LineFrom(s, t) && t.delivered == s.delivered && HandAt(s) <= HandAt(t)
    ensures Aged(t)
  {
    hide Line;
    hide HandAt;
  }

  lemma ConsumeAges(s: Pipe)
    requires InLine(s) && Aged(s) && !s.over && s.queue != [] && !HoldsPeer(s, s.queue[0])
    ensures Aged(Next(s, Consume))
  {
    var t, x := Next(s, Consume), s.queue[0];
    HeadOfLine(s);
    var i := if s.work.Draining? then |s.work.temp| else 0;
    assert Line(s)[i] == x;
    forall k | 0 <= k < |Line(t)|
      ensures Line(t)[k] == Line(s)[if k < i then k else k + 1]
      ensures Line(t)[k].priority == x.priority ==> x.at < Line(t)[k].at
    {
      if s.work.Draining? && k < i {
        assert Line(t)[k] == s.work.temp[k];
      }
    }
  }

  lemma StepAges(s: Pipe, step: Step)
    requires InLine(s) && Aged(s)
    requires step.Consume? && !s.over && s.queue != [] ==> !HoldsPeer(s, s.queue[0])
    ensures Aged(Next(s, step))
  {
    hide InLine;
    hide HoldsPeer;
    hide Worked;
    hide Aged;
    hide Admitted;
    match step {
      case Produce(priority) =>
        PutLineFrom(s, priority, false);
        AgedFrom(s, Next(s, step));
      case End =>
        PutLineFrom(s, PRIORITY_LOW, true);
        AgedFrom(s, Next(s, step));
      case Proc =>
        ProcLineFrom(s);
        AgedFrom(s, Worked(s));
      case TimeOut =>
        if s.work.Blocking? {
          AdmittedFrom(s, s, s.work.entry);
          HandStays(s);
          AgedFrom(s, Refused(s, s.work.entry));
        }
      case Consume =>
        if !s.over && s.queue != [] {
          ConsumeAges(s);
        }
    }
  }

  lemma HandStays(s: Pipe)
    requires InLine(s) && s.work.Blocking?
    ensures HandAt(s) <= HandAt(Refused(s, s.work.entry))
  {
  }

  lemma PutLineFrom(s: Pipe, priority: int, sentinel: bool)
    ensures var t := if s.work.Ready? then Put(s, priority, sentinel) else s;
      LineFrom(s, t) && t.delivered == s.delivered && HandAt(s) <= HandAt(t)
  {
    if s.work.Ready? {
      var e := Entry(priority, |s.produced|, sentinel);
      AdmittedFrom(s.(produced := s.produced + [e]), s, e);
      hide Inserted;
      assert [] + s.queue == s.queue;
    }
  }

  lemma {:induction false} PatienceAges(s: Pipe, steps: seq<Step>)
    requires InLine(s) && Aged(s) && Patient(s, steps)
    ensures Aged(Run(s, steps))
    decreases |steps|
  {
    hide InLine;
    hide Aged;
    hide Next;
    hide HoldsPeer;
    if steps != [] {
      StepKeepsLine(s, steps[0]);
      StepAges(s, steps[0]);
      PatienceAges(Next(s, steps[0]), steps[1..]);
    }
  }

  /** A consumer that never takes an entry while a peer is being drained receives each priority in
      the order in which it was produced. */
  lemma PatientConsumersKeepOrder(maxsize: nat, steps: seq<Step>)
    requires Patient(Open(maxsize), steps)
    ensures var d := Run(Open(maxsize), steps).delivered;
      forall i, j :: 0 <= i < j < |d| && d[i].priority == d[j].priority ==> d[i].at < d[j].at
  {
    PatienceAges(Open(maxsize), steps);
  }

  /** A run from the start that is not: two entries of one priority, the later one delivered first. */
  lemma EvictionCanReorder()
    ensures Run(Open(2), [Produce(0), Produce(0), Produce(2), Proc, Consume, Proc, Proc, Consume]).delivered
         == [Entry(0, 1, false), Entry(0, 0, false)]
  {
    var s := FullOfPeers();
    hide Next;
    var head, tail := [Produce(0), Produce(0), Produce(2)], [Proc, Consume, Proc, Proc, Consume];
    RunOn(Open(2), head, tail);
    assert head + tail == [Produce(0), Produce(0), Produce(2), Proc, Consume, Proc, Proc, Consume];
    ReorderFrom(s, Entry(0, 0, false), Entry(0, 1, false));
    assert [] + [Entry(0, 1, false), Entry(0, 0, false)] == [Entry(0, 1, false), Entry(0, 0, false)];
  }

  lemma FullOfPeers() returns (s: Pipe)
    ensures s == Run(Open(2), [Produce(0), Produce(0), Produce(2)])
    ensures s.queue == [Entry(0, 0, false), Entry(0, 1, false)] && s.work == Draining(Entry(2, 2, false), [])
    ensures s.delivered == [] && s.maxsize == 2 && !s.over
  {
    var s1 := Next(Open(2), Produce(0));
    assert s1.queue == [Entry(0, 0, false)];
    var s2 := Next(s1, Produce(0));
    assert s2.queue == [Entry(0, 0, false), Entry(0, 1, false)];
    s := Next(s2, Produce(2));
    ThreeSteps(Open(2), Produce(0), Produce(0), Produce(2));
  }

  lemma ThreeSteps(s: Pipe, x: Step, y: Step, z: Step)
    ensures Run(s, [x, y, z]) == Next(Next(Next(s, x), y), z)
  {
    hide Next;
    RunMore(s, [], x);
    RunMore(s, [x], y);
    RunMore(s, [x, y], z);
    assert [] + [x] == [x] && [x] + [y] == [x, y] && [x, y] + [z] == [x, y, z];
  }

  lemma {:induction false} RunOn(s: Pipe, a: seq<Step>, b: seq<Step>)
    ensures Run(s, a + b) == Run(Run(s, a), b)
    decreases |a|
  {
    hide Next;
    if a == [] {
      assert a + b == b;
    } else {
      assert (a + b)[1..] == a[1..] + b;
      RunOn(Next(s, a[0]), a[1..], b);
    }
  }

  lemma ReorderFrom(s: Pipe, a: Entry, b: Entry)
    requires s.work.Draining? && s.work.temp == [] && s.work.entry.priority > PRIORITY_HIGH
    requires s.queue == [a, b] && a.priority == b.priority <= PRIORITY_HIGH && !b.sentinel
    requires s.maxsize == 2 && !s.over
    ensures Run(s, [Proc, Consume, Proc, Proc, Consume]).delivered == s.delivered + [b, a]
  {
    hide Next;
    FiveSteps(s, [Proc, Consume, Proc, Proc, Consume]);
    var s2 := ConsumedMidway(s, a, b);
    PutBackLate(s2, s.work.entry, a);
    assert s.delivered + [b] + [a] == s.delivered + [b, a];
  }

  lemma ConsumedMidway(s: Pipe, a: Entry, b: Entry) returns (s2: Pipe)
    requires s.work.Draining? && s.work.temp == [] && s.queue == [a, b] && !b.sentinel && !s.over
    ensures s2 == Next(Next(s, Proc), Consume)
    ensures s2.queue == [] && s2.work == Draining(s.work.entry, [a]) && s2.delivered == s.delivered + [b]
    ensures !s2.over && s2.maxsize == s.maxsize
  {
    s2 := Next(Next(s, Proc), Consume);
    assert [a, b][1..] == [b] && [] + [a] == [a];
  }

  lemma PutBackLate(s: Pipe, e: Entry, a: Entry)
    requires s.work == Draining(e, [a]) && s.queue == [] && !s.over && s.maxsize == 2
    requires a.priority <= PRIORITY_HIGH < e.priority
    ensures Next(Next(Next(s, Proc), Proc), Consume).delivered == s.delivered + [a]
  {
    assert Next(s, Proc).work == Refilling(e, [a], false);
    hide Evictable;
    assert Next(Next(s, Proc), Proc).queue == [a];
  }

  lemma FiveSteps(s: Pipe, t: seq<Step>)
    requires |t| == 5
    ensures Run(s, t) == Next(Next(Next(Next(Next(s, t[0]), t[1]), t[2]), t[3]), t[4])
  {
    hide Next;
    RunMore(s, [], t[0]);
    RunMore(s, [t[0]], t[1]);
    RunMore(s, [t[0], t[1]], t[2]);
    RunMore(s, [t[0], t[1], t[2]], t[3]);
    RunMore(s, [t[0], t[1], t[2], t[3]], t[4]);
    assert [] + [t[0]] == [t[0]] && [t[0]] + [t[1]] == [t[0], t[1]] && [t[0], t[1]] + [t[2]] == [t[0], t[1], t[2]];
    assert [t[0], t[1], t[2]] + [t[3]] == [t[0], t[1], t[2], t[3]];
    assert [t[0], t[1], t[2], t[3]] + [t[4]] == t;
  }

  // ---------------------------------------------------------------- runs that lose the sentinel

  /** In a queue of one that holds a chunk of high priority, the end of the stream is lost: whatever
      happens after, the consumer never meets it. */
  lemma EndIsLost(steps: seq<Step>)
    ensures Doomed(Run(Open(1), [Produce(0), End, Proc, Proc] + steps))
    ensures !Run(Open(1), [Produce(0), End, Proc, Proc] + steps).over
  {
    var s := EndMeetsFullQueue();
    hide Next;
    hide Doomed;
    SentinelLostExactlyWhen(s, steps);
    RunMore(Open(1), [Produce(0), End, Proc], Proc);
    assert [Produce(0), End, Proc] + [Proc] == [Produce(0), End, Proc, Proc];
    RunOn(Open(1), [Produce(0), End, Proc, Proc], steps);
    NotOver(Run(Next(s, Proc), steps));
  }

  lemma NotOver(s: Pipe)
    ensures Doomed(s) ==> !s.over
  {
  }

  lemma EndMeetsFullQueue() returns (s: Pipe)
    ensures s == Run(Open(1), [Produce(0), End, Proc])
    ensures s.work == Draining(Entry(PRIORITY_LOW, 1, true), [Entry(0, 0, false)])
    ensures s.queue == [] && !s.over && Fits(s)
  {
    var s1 := Next(Open(1), Produce(0));
    assert s1.queue == [Entry(0, 0, false)];
    var s2 := Next(s1, End);
    s := Next(s2, Proc);
    assert [Entry(0, 0, false)][1..] == [] && [] + [Entry(0, 0, false)] == [Entry(0, 0, false)];
    ThreeSteps(Open(1), Produce(0), End, Proc);
  }

  /** It may be lost although there is room: the consumer empties the queue before the eviction looks,
      which finds nothing to drop and gives the sentinel up. */
  lemma EndIsLostWithRoom()
    ensures var s := Run(Open(1), [Produce(0), End, Consume, Proc, Proc]);
      && s.queue == [] && s.work.Finished? && !s.over
      && s.delivered == [Entry(0, 0, false)] && s.refused == [Entry(PRIORITY_LOW, 1, true)]
  {
    var s1 := Next(Open(1), Produce(0));
    assert s1.queue == [Entry(0, 0, false)];
    var s2 := Next(s1, End);
    var s3 := Next(s2, Consume);
    assert [Entry(0, 0, false)][1..] == [] && [] + [Entry(0, 0, false)] == [Entry(0, 0, false)];
    assert Next(s3, Proc).work == Refilling(Entry(PRIORITY_LOW, 1, true), [], false);
    FiveSteps(Open(1), [Produce(0), End, Consume, Proc, Proc]);
  }
}
