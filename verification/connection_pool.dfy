/** The pool of daemon connections, one active per session (`appkit/pool.py`). Each step is what one
    holder of the lock does; any interleaving of acquire, release and stop is a sequence of them. An
    acquire that takes a slot connects outside the lock, and its success or failure is a later step. */
module ConnectionPools {

  datatype Pool = Pool(
    size: nat,
    idle: seq<nat>,                // slot ids, the next one handed out last
    active: map<string, nat>,
    nextSlot: nat)

  datatype Answer = Reused(slot: nat) | Taken(slot: nat) | Exhausted

  /** An acquire that was handed a slot and is connecting it. */
  datatype Attempt = Attempt(session: string, slot: nat)

  /** The pool and the acquires in progress, each under the number it started with. */
  datatype System = System(pool: Pool, connecting: map<nat, Attempt>, started: nat)

  /** `unusable`: the session's slot is disconnected or was idle for too long. */
  datatype Step =
    | Acquire(session: string, unusable: bool)
    | Connected(attempt: nat)
    | Failed(attempt: nat)
    | Release(session: string)
    | Stop

  function Filled(n: nat): seq<nat> { seq(n, i => i + 1) }

  function Open(size: nat): Pool {
    Pool(size, Filled(size), map[], size + 1)
  }

  /** `_release_unlocked`: the slot is replaced by a fresh one. */
  function Released(p: Pool, session: string): Pool {
    if session !in p.active then p
    else p.(active := p.active - {session}, idle := p.idle + [p.nextSlot], nextSlot := p.nextSlot + 1)
  }

  /** The locked part of `acquire`. */
  function Acquired(p: Pool, session: string, unusable: bool): (Pool, Answer) {
    if session in p.active && !unusable then (p, Reused(p.active[session]))
    else
      var q := Released(p, session);
      var n := |q.idle| - 1;
      if n < 0 then (q, Exhausted)
      else (q.(idle := q.idle[..n], active := q.active[session := q.idle[n]]), Taken(q.idle[n]))
  }

  /** `stop`, session after session. */
  function Stopped(p: Pool): Pool {
    Pool(p.size, p.idle + seq(|p.active|, i => p.nextSlot + i), map[], p.nextSlot + |p.active|)
  }

  function Start(size: nat): System {
    System(Open(size), map[], 0)
  }

  function Next(s: System, step: Step): System {
    match step
    case Acquire(session, unusable) =>
      var (pool, answer) := Acquired(s.pool, session, unusable);
      if answer.Taken? then
        System(pool, s.connecting[s.started := Attempt(session, answer.slot)], s.started + 1)
      else s.(pool := pool)
    case Connected(attempt) => s.(connecting := s.connecting - {attempt})
    case Failed(attempt) =>
      if attempt in s.connecting then
        s.(pool := Released(s.pool, s.connecting[attempt].session), connecting := s.connecting - {attempt})
      else s
    case Release(session) => s.(pool := Released(s.pool, session))
    case Stop => s.(pool := Stopped(s.pool))
  }

  function Run(s: System, steps: seq<Step>): System
    decreases |steps|
  {
    if steps == [] then s else Run(Next(s, steps[0]), steps[1..])
  }

  class ConnectionPool {
    const size: nat
    var idle: seq<nat>
    var active: map<string, nat>
    var nextSlotId: nat
    ghost var connecting: map<nat, Attempt>
    ghost var started: nat

    ghost function State(): System
      reads this
    {
      System(Value(), connecting, started)
    }

    ghost function Value(): Pool
      reads this
    {
      Pool(size, idle, active, nextSlotId)
    }

    constructor (size: nat)
      ensures State() == Start(size)
    {
      this.size := size;
      idle, active, nextSlotId := [], map[], 1;
      connecting, started := map[], 0;
      new;
      var i := 0;
      while i < size
        invariant i <= size && idle == Filled(i) && nextSlotId == i + 1 && active == map[]
        invariant connecting == map[] && started == 0
      {
        idle, nextSlotId := idle + [nextSlotId], nextSlotId + 1;
        i := i + 1;
      }
    }

    method ReleaseUnlocked(session: string)
      modifies this`active, this`idle, this`nextSlotId
      ensures Value() == Released(old(Value()), session)
    {
      if session !in active {
        return;
      }
      active := active - {session};
      idle, nextSlotId := idle + [nextSlotId], nextSlotId + 1;
    }

    /** The locked part of `acquire`. */
    method Acquire(session: string, unusable: bool) returns (answer: Answer, ghost attempt: nat)
      modifies this
      ensures (Value(), answer) == Acquired(old(Value()), session, unusable)
      ensures State() == Next(old(State()), Step.Acquire(session, unusable))
      ensures answer.Taken? ==> attempt in connecting && connecting[attempt] == Attempt(session, answer.slot)
    {
      attempt := started;
      if session in active {
        if !unusable {
          return Reused(active[session]), attempt;
        }
        ReleaseUnlocked(session);
      }
      if idle == [] {
        return Exhausted, attempt;
      }
      var slot := idle[|idle| - 1];
      idle := idle[..|idle| - 1];
      active := active[session := slot];
      answer := Taken(slot);
      connecting, started := connecting[attempt := Attempt(session, slot)], started + 1;
    }

    /** The rest of `acquire`: a slot that does not connect is released, by session. */
    method Settle(session: string, connects: bool, ghost attempt: nat)
      requires attempt in connecting && connecting[attempt].session == session
      modifies this
      ensures State() == Next(old(State()), if connects then Connected(attempt) else Failed(attempt))
    {
      if !connects {
        ReleaseUnlocked(session);
      }
      connecting := connecting - {attempt};
    }

    /** `stop`. */
    method StopAll()
      modifies this`active, this`idle, this`nextSlotId
      ensures Value() == Stopped(old(Value()))
    {
      var left := active.Keys;
      ghost var n := 0;
      while left != {}
        invariant left == active.Keys && n + |active| == |old(active)|
        invariant idle == old(idle) + seq(n, i => old(nextSlotId) + i) && nextSlotId == old(nextSlotId) + n
        decreases |left|
      {
        var session :| session in left;
        KeysCount(active, session);
        ReleaseUnlocked(session);
        left := left - {session};
        n := n + 1;
      }
      assert active == map[];
    }
  }

  lemma KeysCount(m: map<string, nat>, k: string)
    requires k in m
    ensures |m - {k}| == |m| - 1 && (m - {k}).Keys == m.Keys - {k}
  {
    assert (m - {k}).Keys == m.Keys - {k};
    assert |(m - {k}).Keys| == |m - {k}| && |m.Keys| == |m|;
  }

  // ---------------------------------------------------------------- conservation

  ghost predicate Distinct(idle: seq<nat>) {
    forall i, j :: 0 <= i < j < |idle| ==> idle[i] != idle[j]
  }

  /** Idle and active slots make up the pool, and no slot id is in two places. */
  ghost predicate Ok(p: Pool) {
    && |p.idle| + |p.active| == p.size
    && Distinct(p.idle)
    && (forall a, b :: a in p.active && b in p.active && p.active[a] == p.active[b] ==> a == b)
    && (forall i, a :: 0 <= i < |p.idle| && a in p.active ==> p.idle[i] != p.active[a])
    && (forall i :: 0 <= i < |p.idle| ==> p.idle[i] < p.nextSlot)
    && (forall a :: a in p.active ==> p.active[a] < p.nextSlot)
  }

  lemma ReleaseIsOk(p: Pool, session: string)
    requires Ok(p)
    ensures Ok(Released(p, session))
    ensures session in p.active ==> |Released(p, session).idle| > 0
  {
  }

  /** The last idle slot goes to a session that holds none. */
  function TookSlot(p: Pool, session: string): Pool
    requires p.idle != []
  {
    var n := |p.idle| - 1;
    p.(idle := p.idle[..n], active := p.active[session := p.idle[n]])
  }

  lemma TakeIsOk(p: Pool, session: string)
    requires Ok(p) && session !in p.active && p.idle != []
    ensures Ok(TookSlot(p, session))
  {
  }

  lemma AcquireIsOk(p: Pool, session: string, unusable: bool)
    requires Ok(p)
    ensures Ok(Acquired(p, session, unusable).0)
    ensures Acquired(p, session, unusable).1.Exhausted? <==> session !in p.active && |p.active| == p.size
  {
    ReleaseIsOk(p, session);
    var q := Released(p, session);
    if !(session in p.active && !unusable) && q.idle != [] {
      TakeIsOk(q, session);
    }
    hide Distinct;
    Sizes(p);
    hide Ok;
  }

  lemma Sizes(p: Pool)
    requires Ok(p)
    ensures |p.idle| + |p.active| == p.size
  {
  }

  lemma StopIsOk(p: Pool)
    requires Ok(p)
    ensures Ok(Stopped(p)) && |Stopped(p).idle| == p.size
  {
  }

  lemma StepIsOk(s: System, step: Step)
    requires Ok(s.pool)
    ensures Ok(Next(s, step).pool) && Next(s, step).pool.size == s.pool.size
  {
    match step {
      case Acquire(session, unusable) => AcquireIsOk(s.pool, session, unusable);
      case Failed(attempt) =>
        if attempt in s.connecting {
          ReleaseIsOk(s.pool, s.connecting[attempt].session);
        }
      case Release(session) => ReleaseIsOk(s.pool, session);
      case Stop => StopIsOk(s.pool);
      case _ =>
    }
    hide Ok;
  }

  lemma {:induction false} RunIsOk(s: System, steps: seq<Step>)
    requires Ok(s.pool)
    ensures Ok(Run(s, steps).pool) && Run(s, steps).pool.size == s.pool.size
    decreases |steps|
  {
    hide Ok;
    hide Next;
    if steps != [] {
      StepIsOk(s, steps[0]);
      RunIsOk(Next(s, steps[0]), steps[1..]);
    }
  }

  /** In every interleaving of acquires, their connections, releases and stops, at each release of the
      lock: idle and active slots make up the pool and no slot id is in two places. The next acquire
      fails for want of a slot exactly when the session holds none and others hold every one. */
  lemma EveryPoolRun(size: nat, steps: seq<Step>, session: string, unusable: bool)
    ensures var p := Run(Start(size), steps).pool;
      && Ok(p) && p.size == size
      && (Acquired(p, session, unusable).1.Exhausted? <==> session !in p.active && |p.active| == size)
  {
    assert Ok(Open(size));
    RunIsOk(Start(size), steps);
    hide Ok;
    hide Acquired;
    AcquireIsOk(Run(Start(size), steps).pool, session, unusable);
  }

  // ---------------------------------------------------------------- failing to connect

  /** Slots that were active and no longer are. */
  ghost function Withdrawn(p: Pool, q: Pool): set<nat> {
    p.active.Values - q.active.Values
  }

  /** A failing acquire withdraws whatever slot its session holds at that moment: its own exactly
      when that is still the session's active slot, none when the session was released meanwhile. */
  lemma FailureWithdrawsOwnExactlyWhen(s: System, attempt: nat)
    requires Ok(s.pool) && attempt in s.connecting
    ensures var a := s.connecting[attempt];
      var gone := Withdrawn(s.pool, Next(s, Failed(attempt)).pool);
      && (gone == {a.slot} <==> a.session in s.pool.active && s.pool.active[a.session] == a.slot)
      && (gone == {} <==> a.session !in s.pool.active)
  {
    var p, a := s.pool, s.connecting[attempt];
    if a.session in p.active {
      var q := Released(p, a.session);
      var slot := p.active[a.session];
      assert slot in p.active.Values;
      forall x
        ensures x in Withdrawn(p, q) <==> x == slot
      {
        if x in p.active.Values {
          var k :| k in p.active && p.active[k] == x;
          assert k != a.session ==> k in q.active && q.active[k] == x;
        }
      }
      assert Withdrawn(p, q) == {slot};
    }
  }

  /** No acquire starts for a session while another of that session is connecting. */
  ghost predicate Apart(s: System, steps: seq<Step>)
    decreases |steps|
  {
    steps != [] ==>
      && (steps[0].Acquire? ==> forall t :: t in s.connecting ==> s.connecting[t].session != steps[0].session)
      && Apart(Next(s, steps[0]), steps[1..])
  }

  /** A session that is connecting holds the slot of its attempt, or was released. */
  ghost predicate OwnSlots(s: System) {
    forall t :: t in s.connecting && s.connecting[t].session in s.pool.active ==>
      s.pool.active[s.connecting[t].session] == s.connecting[t].slot
  }

  lemma StepKeepsOwn(s: System, step: Step)
    requires OwnSlots(s)
    requires step.Acquire? ==> forall t :: t in s.connecting ==> s.connecting[t].session != step.session
    ensures OwnSlots(Next(s, step))
  {
  }

  lemma {:induction false} ApartKeepsOwn(s: System, steps: seq<Step>)
    requires OwnSlots(s) && Apart(s, steps)
    ensures OwnSlots(Run(s, steps))
    decreases |steps|
  {
    hide OwnSlots;
    hide Next;
    if steps != [] {
      StepKeepsOwn(s, steps[0]);
      ApartKeepsOwn(Next(s, steps[0]), steps[1..]);
    }
  }

  /** In every run without overlapping acquires of one session, an attempt that fails withdraws its
      own slot or, if the session was released meanwhile, none; and one that succeeds hands out the
      session's active slot, unless it was released. */
  lemma ApartAttemptsKeepToTheirSlot(size: nat, steps: seq<Step>, attempt: nat)
    requires Apart(Start(size), steps) && attempt in Run(Start(size), steps).connecting
    ensures var s := Run(Start(size), steps);
      var a := s.connecting[attempt];
      && Withdrawn(s.pool, Next(s, Failed(attempt)).pool) == (if a.session in s.pool.active then {a.slot} else {})
      && (a.session in s.pool.active ==> s.pool.active[a.session] == a.slot)
  {
    assert Ok(Open(size));
    RunIsOk(Start(size), steps);
    ApartKeepsOwn(Start(size), steps);
    hide Ok;
    FailureWithdrawsOwnExactlyWhen(Run(Start(size), steps), attempt);
  }

  lemma {:induction false} AttemptsAreNumbered(s: System, steps: seq<Step>)
    requires forall t :: t in s.connecting ==> t < s.started
    ensures forall t :: t in Run(s, steps).connecting ==> t < Run(s, steps).started
    decreases |steps|
  {
    if steps != [] {
      AttemptsAreNumbered(Next(s, steps[0]), steps[1..]);
    }
  }

  /** Two acquires of a session, the second finding the slot unusable while the first is connecting:
      each is handed a slot of its own; when the first fails, the second loses its slot. */
  ghost predicate ShareFate(s: System, session: string) {
    var first, second := s.started, s.started + 1;
    var both := Next(Next(s, Acquire(session, false)), Acquire(session, true));
    var after := Next(both, Failed(first));
    && first in both.connecting && second in both.connecting && session in both.pool.active
    && both.pool.active[session] == both.connecting[second].slot != both.connecting[first].slot
    && second in after.connecting && session !in after.pool.active
  }

  /** Overlapping ones do not, whatever came before. */
  lemma OverlappingAcquiresShareFate(size: nat, steps: seq<Step>, session: string)
    requires session !in Run(Start(size), steps).pool.active && Run(Start(size), steps).pool.idle != []
    ensures ShareFate(Run(Start(size), steps), session)
  {
    hide ShareFate;
    assert Ok(Open(size));
    RunIsOk(Start(size), steps);
    AttemptsAreNumbered(Start(size), steps);
    FatesAreShared(Run(Start(size), steps), session);
  }

  lemma FatesAreShared(s: System, session: string)
    requires Ok(s.pool) && session !in s.pool.active && s.pool.idle != []
    requires forall t :: t in s.connecting ==> t < s.started
    ensures ShareFate(s, session)
  {
  }

  // ---------------------------------------------------------------- who gets which slot

  /** A usable slot is handed out again and nothing changes; an unusable one is replaced by a fresh one; a
      session without a slot gets the idle one that came last; other sessions keep theirs. */
  lemma HandsOutExactly(p: Pool, session: string, unusable: bool)
    ensures var (q, answer) := Acquired(p, session, unusable);
      && (session in p.active && !unusable ==> answer == Reused(p.active[session]) && q == p)
      && (session in p.active && unusable ==>
            && answer == Taken(p.nextSlot) && q.nextSlot == p.nextSlot + 1 && q.idle == p.idle
            && q.active == p.active[session := p.nextSlot])
      && (session !in p.active && p.idle != [] ==>
            && answer == Taken(p.idle[|p.idle| - 1]) && q.idle == p.idle[..|p.idle| - 1] && q.nextSlot == p.nextSlot
            && q.active == p.active[session := p.idle[|p.idle| - 1]])
      && (session !in p.active && p.idle == [] ==> answer == Exhausted && q == p)
  {
  }

  /** A release puts a fresh slot behind the idle ones and takes the session's from it; a session without
      one is left alone. */
  lemma ReleasesExactly(p: Pool, session: string)
    ensures var q := Released(p, session);
      && q.active == p.active - {session}
      && q.idle == (if session in p.active then p.idle + [p.nextSlot] else p.idle)
      && q.nextSlot == (if session in p.active then p.nextSlot + 1 else p.nextSlot)
  {
    assert session !in p.active ==> p.active - {session} == p.active;
  }

  /** A step that may take the slot from the session: its release, the stop of the pool, the failure of one
      of its acquires, or an acquire that finds the slot unusable. */
  predicate Disturbs(s: System, step: Step, session: string) {
    match step
    case Acquire(who, unusable) => who == session && unusable
    case Connected(_) => false
    case Failed(attempt) => attempt in s.connecting && s.connecting[attempt].session == session
    case Release(who) => who == session
    case Stop => true
  }

  ghost predicate Undisturbed(s: System, steps: seq<Step>, session: string)
    decreases |steps|
  {
    steps != [] ==> !Disturbs(s, steps[0], session) && Undisturbed(Next(s, steps[0]), steps[1..], session)
  }

  lemma StepLeavesSlot(s: System, step: Step, session: string)
    requires session in s.pool.active && !Disturbs(s, step, session)
    ensures session in Next(s, step).pool.active && Next(s, step).pool.active[session] == s.pool.active[session]
  {
  }

  /** A session keeps its slot, and a usable acquire hands out the very same one, through every run that
      does not disturb it. */
  lemma {:induction false} SlotStays(s: System, steps: seq<Step>, session: string)
    requires session in s.pool.active && Undisturbed(s, steps, session)
    ensures Acquired(Run(s, steps).pool, session, false) == (Run(s, steps).pool, Reused(s.pool.active[session]))
    decreases |steps|
  {
    hide Next;
    hide Disturbs;
    if steps != [] {
      StepLeavesSlot(s, steps[0], session);
      SlotStays(Next(s, steps[0]), steps[1..], session);
    }
  }
}
