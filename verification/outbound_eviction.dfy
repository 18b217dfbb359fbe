/** What an eviction of the outbound queue drops and whom it turns away, by the priorities alone
    (`appkit/turn.py`). */
module OutboundEviction {
  import opened OutboundPipeline

  /** Critical or high. */
  predicate Important(x: Entry) { x.priority <= 0 }

  /** Critical, high or normal. */
  predicate AboveLow(x: Entry) { x.priority <= 1 }

  /** Nothing drained may go for this arrival: it is important and so is everything drained, or nothing
      drained is low. */
  ghost predicate NothingToDrop(temp: seq<Entry>, e: Entry) {
    if Important(e) then forall i :: 0 <= i < |temp| ==> Important(temp[i])
    else forall i :: 0 <= i < |temp| ==> AboveLow(temp[i])
  }

  /** The oldest entry of the lowest priority. */
  ghost predicate LeastWorth(temp: seq<Entry>, i: nat) {
    && i < |temp|
    && (forall j :: 0 <= j < |temp| ==> temp[j].priority <= temp[i].priority)
    && (forall j :: 0 <= j < |temp| && temp[j].priority == temp[i].priority ==> temp[i].at <= temp[j].at)
  }

  /** In every run, when an eviction has emptied the queue: with nothing to drop, everything goes back and
      nothing is evicted; otherwise exactly the oldest entry of the lowest priority is. */
  lemma EvictsExactlyWhen(maxsize: nat, steps: seq<Step>)
    requires Run(Open(maxsize), steps).work.Draining? && Run(Open(maxsize), steps).queue == []
    ensures var s := Run(Open(maxsize), steps);
      var e, temp, s' := s.work.entry, s.work.temp, Next(s, Proc);
      if NothingToDrop(temp, e) then s'.work == Refilling(e, temp, false) && s'.evicted == s.evicted
      else exists i :: 0 <= i < |temp| && LeastWorth(temp, i) && s'.evicted == s.evicted + [temp[i]]
             && s'.work == Refilling(e, temp[..i] + temp[i + 1..], true)
  {
    hide Next;
    RunKeepsLine(Open(maxsize), steps);
    var s := Run(Open(maxsize), steps);
    DrainDecides(s);
  }

  lemma DrainDecides(s: Pipe)
    requires InLine(s) && s.work.Draining? && s.queue == []
    ensures var e, temp, s' := s.work.entry, s.work.temp, Next(s, Proc);
      if NothingToDrop(temp, e) then s'.work == Refilling(e, temp, false) && s'.evicted == s.evicted
      else exists i :: 0 <= i < |temp| && LeastWorth(temp, i) && s'.evicted == s.evicted + [temp[i]]
             && s'.work == Refilling(e, temp[..i] + temp[i + 1..], true)
  {
    hide DropTarget;
    var e, temp := s.work.entry, s.work.temp;
    var i := Evictable(temp, e.priority);
    assert Line(s) == temp;
    if i < |temp| {
      assert LeastWorth(temp, i);
    }
  }

  // ---------------------------------------------------------------- admitted at once

  /** With room, a put is admitted at once; without, an eviction begins. An unbounded queue always has
      room. */
  lemma PutAdmitsExactlyWhen(s: Pipe, priority: int)
    requires s.work.Ready?
    ensures var s', e := Next(s, Produce(priority)), Entry(priority, |s.produced|, false);
      && s'.produced == s.produced + [e] && s'.dropped == s.dropped
      && (s'.work.Ready? <==> s.maxsize == 0 || |s.queue| < s.maxsize)
      && (s'.work.Ready? ==> multiset(s'.queue) == multiset(s.queue) + multiset{e})
      && (!s'.work.Ready? ==> s'.work == Draining(e, []) && s'.queue == s.queue)
  {
    InsertionAdds(s.queue, Entry(priority, |s.produced|, false));
    hide Inserted;
  }

  lemma InsertionAdds(q: seq<Entry>, e: Entry)
    ensures multiset(Inserted(q, e)) == multiset(q) + multiset{e}
  {
    assert q == q[..Place(q, e)] + q[Place(q, e)..];
  }

  // ---------------------------------------------------------------- turned away

  /** After the first `i` steps an eviction for `e` had emptied the queue, and found nothing to drop. */
  ghost predicate FoundNothing(maxsize: nat, steps: seq<Step>, i: nat, e: Entry)
    requires i < |steps|
  {
    var s := Run(Open(maxsize), steps[..i]);
    && s.work.Draining? && s.work.entry == e && s.queue == [] && steps[i].Proc?
    && NothingToDrop(s.work.temp, e)
  }

  ghost predicate TurnedAway(maxsize: nat, steps: seq<Step>, e: Entry) {
    exists i :: 0 <= i < |steps| && FoundNothing(maxsize, steps, i, e)
  }

  /** Whoever was refused, or is about to be or to wait, met a queue with nothing to drop. */
  ghost predicate Explained(maxsize: nat, steps: seq<Step>) {
    var s := Run(Open(maxsize), steps);
    && (forall i :: 0 <= i < |s.refused| ==> TurnedAway(maxsize, steps, s.refused[i]))
    && (s.work.Refilling? && !s.work.evicted ==> TurnedAway(maxsize, steps, s.work.entry))
    && (s.work.Blocking? ==> TurnedAway(maxsize, steps, s.work.entry))
  }

  lemma StillTurnedAway(maxsize: nat, steps: seq<Step>, step: Step)
    ensures forall e :: TurnedAway(maxsize, steps, e) ==> TurnedAway(maxsize, steps + [step], e)
  {
    hide Run;
    hide NothingToDrop;
    forall e | TurnedAway(maxsize, steps, e)
      ensures TurnedAway(maxsize, steps + [step], e)
    {
      var i :| 0 <= i < |steps| && FoundNothing(maxsize, steps, i, e);
      assert (steps + [step])[..i] == steps[..i] && (steps + [step])[i] == steps[i];
      assert FoundNothing(maxsize, steps + [step], i, e);
    }
  }

  lemma JustTurnedAway(maxsize: nat, steps: seq<Step>)
    requires var s := Run(Open(maxsize), steps);
      s.work.Draining? && s.queue == [] && NothingToDrop(s.work.temp, s.work.entry)
    ensures TurnedAway(maxsize, steps + [Proc], Run(Open(maxsize), steps).work.entry)
  {
    hide Run;
    hide NothingToDrop;
    assert (steps + [Proc])[..|steps|] == steps && (steps + [Proc])[|steps|] == Proc;
    assert FoundNothing(maxsize, steps + [Proc], |steps|, Run(Open(maxsize), steps).work.entry);
  }

  /** What one step can refuse, refill without a drop, or make wait. */
  lemma RefusesFrom(s: Pipe, step: Step)
    requires InLine(s) && Fits(s)
    ensures var s' := Next(s, step);
      && (s'.refused == s.refused
          || ((s.work.Blocking? || (s.work.Refilling? && !s.work.evicted))
              && s'.refused == s.refused + [s.work.entry]))
      && (s'.work.Blocking? ==>
            (s.work.Blocking? || (s.work.Refilling? && !s.work.evicted)) && s'.work.entry == s.work.entry)
      && (s'.work.Refilling? && !s'.work.evicted ==>
            || (s.work.Refilling? && !s.work.evicted && s'.work.entry == s.work.entry)
            || (s.work.Draining? && s.queue == [] && step.Proc? && s'.work.entry == s.work.entry
                && NothingToDrop(s.work.temp, s.work.entry)))
  {
    hide Inserted;
    RetryHasRoom(s);
    if s.work.Draining? && s.queue == [] && step.Proc? {
      DrainDecides(s);
    }
    hide InLine;
    hide Fits;
    hide NothingToDrop;
    hide Evictable;
  }

  lemma OneMoreExplained(maxsize: nat, steps: seq<Step>, step: Step)
    requires Explained(maxsize, steps)
    ensures Explained(maxsize, steps + [step])
  {
    var s := Run(Open(maxsize), steps);
    RunMore(Open(maxsize), steps, step);
    RunKeepsLine(Open(maxsize), steps);
    RunIsSound(Open(maxsize), steps);
    RefusesFrom(s, step);
    StillTurnedAway(maxsize, steps, step);
    if s.work.Draining? && s.queue == [] && step.Proc? && NothingToDrop(s.work.temp, s.work.entry) {
      JustTurnedAway(maxsize, steps);
    }
    hide Run;
    hide Next;
    hide TurnedAway;
    hide NothingToDrop;
  }

  lemma {:induction false} AllExplained(maxsize: nat, steps: seq<Step>)
    ensures Explained(maxsize, steps)
    decreases |steps|
  {
    if steps != [] {
      var n := |steps| - 1;
      assert steps == steps[..n] + [steps[n]];
      hide Explained;
      AllExplained(maxsize, steps[..n]);
      OneMoreExplained(maxsize, steps[..n], steps[n]);
    }
  }

  /** In every run: whoever was refused had begun an eviction that emptied the queue and found nothing to
      drop for it. An important entry is refused only if all that was drained for it was important,
      any other only if nothing drained was low. */
  lemma RefusedOnlyWithNothingToDrop(maxsize: nat, steps: seq<Step>, k: nat)
    requires k < |Run(Open(maxsize), steps).refused|
    ensures TurnedAway(maxsize, steps, Run(Open(maxsize), steps).refused[k])
  {
    AllExplained(maxsize, steps);
  }

  /** And at once, unless it is important: that one waits, and only a full queue at the end of its wait
      refuses it. */
  lemma RefusedExactlyWhen(s: Pipe, step: Step)
    requires Fits(s)
    ensures Next(s, step).refused != s.refused
       <==> || (step.TimeOut? && s.work.Blocking? && s.maxsize > 0 && |s.queue| >= s.maxsize)
            || (step.Proc? && s.work.Refilling? && s.work.temp == [] && !s.work.evicted && !Important(s.work.entry))
  {
    RetryHasRoom(s);
    hide Inserted;
    hide Evictable;
  }
}
