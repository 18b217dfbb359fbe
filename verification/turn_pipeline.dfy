/** The processor side of the outbound queue as an object. Before every queue operation the consumer
    may take any number of entries; the trace records the steps of the transition system that
    actually happened. */
module TurnPipelines {
  import opened OutboundPipeline

  class TurnEventPipeline {
    const maxsize: nat
    var outbound: seq<Entry>
    var outboundSeq: nat
    var outboundDropped: nat
    var consumerDone: bool
    ghost var model: Pipe
    ghost var trace: seq<Step>

    /** The fields are those of a reachable state of the transition system. */
    ghost predicate Valid()
      reads this
    {
      && outbound == model.queue && outboundSeq == |model.produced| && outboundDropped == model.dropped
      && consumerDone == model.over
      && model == Run(Open(maxsize), trace) && model.maxsize == maxsize
    }

    constructor (maxsize: nat)
      ensures Valid() && model == Open(maxsize)
    {
      this.maxsize := maxsize;
      outbound, outboundSeq, outboundDropped, consumerDone := [], 0, 0, false;
      model, trace := Open(maxsize), [];
    }

    ghost method Do(step: Step)
      requires model == Run(Open(maxsize), trace)
      modifies this`model, this`trace
      ensures model == Next(old(model), step) == Run(Open(maxsize), trace)
    {
      RunMore(Open(maxsize), trace, step);
      model, trace := Next(model, step), trace + [step];
    }

    /** `iter_prepared` runs for a while. */
    method ConsumerRuns()
      requires Valid()
      modifies this
      ensures Valid() && model.work == old(model).work && model.produced == old(model).produced
      ensures |outbound| <= |old(outbound)|
    {
      hide Run;
      while outbound != [] && !consumerDone
        invariant Valid() && model.work == old(model).work && model.produced == old(model).produced
        invariant |outbound| <= |old(outbound)|
        decreases |outbound|
      {
        if * {
          break;
        }
        Do(Consume);
        consumerDone, outbound := outbound[0].sentinel, outbound[1..];
      }
    }

    /** `put_nowait` by the processor; false is `queue.Full`. */
    method PutNowait(entry: Entry) returns (ok: bool)
      modifies this`outbound
      ensures ok == !(maxsize > 0 && |old(outbound)| >= maxsize)
      ensures outbound == if ok then Inserted(old(outbound), entry) else old(outbound)
    {
      ok := !(maxsize > 0 && |outbound| >= maxsize);
      if ok {
        outbound := Inserted(outbound, entry);
      }
    }

    /** The entry `_evict_outbound_drop_candidate` would drop, by one scan. */
    method Scan(temp: seq<Entry>, incoming: int) returns (i: nat)
      ensures i == Evictable(temp, incoming)
    {
      var dropPriority := PRIORITY_CRITICAL - 1;
      var target: nat := |temp|;
      var j := 0;
      while j < |temp|
        invariant j <= |temp| && dropPriority >= PRIORITY_CRITICAL - 1
        invariant target == |temp| ==> dropPriority == PRIORITY_CRITICAL - 1
        invariant target < j || target == |temp|
        invariant target < |temp| ==> dropPriority == temp[target].priority > PRIORITY_CRITICAL - 1
        invariant target < |temp| ==> forall k :: 0 <= k < target ==> temp[k].priority < dropPriority
        invariant forall k :: 0 <= k < j ==> temp[k].priority <= dropPriority
      {
        if temp[j].priority > dropPriority {
          dropPriority, target := temp[j].priority, j;
        }
        j := j + 1;
      }
      assert target == DropTarget(temp, PRIORITY_CRITICAL - 1) by { OneTarget(temp, target); }
      i := if target < |temp| && dropPriority >= MinEvictable(incoming) then target else |temp|;
    }

    /** `_evict_outbound_drop_candidate`: take everything out, drop one, put the rest back. */
    method Evict(entry: Entry) returns (found: bool)
      requires Valid() && model.work == Draining(entry, [])
      modifies this
      ensures Valid() && model.produced == old(model).produced
      ensures model.work == if found then Retrying(entry)
                            else if entry.priority <= PRIORITY_HIGH then Blocking(entry)
                            else if entry.sentinel then Finished
                            else Ready
    {
      hide Run;
      hide Evictable;
      hide Place;
      var temp := DrainAll(entry);
      var i := Scan(temp, entry.priority);
      found := i < |temp|;
      Do(Proc);
      if found {
        temp := temp[..i] + temp[i + 1..];
        outboundDropped := outboundDropped + 1;
      }
      PutBackAll(entry, temp, found);
      if !found && entry.priority > PRIORITY_HIGH {
        outboundDropped := outboundDropped + 1;
      }
      Do(Proc);
    }

    method DrainAll(entry: Entry) returns (temp: seq<Entry>)
      requires Valid() && model.work == Draining(entry, [])
      modifies this
      ensures Valid() && model.produced == old(model).produced
      ensures model.work == Draining(entry, temp) && outbound == []
    {
      hide Run;
      hide Evictable;
      temp := [];
      ConsumerRuns();
      while outbound != []
        invariant Valid() && model.work == Draining(entry, temp) && model.produced == old(model).produced
        decreases |outbound|
      {
        Do(Proc);
        temp, outbound := temp + [outbound[0]], outbound[1..];
        ConsumerRuns();
      }
    }

    method PutBackAll(entry: Entry, rest: seq<Entry>, found: bool)
      requires Valid() && model.work == Refilling(entry, rest, found)
      modifies this
      ensures Valid() && model.produced == old(model).produced
      ensures model.work == Refilling(entry, [], found)
    {
      hide Run;
      hide Place;
      hide Inserted;
      var i := 0;
      while i < |rest|
        invariant i <= |rest| && Valid() && model.produced == old(model).produced
        invariant model.work == Refilling(entry, rest[i..], found)
      {
        ConsumerRuns();
        PutBackFits(maxsize, trace);
        Do(Proc);
        var ok := PutNowait(rest[i]);
        assert rest[i..][1..] == rest[i + 1..];
        i := i + 1;
      }
    }

    /** `_put_outbound`: the entry is stored or counted as dropped, and only a CRITICAL or HIGH entry
        waits for room. */
    method PutOutbound(priority: int, sentinel: bool) returns (entry: Entry)
      requires Valid() && model.work.Ready? && (sentinel ==> priority == PRIORITY_LOW)
      modifies this
      ensures Valid() && entry == Entry(priority, old(outboundSeq), sentinel)
      ensures model.produced == old(model).produced + [entry]
      ensures model.work == if sentinel then Finished else Ready
    {
      hide Run;
      hide Inserted;
      hide Evictable;
      ConsumerRuns();
      entry := Entry(priority, outboundSeq, sentinel);
      outboundSeq := outboundSeq + 1;
      Do(if sentinel then End else Produce(priority));
      var ok := PutNowait(entry);
      if ok {
        return;
      }
      var found := Evict(entry);
      if found {
        ConsumerRuns();
        PutBackFits(maxsize, trace);
        Do(Proc);
        ok := PutNowait(entry);
      } else if priority <= PRIORITY_HIGH {
        WaitForRoom(entry);
      }
    }

    /** The blocking put: the consumer runs, and then there is room or the wait times out. */
    method WaitForRoom(entry: Entry)
      requires Valid() && model.work == Blocking(entry)
      modifies this
      ensures Valid() && model.produced == old(model).produced
      ensures model.work == if entry.sentinel then Finished else Ready
    {
      hide Run;
      hide Inserted;
      ConsumerRuns();
      var ok := PutNowait(entry);
      if ok {
        Do(Proc);
      } else {
        Do(TimeOut);
        outboundDropped := outboundDropped + 1;
      }
    }
  }

  lemma PutBackFits(maxsize: nat, steps: seq<Step>)
    ensures var s := Run(Open(maxsize), steps);
      && (s.work.Refilling? && s.work.temp != [] ==> !Full(s))
      && (s.work.Retrying? ==> !Full(s))
  {
    EveryPipelineRun(maxsize, steps);
  }

  lemma OneTarget(temp: seq<Entry>, t: nat)
    requires t <= |temp|
    requires t < |temp| ==> temp[t].priority > PRIORITY_CRITICAL - 1
    requires t < |temp| ==> forall k :: 0 <= k < t ==> temp[k].priority < temp[t].priority
    requires t < |temp| ==> forall k :: 0 <= k < |temp| ==> temp[k].priority <= temp[t].priority
    requires t == |temp| ==> forall k :: 0 <= k < |temp| ==> temp[k].priority <= PRIORITY_CRITICAL - 1
    ensures t == DropTarget(temp, PRIORITY_CRITICAL - 1)
  {
  }

  // ---------------------------------------------------------------- applying in batches

  /** A prepared chunk, and whether the batch delay has passed when it is added. */
  datatype Tick = Tick(chunk: Entry, late: bool)

  predicate Urgent(t: Tick) {
    t.chunk.priority <= PRIORITY_HIGH
  }

  function Urgents(s: seq<Tick>): nat {
    if s == [] then 0 else Urgents(s[..|s| - 1]) + if Urgent(s[|s| - 1]) then 1 else 0
  }

  /** Nothing so far calls for a flush. */
  ghost predicate Waits(batch: seq<Tick>, maxBatchSize: nat) {
    forall i :: 0 <= i < |batch| ==> !Urgent(batch[i]) && !batch[i].late && i + 1 < maxBatchSize
  }

  /** The batch ends for a reason: it is full, or its last chunk is urgent or late. */
  predicate Due(batch: seq<Tick>, maxBatchSize: nat) {
    batch != [] && (|batch| >= maxBatchSize || Urgent(batch[|batch| - 1]) || batch[|batch| - 1].late)
  }

  /** It ends no later than that: before its last chunk nothing called for a flush. */
  ghost predicate Prompt(batch: seq<Tick>, maxBatchSize: nat) {
    batch != [] && Waits(batch[..|batch| - 1], maxBatchSize)
  }

  function Flat(batches: seq<seq<Tick>>): seq<Tick> {
    if batches == [] then [] else Flat(batches[..|batches| - 1]) + batches[|batches| - 1]
  }

  lemma {:induction false} NothingUrgent(s: seq<Tick>)
    requires forall i :: 0 <= i < |s| ==> !Urgent(s[i])
    ensures Urgents(s) == 0
  {
    if s != [] {
      NothingUrgent(s[..|s| - 1]);
    }
  }

  lemma FlushExactlyWhenDue(pending: seq<Tick>, t: Tick, maxBatchSize: nat)
    requires Waits(pending, maxBatchSize)
    ensures var batch := pending + [t];
      && Prompt(batch, maxBatchSize)
      && (Due(batch, maxBatchSize) <==> |batch| >= maxBatchSize || Urgents(batch) > 0 || t.late)
      && (!Due(batch, maxBatchSize) ==> Waits(batch, maxBatchSize))
  {
    assert (pending + [t])[..|pending|] == pending;
    NothingUrgent(pending);
  }

  lemma FlatMore(batches: seq<seq<Tick>>, batch: seq<Tick>)
    ensures Flat(batches + [batch]) == Flat(batches) + batch
  {
    assert (batches + [batch])[..|batches|] == batches;
  }

  class TurnApplyBatcher {
    const maxBatchSize: nat
    var pending: seq<Tick>
    var highPriorityCount: nat

    ghost predicate Valid()
      reads this
    {
      highPriorityCount == Urgents(pending)
    }

    constructor (maxBatchSize: nat)
      ensures Valid() && pending == [] && this.maxBatchSize == maxBatchSize
    {
      this.maxBatchSize := maxBatchSize;
      pending, highPriorityCount := [], 0;
    }

    method Add(t: Tick) returns (flush: bool)
      requires Valid()
      modifies this
      ensures Valid() && pending == old(pending) + [t]
      ensures flush == (|pending| >= maxBatchSize || Urgents(pending) > 0 || t.late)
    {
      pending := pending + [t];
      assert pending[..|pending| - 1] == old(pending);
      if Urgent(t) {
        highPriorityCount := highPriorityCount + 1;
      }
      flush := |pending| >= maxBatchSize || highPriorityCount > 0 || t.late;
    }

    method Flush() returns (batch: seq<Tick>)
      requires Valid()
      modifies this
      ensures Valid() && batch == old(pending) && pending == []
    {
      batch, pending, highPriorityCount := pending, [], 0;
    }

    /** The apply loop of `run_turn_pipeline`, as the batches it applies: every chunk once and in
        order, each batch ended by the first chunk that is urgent, late or fills it, and only the last
        one without such a chunk. */
    method ApplyBatched(chunks: seq<Tick>) returns (batches: seq<seq<Tick>>)
      requires Valid() && pending == []
      modifies this
      ensures Valid() && pending == [] && Flat(batches) == chunks
      ensures forall k :: 0 <= k < |batches| ==> Prompt(batches[k], maxBatchSize)
      ensures forall k :: 0 <= k < |batches| - 1 ==> Due(batches[k], maxBatchSize)
    {
      hide Due;
      hide Prompt;
      hide Waits;
      hide Flat;
      batches := [];
      assert Flat([]) == [] && Waits([], maxBatchSize) by { NothingYet(maxBatchSize); }
      var i := 0;
      while i < |chunks|
        invariant i <= |chunks| && Valid() && Flat(batches) + pending == chunks[..i]
        invariant Waits(pending, maxBatchSize)
        invariant forall k :: 0 <= k < |batches| ==> Prompt(batches[k], maxBatchSize) && Due(batches[k], maxBatchSize)
      {
        assert chunks[..i + 1] == chunks[..i] + [chunks[i]];
        assert Flat(batches) + (pending + [chunks[i]]) == Flat(batches) + pending + [chunks[i]];
        FlushExactlyWhenDue(pending, chunks[i], maxBatchSize);
        var flush := Add(chunks[i]);
        i := i + 1;
        if flush {
          var batch := Flush();
          FlatMore(batches, batch);
          batches := batches + [batch];
        }
      }
      assert chunks[..|chunks|] == chunks;
      if pending != [] {
        WaitingIsPrompt(pending, maxBatchSize);
        var batch := Flush();
        FlatMore(batches, batch);
        batches := batches + [batch];
      }
    }
  }

  lemma NothingYet(maxBatchSize: nat)
    ensures Flat([]) == [] && Waits([], maxBatchSize)
  {
  }

  lemma WaitingIsPrompt(pending: seq<Tick>, maxBatchSize: nat)
    requires pending != [] && Waits(pending, maxBatchSize)
    ensures Prompt(pending, maxBatchSize)
  {
  }
}
