/** One service turn from input to outcome (`appkit/turn_runner.py`). The classifier is arbitrary;
    timers, the caller's cancellation and the daemon's stream appear as what each round of the loop
    finds. */
module TurnRunners {
  import opened PythonText
  import opened JsonValues
  import opened Frames
  import opened TurnBoundaries

  datatype Classified = Classified(failed: bool, thinkingStep: string, content: string, completionEvent: string)

  datatype Classifier = Classifier(
    classify: (JsonMap, string) -> Classified,
    resolve: (Classified, string) -> (string, bool),     // resolve_deliverable_final_content
    substantive: string -> bool)

  /** Policies (soft completion or failure) and which hooks are set. */
  datatype Config = Config(softIdle: bool, softQuery: bool, softClose: bool, onComplete: bool, onError: bool)

  /** What the run meets before its loop. */
  datatype Setup = NoSlot | GateTaken | SendFails | NoStream | Streaming

  /** Events that are set when they are looked at. */
  datatype Flags = Flags(aborted: bool, queryOut: bool, idleOut: bool)

  datatype Pulled = Message(frame: JsonMap) | StreamEnd

  /** One round of the loop: the flags at its top, the flags after the wait, and what was pulled. */
  datatype Round = Round(before: Flags, after: Flags, pulled: Pulled)

  datatype Failure =
    | PoolError | GateError | SendError | MissingStream | Abort | QueryTimeout | IdleTimeout | StreamClosed
    | ClassifierError | NoContent(reason: string)

  /** Everything the store, the subscribers, the hooks, the gate, the pool and the daemon are asked. */
  datatype Act =
    | Delta(text: string)
    | ThinkingStep(text: string)
    | CancelSent
    | PoolReleased
    | GateReleased
    | ResponseRow(text: string, event: string)
    | FailedRow(failure: Failure)
    | Complete(text: string)
    | QueryError(failure: Failure)
    | OnComplete(text: string, event: string)
    | OnError(failure: Failure)

  datatype Cause = Deliverable | TurnEnd | Softened(failure: Failure)

  datatype Outcome = Running | Returned(text: string, event: string, cause: Cause) | Raised(failure: Failure)

  // ---------------------------------------------------------------- reading the log

  /** The assistant text the broadcast deltas add up to. */
  function Text(log: seq<Act>): string {
    if log == [] then "" else Text(log[..|log| - 1]) + Said(log[|log| - 1])
  }

  function Said(a: Act): string {
    if a.Delta? then a.text else ""
  }

  predicate IsRow(a: Act) { a.ResponseRow? || a.FailedRow? }

  predicate IsVerdict(a: Act) { a.Complete? || a.QueryError? }

  function Times(log: seq<Act>, p: Act -> bool): nat {
    if log == [] then 0 else Times(log[..|log| - 1], p) + if p(log[|log| - 1]) then 1 else 0
  }

  /** Outcome rows asked of the store. */
  function Rows(log: seq<Act>): nat { Times(log, IsRow) }

  /** Complete or error broadcasts. */
  function Verdicts(log: seq<Act>): nat { Times(log, IsVerdict) }

  predicate IsProgress(a: Act) {
    a.Delta? || a.ThinkingStep? || a.CancelSent? || a.PoolReleased?
  }

  ghost predicate OnlyProgress(log: seq<Act>) {
    forall i :: 0 <= i < |log| ==> IsProgress(log[i])
  }

  /** A completed turn: row, then broadcast, then hook; a failed one likewise. */
  function Closing(cfg: Config, outcome: Outcome): seq<Act> {
    match outcome
    case Running => []
    case Returned(text, event, _) =>
      [ResponseRow(text, event), Complete(text)] + if cfg.onComplete then [OnComplete(text, event)] else []
    case Raised(f) =>
      [FailedRow(f), QueryError(f)] + if cfg.onError then [OnError(f)] else []
  }

  /** A log with progress and then what the outcome asks. */
  function Grown(cfg: Config, base: seq<Act>, progress: seq<Act>, outcome: Outcome): seq<Act> {
    base + progress + Closing(cfg, outcome)
  }

  lemma NotGrown(cfg: Config, base: seq<Act>)
    ensures Grown(cfg, base, [], Running) == base && OnlyProgress([]) && Text([]) == ""
  {
  }

  /** Progress, and then more progress up to an outcome. */
  lemma GrownMore(cfg: Config, base: seq<Act>, a: seq<Act>, b: seq<Act>, outcome: Outcome)
    requires OnlyProgress(a) && OnlyProgress(b)
    ensures Grown(cfg, Grown(cfg, base, a, Running), b, outcome) == Grown(cfg, base, a + b, outcome)
    ensures OnlyProgress(a + b) && Text(a + b) == Text(a) + Text(b)
  {
    CountsJoin(a, b);
    hide Text;
    hide Rows;
    hide Verdicts;
    hide Closing;
    assert Grown(cfg, base, a, Running) == base + a by { RunningAddsNothing(cfg, base + a); }
    assert base + a + b == base + (a + b);
  }

  lemma RunningAddsNothing(cfg: Config, log: seq<Act>)
    ensures log + Closing(cfg, Running) == log
  {
  }

  lemma {:induction false} ProgressCountsNothing(log: seq<Act>)
    requires OnlyProgress(log)
    ensures Rows(log) == Verdicts(log) == 0
  {
    if log != [] {
      ProgressCountsNothing(log[..|log| - 1]);
    }
  }

  lemma {:induction false} TextJoins(a: seq<Act>, b: seq<Act>)
    ensures Text(a + b) == Text(a) + Text(b)
    decreases |b|
  {
    if b == [] {
      assert a + b == a;
    } else {
      var n := |b| - 1;
      hide Said;
      TextJoins(a, b[..n]);
      assert (a + b)[..|a + b| - 1] == a + b[..n];
      assert Text(a) + Text(b[..n]) + Said(b[n]) == Text(a) + (Text(b[..n]) + Said(b[n]));
    }
  }

  lemma {:induction false} TimesJoin(a: seq<Act>, b: seq<Act>, p: Act -> bool)
    ensures Times(a + b, p) == Times(a, p) + Times(b, p)
    decreases |b|
  {
    if b == [] {
      assert a + b == a;
    } else {
      var n := |b| - 1;
      TimesJoin(a, b[..n], p);
      assert (a + b)[..|a + b| - 1] == a + b[..n];
    }
  }

  lemma CountsJoin(a: seq<Act>, b: seq<Act>)
    ensures Text(a + b) == Text(a) + Text(b)
    ensures Rows(a + b) == Rows(a) + Rows(b) && Verdicts(a + b) == Verdicts(a) + Verdicts(b)
  {
    TextJoins(a, b);
    TimesJoin(a, b, IsRow);
    TimesJoin(a, b, IsVerdict);
  }

  lemma PairCounts(a: Act, b: Act, tail: seq<Act>)
    ensures var s := [a, b] + tail;
      && Rows(s) == (if IsRow(a) then 1 else 0) + (if IsRow(b) then 1 else 0) + Rows(tail)
      && Verdicts(s) == (if IsVerdict(a) then 1 else 0) + (if IsVerdict(b) then 1 else 0) + Verdicts(tail)
      && (!a.Delta? && !b.Delta? && Text(tail) == "" ==> Text(s) == "")
  {
    SingleCounts(a);
    SingleCounts(b);
    CountsJoin([a], [b]);
    CountsJoin([a, b], tail);
    assert [a] + [b] == [a, b];
    hide Rows;
    hide Verdicts;
    hide Text;
  }

  lemma SingleCounts(a: Act)
    ensures Rows([a]) == (if IsRow(a) then 1 else 0) && Verdicts([a]) == if IsVerdict(a) then 1 else 0
    ensures Text([a]) == if a.Delta? then a.text else ""
    ensures Rows([]) == Verdicts([]) == 0 && Text([]) == ""
  {
    TimesOne(a, IsRow);
    TimesOne(a, IsVerdict);
    assert [a][..0] == [];
  }

  lemma TimesOne(a: Act, p: Act -> bool)
    ensures Times([a], p) == (if p(a) then 1 else 0) && Times([], p) == 0
  {
    assert [a][..0] == [];
  }

  lemma ClosingCountsOne(cfg: Config, outcome: Outcome)
    requires !outcome.Running?
    ensures Rows(Closing(cfg, outcome)) == Verdicts(Closing(cfg, outcome)) == 1
    ensures Text(Closing(cfg, outcome)) == ""
  {
    hide Rows;
    hide Verdicts;
    hide Text;
    match outcome {
      case Returned(text, event, _) =>
        SingleCounts(OnComplete(text, event));
        PairCounts(ResponseRow(text, event), Complete(text), if cfg.onComplete then [OnComplete(text, event)] else []);
      case Raised(f) =>
        SingleCounts(OnError(f));
        PairCounts(FailedRow(f), QueryError(f), if cfg.onError then [OnError(f)] else []);
    }
  }

  /** What an ended turn asks for: the row first, then the broadcast, then the hook if it is set. */
  lemma ClosesInOrder(cfg: Config, outcome: Outcome)
    ensures outcome.Running? ==> Closing(cfg, outcome) == []
    ensures !outcome.Running? ==> IsRow(Closing(cfg, outcome)[0]) && IsVerdict(Closing(cfg, outcome)[1])
    ensures outcome.Returned? ==>
      && |Closing(cfg, outcome)| == (if cfg.onComplete then 3 else 2)
      && Closing(cfg, outcome)[0] == ResponseRow(outcome.text, outcome.event)
      && Closing(cfg, outcome)[1] == Complete(outcome.text)
      && (cfg.onComplete ==> Closing(cfg, outcome)[2] == OnComplete(outcome.text, outcome.event))
    ensures outcome.Raised? ==>
      && |Closing(cfg, outcome)| == (if cfg.onError then 3 else 2)
      && Closing(cfg, outcome)[0] == FailedRow(outcome.failure)
      && Closing(cfg, outcome)[1] == QueryError(outcome.failure)
      && (cfg.onError ==> Closing(cfg, outcome)[2] == OnError(outcome.failure))
  {
  }

  // ---------------------------------------------------------------- what a round calls for

  /** A content that repeats the text so far replaces it; any other is appended. */
  function NewText(assistant: string, content: string): string {
    if assistant <= content then content else assistant + content
  }

  /** `completion_event.strip()` names a turn end of the daemon. */
  predicate DaemonTurnEnd(event: string) {
    Strip(event) in ["soothe.stream.end", "status.idle", "status.stopped"]
  }

  lemma {:induction false} FedOneMore(b: Boundary, frames: seq<JsonMap>, frame: JsonMap)
    ensures FedFrames(b, frames + [frame]) == FedFrame(FedFrames(b, frames), frame)
    decreases |frames|
  {
    hide FedFrame;
    if frames == [] {
      assert [] + [frame] == [frame] && [frame][1..] == [];
    } else {
      assert (frames + [frame])[1..] == frames[1..] + [frame];
      FedOneMore(FedFrame(b, frames[0]), frames[1..], frame);
    }
  }

  datatype Trigger = Failing(failure: Failure) | Handling(frame: JsonMap)

  /** Which event a round acts on: an abort wins at the top of the loop, and loses to both timers
      after the wait; a pulled frame is dropped when any of them is set. */
  function TriggerOf(r: Round): Trigger {
    if r.before.aborted then Failing(Abort)
    else if r.before.queryOut then Failing(QueryTimeout)
    else if r.before.idleOut then Failing(IdleTimeout)
    else if r.after.queryOut then Failing(QueryTimeout)
    else if r.after.idleOut then Failing(IdleTimeout)
    else if r.after.aborted then Failing(Abort)
    else if r.pulled.StreamEnd? then Failing(StreamClosed)
    else Handling(r.pulled.frame)
  }

  /** The frames a run of rounds hands to the boundary. */
  function FramesOf(rounds: seq<Round>): seq<JsonMap> {
    if rounds == [] then []
    else
      var n := |rounds| - 1;
      FramesOf(rounds[..n]) + if TriggerOf(rounds[n]).Handling? then [TriggerOf(rounds[n]).frame] else []
  }

  /** A timer asks the daemon to cancel, if the loop has a name. */
  function CancelFor(trigger: Trigger, loopId: string): seq<Act> {
    if trigger.Failing? && (trigger.failure.QueryTimeout? || trigger.failure.IdleTimeout?) && Strip(loopId) != ""
    then [CancelSent] else []
  }

  predicate SoftPolicy(cfg: Config, failure: Failure) {
    match failure
    case QueryTimeout => cfg.softQuery
    case IdleTimeout => cfg.softIdle
    case StreamClosed => cfg.softClose
    case _ => false
  }

  function SoftEvent(failure: Failure): string {
    match failure
    case QueryTimeout => "query_timeout"
    case IdleTimeout => "idle_timeout"
    case _ => "stream_closed"
  }

  /** What ends a turn at a timeout, an abort or the end of the stream: soft completion with the
      visible text where the policy asks for it and there is any, failure otherwise. */
  function Interrupted(cfg: Config, assistant: string, failure: Failure): Outcome {
    if SoftPolicy(cfg, failure) && Strip(assistant) != ""
    then Returned(Strip(assistant), SoftEvent(failure), Softened(failure))
    else Raised(failure)
  }

  /** A classified message that is to be delivered at once: daemon turn ends never are. */
  predicate Delivers(classifier: Classifier, result: Classified, assistant: string) {
    !result.failed && classifier.resolve(result, assistant).1 && !DaemonTurnEnd(result.completionEvent)
  }

  /** What handling a frame leads to, given the text before and after it: a classifier that fails ends the
      turn; else a deliverable does; else the end of the turn, with a substantive reply or without one;
      and nothing else does. */
  predicate MessageOutcome(classifier: Classifier, frame: JsonMap, was: string, assistant: string, b: Boundary,
                           outcome: Outcome)
  {
    var result := classifier.classify(frame, was);
    var delivers := Delivers(classifier, result, assistant);
    && (result.failed ==> outcome == Raised(ClassifierError))
    && (delivers ==>
          outcome == Returned(classifier.resolve(result, assistant).0, result.completionEvent, Deliverable))
    && (!result.failed && !delivers && b.ended && classifier.substantive(assistant) ==>
          outcome == Returned(Strip(assistant), b.reason, TurnEnd))
    && (!result.failed && !delivers && b.ended && !classifier.substantive(assistant) ==>
          outcome == Raised(NoContent(b.reason)))
    && (!result.failed && !delivers && !b.ended ==> outcome == Running)
  }

  // ---------------------------------------------------------------- the text of a turn

  /** The text after a classified message. */
  function Gathered(was: string, result: Classified): string {
    if result.failed || result.content == "" then was else NewText(was, result.content)
  }

  /** What a classified message asks of the subscribers. */
  function MessageActs(was: string, result: Classified): seq<Act> {
    if result.failed then []
    else
      (if Strip(result.thinkingStep) != "" then [ThinkingStep(Strip(result.thinkingStep))] else [])
      + (if Gathered(was, result) != was then [Delta(Gathered(was, result)[|was|..])] else [])
  }

  /** The text after these frames; the classifier is shown the text so far. */
  function TextAfter(classifier: Classifier, frames: seq<JsonMap>): string {
    if frames == [] then ""
    else
      var n := |frames| - 1;
      var was := TextAfter(classifier, frames[..n]);
      Gathered(was, classifier.classify(frames[n], was))
  }

  /** Everything these frames ask of the subscribers. */
  function ActsAfter(classifier: Classifier, frames: seq<JsonMap>): seq<Act> {
    if frames == [] then []
    else
      var n := |frames| - 1;
      var was := TextAfter(classifier, frames[..n]);
      ActsAfter(classifier, frames[..n]) + MessageActs(was, classifier.classify(frames[n], was))
  }

  /** How the classifier reads the n-th frame. */
  function ReadAt(classifier: Classifier, frames: seq<JsonMap>, n: nat): Classified
    requires n < |frames|
  {
    classifier.classify(frames[n], TextAfter(classifier, frames[..n]))
  }

  lemma GatheredGrows(was: string, result: Classified)
    ensures was <= Gathered(was, result)
    ensures result.failed ==> Gathered(was, result) == was
    ensures !result.failed ==> EndsWith(Gathered(was, result), result.content)
    ensures !result.failed && was <= result.content && result.content != "" ==> Gathered(was, result) == result.content
    ensures !result.failed && !(was <= result.content) ==> Gathered(was, result) == was + result.content
  {
  }

  lemma ActsGather(was: string, result: Classified)
    ensures Gathered(was, result) == was + Text(MessageActs(was, result)) && OnlyProgress(MessageActs(was, result))
  {
    GatheredGrows(was, result);
    var after := Gathered(was, result);
    if result.failed {
      SingleCounts(CancelSent);
      assert was + "" == was;
    } else {
      Thinks(Strip(result.thinkingStep));
      Speaks(was, after);
      hide Strip;
      var thoughts := if Strip(result.thinkingStep) != "" then [ThinkingStep(Strip(result.thinkingStep))] else [];
      var deltas := if after != was then [Delta(after[|was|..])] else [];
      TextJoins(thoughts, deltas);
      hide Gathered;
      hide Text;
      assert Text(thoughts) + Text(deltas) == Text(deltas);
      assert MessageActs(was, result) == thoughts + deltas;
    }
  }

  lemma Thinks(thought: string)
    ensures var acts := if thought != "" then [ThinkingStep(thought)] else [];
      Text(acts) == "" && OnlyProgress(acts)
  {
    SingleCounts(ThinkingStep(thought));
  }

  lemma Speaks(was: string, after: string)
    requires was <= after
    ensures var acts := if after != was then [Delta(after[|was|..])] else [];
      was + Text(acts) == after && OnlyProgress(acts)
  {
    SingleCounts(Delta(after[|was|..]));
    hide Text;
    assert was + after[|was|..] == after && was + "" == was;
  }

  predicate EndsWith(s: string, tail: string) {
    |tail| <= |s| && s[|s| - |tail|..] == tail
  }

  /** The content of every message that does not fail ends the text after it, and no text is lost. */
  lemma EveryContentEndsTheText(classifier: Classifier, frames: seq<JsonMap>, n: nat)
    requires n < |frames|
    ensures var before, after := TextAfter(classifier, frames[..n]), TextAfter(classifier, frames[..n + 1]);
      && before <= after
      && (!ReadAt(classifier, frames, n).failed ==> EndsWith(after, ReadAt(classifier, frames, n).content))
  {
    assert frames[..n + 1][..n] == frames[..n];
    GatheredGrows(TextAfter(classifier, frames[..n]), ReadAt(classifier, frames, n));
    hide Gathered;
  }

  /** The contents one after the other. */
  function Contents(classifier: Classifier, frames: seq<JsonMap>): string {
    if frames == [] then ""
    else
      var n := |frames| - 1;
      Contents(classifier, frames[..n])
      + if ReadAt(classifier, frames, n).failed then "" else ReadAt(classifier, frames, n).content
  }

  /** The message says something, and what it says begins with the text so far. */
  predicate Repeats(classifier: Classifier, frames: seq<JsonMap>, n: nat)
    requires n < |frames|
  {
    TextAfter(classifier, frames[..n]) <= ReadAt(classifier, frames, n).content
  }

  lemma AddsItsContent(was: string, result: Classified)
    requires was == "" || !(was <= result.content)
    ensures Gathered(was, result) == was + if result.failed then "" else result.content
  {
  }

  lemma EarlierReads(classifier: Classifier, frames: seq<JsonMap>, n: nat, k: nat)
    requires k < n <= |frames|
    ensures ReadAt(classifier, frames[..n], k) == ReadAt(classifier, frames, k)
    ensures TextAfter(classifier, frames[..n][..k]) == TextAfter(classifier, frames[..k])
    ensures Repeats(classifier, frames[..n], k) == Repeats(classifier, frames, k)
  {
    assert frames[..n][..k] == frames[..k];
  }

  /** Contents none of which repeats a text already there are concatenated. */
  lemma {:induction false} DeltasConcatenate(classifier: Classifier, frames: seq<JsonMap>)
    requires forall n :: 0 <= n < |frames| && TextAfter(classifier, frames[..n]) != "" ==>
      !Repeats(classifier, frames, n)
    ensures TextAfter(classifier, frames) == Contents(classifier, frames)
  {
    if frames != [] {
      var n := |frames| - 1;
      forall k | 0 <= k < n && TextAfter(classifier, frames[..n][..k]) != ""
        ensures !Repeats(classifier, frames[..n], k)
      {
        EarlierReads(classifier, frames, n, k);
      }
      DeltasConcatenate(classifier, frames[..n]);
      AddsItsContent(TextAfter(classifier, frames[..n]), ReadAt(classifier, frames, n));
      hide Gathered;
      assert TextAfter(classifier, frames[..n]) != "" ==> !Repeats(classifier, frames, n);
    }
  }

  /** Cumulative contents leave the last one. */
  lemma CumulativeKeepsLast(classifier: Classifier, frames: seq<JsonMap>)
    requires frames != []
    requires Repeats(classifier, frames, |frames| - 1) && !ReadAt(classifier, frames, |frames| - 1).failed
    ensures TextAfter(classifier, frames) == ReadAt(classifier, frames, |frames| - 1).content
  {
    GatheredGrows(TextAfter(classifier, frames[..|frames| - 1]), ReadAt(classifier, frames, |frames| - 1));
  }

  lemma {:induction false} ActsSpell(classifier: Classifier, frames: seq<JsonMap>)
    ensures Text(ActsAfter(classifier, frames)) == TextAfter(classifier, frames)
    ensures OnlyProgress(ActsAfter(classifier, frames))
  {
    if frames != [] {
      var n := |frames| - 1;
      var was := TextAfter(classifier, frames[..n]);
      var result := classifier.classify(frames[n], was);
      ActsSpell(classifier, frames[..n]);
      ActsGather(was, result);
      TextJoins(ActsAfter(classifier, frames[..n]), MessageActs(was, result));
      hide Gathered;
      hide MessageActs;
    }
  }

  /** Whatever else it says, a message to be delivered at once ends the turn; so does one at the end of
      the turn, and one the classifier fails on; any other leaves it running. */
  lemma RunsOnExactlyWhen(classifier: Classifier, frame: JsonMap, was: string, after: string, b: Boundary,
                          outcome: Outcome)
    requires MessageOutcome(classifier, frame, was, after, b, outcome)
    ensures var result := classifier.classify(frame, was);
      && (outcome.Running? <==>
            !result.failed && !b.ended
            && (classifier.resolve(result, after).1 ==>
                  Strip(result.completionEvent) in {"soothe.stream.end", "status.idle", "status.stopped"}))
      && (outcome.Returned? && outcome.cause.Deliverable? ==>
            Strip(result.completionEvent) !in {"soothe.stream.end", "status.idle", "status.stopped"})
  {
    hide Strip;
  }

  /** Which event a round acts on. A frame is handled only if nothing else has happened; at the top of the
      loop an abort comes first, after the wait it comes last. */
  lemma TriggersExactlyWhen(r: Round)
    ensures var b, a := r.before, r.after;
      var early := b.aborted || b.queryOut || b.idleOut;
      && (TriggerOf(r).Handling? <==>
            !early && !a.aborted && !a.queryOut && !a.idleOut && r.pulled.Message?)
      && (r.pulled.Message? && TriggerOf(r).Handling? ==> TriggerOf(r).frame == r.pulled.frame)
      && (TriggerOf(r) == Failing(Abort) <==> b.aborted || (!early && a.aborted && !a.queryOut && !a.idleOut))
      && (TriggerOf(r) == Failing(QueryTimeout) <==> !b.aborted && (b.queryOut || (!b.idleOut && a.queryOut)))
      && (TriggerOf(r) == Failing(IdleTimeout) <==>
            !b.aborted && !b.queryOut && (b.idleOut || (a.idleOut && !a.queryOut)))
      && (TriggerOf(r) == Failing(StreamClosed) <==>
            !early && !a.aborted && !a.queryOut && !a.idleOut && r.pulled.StreamEnd?)
  {
  }

  /** The daemon is asked to cancel exactly when a timer fires and the loop has a name. */
  lemma CancelsExactlyWhen(trigger: Trigger, loopId: string)
    ensures CancelFor(trigger, loopId) == [CancelSent]
       <==> trigger in {Failing(QueryTimeout), Failing(IdleTimeout)} && Strip(loopId) != ""
    ensures CancelFor(trigger, loopId) != [CancelSent] ==> CancelFor(trigger, loopId) == []
  {
    hide Strip;
  }

  /** A timer or the end of the stream completes the turn softly exactly when its own policy says so and
      the text is not blank; the row then holds the trimmed text, which has no outer white space. */
  lemma SoftlyExactlyWhen(cfg: Config, assistant: string, failure: Failure)
    ensures var outcome := Interrupted(cfg, assistant, failure);
      && (outcome.Returned? <==>
            && ((failure == QueryTimeout && cfg.softQuery) || (failure == IdleTimeout && cfg.softIdle)
                || (failure == StreamClosed && cfg.softClose))
            && Strip(assistant) != "")
      && (outcome.Returned? ==>
            && outcome.text == Strip(assistant) && Trimmed(outcome.text) && outcome.cause == Softened(failure)
            && outcome.event == (if failure == QueryTimeout then "query_timeout"
                                 else if failure == IdleTimeout then "idle_timeout" else "stream_closed"))
      && (!outcome.Returned? ==> outcome == Raised(failure))
  {
    StripTrims(assistant);
    hide Strip;
  }

  // ---------------------------------------------------------------- the runner

  class TurnRunner {
    const cfg: Config
    const classifier: Classifier
    var log: seq<Act>

    constructor (cfg: Config, classifier: Classifier)
      ensures log == [] && this.cfg == cfg && this.classifier == classifier
    {
      this.cfg, this.classifier, log := cfg, classifier, [];
    }

    /** `_fail_turn`, and the same three calls inline: row, broadcast, hook. */
    method FailTurn(failure: Failure) returns (outcome: Outcome)
      modifies this
      ensures outcome == Raised(failure) && log == Grown(cfg, old(log), [], outcome)
    {
      outcome := Raised(failure);
      log := log + [FailedRow(failure)];
      log := log + [QueryError(failure)];
      if cfg.onError {
        log := log + [OnError(failure)];
      }
    }

    /** `_complete_turn`. */
    method CompleteTurn(final: string, event: string, cause: Cause) returns (outcome: Outcome)
      modifies this
      ensures outcome == Returned(final, event, cause) && log == Grown(cfg, old(log), [], outcome)
    {
      outcome := Returned(final, event, cause);
      log := log + [ResponseRow(final, event)];
      log := log + [Complete(final)];
      if cfg.onComplete {
        log := log + [OnComplete(final, event)];
      }
    }

    /** `_finish_timeout`. */
    method FinishTimeout(content: string, failure: Failure, event: string, soft: bool) returns (outcome: Outcome)
      requires soft == SoftPolicy(cfg, failure) && event == SoftEvent(failure)
      modifies this
      ensures outcome == Interrupted(cfg, content, failure) && log == Grown(cfg, old(log), [], outcome)
    {
      if soft && Strip(content) != "" {
        outcome := CompleteTurn(Strip(content), event, Softened(failure));
        return;
      }
      outcome := FailTurn(failure);
    }

    /** `_send_loop_cancel`. */
    method SendLoopCancel(loopId: string)
      modifies this
      ensures log == old(log) + if Strip(loopId) != "" then [CancelSent] else []
    {
      if Strip(loopId) != "" {
        log := log + [CancelSent];
      }
    }

    /** A timer that has fired: the daemon is asked to cancel, and the turn is finished. */
    method TimeOutTurn(loopId: string, assistant: string, failure: Failure)
      returns (outcome: Outcome, ghost acts: seq<Act>)
      requires failure.QueryTimeout? || failure.IdleTimeout?
      modifies this
      ensures outcome == Interrupted(cfg, assistant, failure)
      ensures acts == if Strip(loopId) != "" then [CancelSent] else []
      ensures log == Grown(cfg, old(log), acts, outcome) && OnlyProgress(acts) && Text(acts) == ""
    {
      hide Closing;
      hide Grown;
      hide OnlyProgress;
      hide Text;
      hide Interrupted;
      ghost var base := log;
      NotGrown(cfg, base);
      OneProgress(cfg, base, CancelSent);
      acts := if Strip(loopId) != "" then [CancelSent] else [];
      assert base + [] == base;
      SendLoopCancel(loopId);
      if failure.QueryTimeout? {
        outcome := FinishTimeout(assistant, failure, "query_timeout", cfg.softQuery);
      } else {
        outcome := FinishTimeout(assistant, failure, "idle_timeout", cfg.softIdle);
      }
      GrownMore(cfg, base, acts, [], outcome);
      assert acts + [] == acts;
    }

    /** The delta of a message: what it adds to the text. */
    method BroadcastContent(assistant: string, content: string) returns (after: string, ghost acts: seq<Act>)
      modifies this
      ensures log == Grown(cfg, old(log), acts, Running) && OnlyProgress(acts) && after == assistant + Text(acts)
      ensures after == if content == "" then assistant else NewText(assistant, content)
      ensures acts == if after != assistant then [Delta(after[|assistant|..])] else []
    {
      after, acts := assistant, [];
      if content != "" {
        var delta := content;
        if assistant <= content {
          delta, after := content[|assistant|..], content;
        } else {
          after := assistant + content;
        }
        if delta != "" {
          SingleCounts(Delta(delta));
          acts := [Delta(delta)];
          log := log + [Delta(delta)];
        }
      }
    }

    /** One pulled message: deltas out, then perhaps one of four exits. */
    method HandleMessage(frame: JsonMap, assistant: string, boundary: TurnBoundary)
      returns (after: string, outcome: Outcome, ghost acts: seq<Act>)
      modifies this, boundary, boundary.gate
      ensures boundary.Value() == FedFrame(old(boundary.Value()), frame)
      ensures log == Grown(cfg, old(log), acts, outcome)
      ensures OnlyProgress(acts) && after == assistant + Text(acts)
      ensures after == Gathered(assistant, classifier.classify(frame, assistant))
      ensures acts == MessageActs(assistant, classifier.classify(frame, assistant))
      ensures MessageOutcome(classifier, frame, assistant, after, boundary.Value(), outcome)
    {
      hide Fed;
      hide Normalize;
      hide LookAt;
      hide NewText;
      hide Strip;
      hide Closing;
      hide Grown;
      hide OnlyProgress;
      hide Text;
      hide MessageOutcome;
      ghost var base := log;
      NotGrown(cfg, base);
      after, acts := assistant, [];
      var ended, reason := boundary.Feed(frame);
      var result := classifier.classify(frame, assistant);
      if result.failed {
        outcome := FailTurn(ClassifierError);
        MayFail(classifier, frame, assistant, after, boundary.Value());
        assert assistant + "" == assistant;
        return;
      }
      if Strip(result.thinkingStep) != "" {
        acts := [ThinkingStep(Strip(result.thinkingStep))];
        OneProgress(cfg, base, acts[0]);
        log := log + [ThinkingStep(Strip(result.thinkingStep))];
      }
      ghost var more;
      after, more := BroadcastContent(assistant, result.content);
      GrownMore(cfg, base, acts, more, Running);
      assert "" + Text(more) == Text(more);
      acts := acts + more;
      outcome := FinishMessage(frame, assistant, result, after, ended, reason, boundary.Value());
      NotGrown(cfg, base);
      GrownMore(cfg, base, acts, [], outcome);
      assert acts + [] == acts;
    }

    /** What a message that was handled leads to: a deliverable, the end of the turn, or the next round. */
    method FinishMessage(ghost frame: JsonMap, ghost was: string, result: Classified, assistant: string, ended: bool,
                         reason: string, ghost b: Boundary)
      returns (outcome: Outcome)
      requires result == classifier.classify(frame, was) && !result.failed
      requires ended == b.ended && (ended ==> reason == b.reason)
      modifies this
      ensures log == Grown(cfg, old(log), [], outcome)
      ensures MessageOutcome(classifier, frame, was, assistant, b, outcome)
    {
      hide Closing;
      hide Strip;
      var (final, deliverable) := classifier.resolve(result, assistant);
      if deliverable && !DaemonTurnEnd(result.completionEvent) {
        outcome := CompleteTurn(final, result.completionEvent, Deliverable);
        return;
      }
      if ended {
        if classifier.substantive(assistant) {
          outcome := CompleteTurn(Strip(assistant), reason, TurnEnd);
          return;
        }
        outcome := FailTurn(NoContent(reason));
        return;
      }
      outcome := Running;
      NotGrown(cfg, log);
    }

    /** The end of the stream. */
    method CloseStream(assistant: string) returns (outcome: Outcome)
      modifies this
      ensures outcome == Interrupted(cfg, assistant, StreamClosed) && log == Grown(cfg, old(log), [], outcome)
    {
      if cfg.softClose && Strip(assistant) != "" {
        outcome := CompleteTurn(Strip(assistant), "stream_closed", Softened(StreamClosed));
        return;
      }
      outcome := FailTurn(StreamClosed);
    }

    /** The exits of one round other than through a message, in the order of the loop. */
    method CheckRound(round: Round, loopId: string, assistant: string)
      returns (hit: bool, outcome: Outcome, ghost acts: seq<Act>)
      modifies this
      ensures hit <==> TriggerOf(round).Failing?
      ensures outcome == if hit then Interrupted(cfg, assistant, TriggerOf(round).failure) else Running
      ensures acts == CancelFor(TriggerOf(round), loopId)
      ensures log == Grown(cfg, old(log), acts, outcome) && OnlyProgress(acts) && Text(acts) == ""
    {
      hide Closing;
      hide OnlyProgress;
      hide Text;
      hide Grown;
      NotGrown(cfg, log);
      hit, outcome, acts := true, Running, [];
      if round.before.aborted {
        outcome := FailTurn(Abort);
      } else if round.before.queryOut {
        outcome, acts := TimeOutTurn(loopId, assistant, QueryTimeout);
      } else if round.before.idleOut {
        outcome, acts := TimeOutTurn(loopId, assistant, IdleTimeout);
      } else if round.after.queryOut {
        outcome, acts := TimeOutTurn(loopId, assistant, QueryTimeout);
      } else if round.after.idleOut {
        outcome, acts := TimeOutTurn(loopId, assistant, IdleTimeout);
      } else if round.after.aborted {
        outcome := FailTurn(Abort);
      } else if round.pulled.StreamEnd? {
        outcome := CloseStream(assistant);
      } else {
        hit := false;
      }
    }

    /** The loop of `execute`. */
    method RunLoop(loopId: string, rounds: seq<Round>)
      returns (outcome: Outcome, assistant: string, used: nat, ghost progress: seq<Act>)
      modifies this
      ensures log == Grown(cfg, old(log), progress, outcome)
      ensures OnlyProgress(progress) && Text(progress) == assistant
      ensures used <= |rounds| && assistant == TextAfter(classifier, FramesOf(rounds[..used]))
      ensures progress == ActsAfter(classifier, FramesOf(rounds[..used]))
        + if used == 0 then [] else CancelFor(TriggerOf(rounds[used - 1]), loopId)
      ensures Ended(cfg, classifier, rounds, used, assistant, outcome)
    {
      hide Closing;
      hide Grown;
      hide FedFrame;
      hide OnlyProgress;
      hide Text;
      hide MessageOutcome;
      hide Interrupted;
      hide TextAfter;
      hide ActsAfter;
      hide FramesOf;
      hide MessageActs;
      hide Gathered;
      hide CancelFor;
      hide TriggerOf;
      ghost var base := log;
      NotGrown(cfg, base);
      assistant, used, progress, outcome := "", 0, [], Running;
      var boundary := new TurnBoundary();
      NothingYet(classifier, rounds);
      while used < |rounds|
        invariant used <= |rounds| && outcome == Running
        invariant log == Grown(cfg, base, progress, Running) && OnlyProgress(progress) && Text(progress) == assistant
        invariant fresh(boundary) && fresh(boundary.gate)
        invariant boundary.Value() == FedFrames(FreshBoundary(), FramesOf(rounds[..used])) && !boundary.ended
        invariant assistant == TextAfter(classifier, FramesOf(rounds[..used]))
        invariant progress == ActsAfter(classifier, FramesOf(rounds[..used]))
        invariant used > 0 ==> TriggerOf(rounds[used - 1]).Handling?
        invariant Ended(cfg, classifier, rounds[..used], used, assistant, Running)
      {
        var round := rounds[used];
        RoundFrames(rounds, used);
        RoundTexts(classifier, rounds, used);
        used := used + 1;
        ghost var acts;
        var hit;
        hit, outcome, acts := CheckRound(round, loopId, assistant);
        GrownMore(cfg, base, progress, acts, outcome);
        progress := progress + acts;
        if hit {
          assert assistant + "" == assistant;
          return;
        }
        NoCancel(round, loopId);
        assert progress == ActsAfter(classifier, FramesOf(rounds[..used - 1]));
        ghost var was := assistant;
        assistant, outcome, acts := HandleMessage(TriggerOf(round).frame, assistant, boundary);
        GrownMore(cfg, base, progress, acts, outcome);
        progress := progress + acts;
        NoCancel(round, loopId);
        assert progress + [] == progress;
        if outcome != Running {
          return;
        }
        StillOpen(classifier, TriggerOf(round).frame, was, assistant, boundary.Value());
        assert rounds[..used][..used - 1] == rounds[..used - 1] && rounds[..used][..used] == rounds[..used];
      }
      if used > 0 {
        NoCancel(rounds[used - 1], loopId);
      }
      assert rounds[..used] == rounds && progress + [] == progress;
    }

    /** `execute`: exits before the loop fail the turn, the loop ends it, and a gate that was acquired
        is released last. In every run the deltas add up to the assistant text, nothing but progress
        comes before the outcome, and a run that has ended has asked for one row and one broadcast. */
    method Execute(setup: Setup, loopId: string, rounds: seq<Round>)
      returns (outcome: Outcome, assistant: string, used: nat, ghost run: seq<Act>)
      modifies this
      ensures log == old(log) + run
        + if setup.NoSlot? || setup.GateTaken? || outcome.Running? then [] else [GateReleased]
      ensures Text(run) == assistant
      ensures Rows(run) == Verdicts(run) == if outcome.Running? then 0 else 1
      ensures exists progress :: OnlyProgress(progress) && run == progress + Closing(cfg, outcome)
      ensures setup.Streaming? ==> used <= |rounds| && Ended(cfg, classifier, rounds, used, assistant, outcome)
      ensures setup.Streaming? ==> assistant == TextAfter(classifier, FramesOf(rounds[..used]))
      ensures setup.Streaming? ==>
        run == (ActsAfter(classifier, FramesOf(rounds[..used]))
                + (if used == 0 then [] else CancelFor(TriggerOf(rounds[used - 1]), loopId)) + Closing(cfg, outcome))
      ensures !setup.Streaming? ==> outcome == Raised(SetupFailure(setup)) && assistant == ""
      ensures !setup.Streaming? ==> run == (if setup.GateTaken? then [PoolReleased] else []) + Closing(cfg, outcome)
    {
      hide Closing;
      hide Grown;
      hide OnlyProgress;
      hide Text;
      hide Rows;
      hide Verdicts;
      hide Ended;
      hide TextAfter;
      hide ActsAfter;
      hide FramesOf;
      hide CancelFor;
      hide TriggerOf;
      ghost var base := log;
      NotGrown(cfg, base);
      assistant, used := "", 0;
      ghost var progress := [];
      match setup {
        case NoSlot =>
          outcome := FailTurn(PoolError);
        case GateTaken =>
          log := log + [PoolReleased];
          progress := [PoolReleased];
          OneProgress(cfg, base, PoolReleased);
          outcome := FailTurn(GateError);
          NotGrown(cfg, base);
          GrownMore(cfg, base, progress, [], outcome);
          assert progress + [] == progress;
        case SendFails =>
          outcome := FailTurn(SendError);
        case NoStream =>
          outcome := FailTurn(MissingStream);
        case Streaming =>
          outcome, assistant, used, progress := RunLoop(loopId, rounds);
      }
      run := progress + Closing(cfg, outcome);
      assert log == base + run by { GrownParts(cfg, base, progress, outcome); }
      RunCounts(cfg, progress, outcome);
      if !setup.NoSlot? && !setup.GateTaken? && !outcome.Running? {
        log := log + [GateReleased];
      }
    }
  }

  lemma GrownParts(cfg: Config, base: seq<Act>, progress: seq<Act>, outcome: Outcome)
    ensures Grown(cfg, base, progress, outcome) == base + (progress + Closing(cfg, outcome))
  {
  }

  function SetupFailure(setup: Setup): Failure {
    match setup
    case NoSlot => PoolError
    case GateTaken => GateError
    case SendFails => SendError
    case _ => MissingStream
  }

  /** How the loop stands after `used` rounds: its outcome is the one the last round calls for. */
  ghost predicate Ended(cfg: Config, classifier: Classifier, rounds: seq<Round>, used: nat, assistant: string,
                        outcome: Outcome)
  {
    && used <= |rounds|
    && var b := FedFrames(FreshBoundary(), FramesOf(rounds[..used]));
       if used == 0 then outcome.Running? && rounds == []
       else match TriggerOf(rounds[used - 1])
            case Failing(f) => outcome == Interrupted(cfg, assistant, f)
            case Handling(frame) =>
              && MessageOutcome(classifier, frame, TextAfter(classifier, FramesOf(rounds[..used - 1])), assistant, b,
                                outcome)
              && (outcome.Running? ==> used == |rounds|)
  }

  lemma RoundFrames(rounds: seq<Round>, n: nat)
    requires n < |rounds|
    ensures FedFrames(FreshBoundary(), FramesOf(rounds[..n + 1]))
         == match TriggerOf(rounds[n])
            case Failing(_) => FedFrames(FreshBoundary(), FramesOf(rounds[..n]))
            case Handling(frame) => FedFrame(FedFrames(FreshBoundary(), FramesOf(rounds[..n])), frame)
  {
    hide FedFrame;
    var now := rounds[..n + 1];
    assert now[..n] == rounds[..n] && now[n] == rounds[n] && |now| == n + 1;
    assert FramesOf(rounds[..n]) + [] == FramesOf(rounds[..n]);
    if TriggerOf(rounds[n]).Handling? {
      FedOneMore(FreshBoundary(), FramesOf(rounds[..n]), TriggerOf(rounds[n]).frame);
    }
  }

  lemma OneProgress(cfg: Config, base: seq<Act>, a: Act)
    requires IsProgress(a) && !a.Delta?
    ensures Grown(cfg, base, [a], Running) == base + [a] && OnlyProgress([a]) && Text([a]) == ""
  {
    SingleCounts(a);
  }

  lemma MayFail(classifier: Classifier, frame: JsonMap, was: string, assistant: string, b: Boundary)
    requires classifier.classify(frame, was).failed
    ensures MessageOutcome(classifier, frame, was, assistant, b, Raised(ClassifierError))
  {
  }

  lemma StillOpen(classifier: Classifier, frame: JsonMap, was: string, assistant: string, b: Boundary)
    requires MessageOutcome(classifier, frame, was, assistant, b, Running)
    ensures !b.ended
  {
  }

  lemma NothingYet(classifier: Classifier, rounds: seq<Round>)
    ensures FramesOf(rounds[..0]) == [] && TextAfter(classifier, []) == "" && ActsAfter(classifier, []) == []
    ensures forall cfg :: Ended(cfg, classifier, rounds[..0], 0, "", Running)
  {
  }

  lemma NoCancel(round: Round, loopId: string)
    requires TriggerOf(round).Handling?
    ensures CancelFor(TriggerOf(round), loopId) == []
  {
  }

  /** The text and the broadcasts after one more round. */
  lemma RoundTexts(classifier: Classifier, rounds: seq<Round>, n: nat)
    requires n < |rounds|
    ensures var frames := FramesOf(rounds[..n]);
      var was := TextAfter(classifier, frames);
      match TriggerOf(rounds[n])
      case Failing(_) => FramesOf(rounds[..n + 1]) == frames
      case Handling(frame) =>
        && TextAfter(classifier, FramesOf(rounds[..n + 1])) == Gathered(was, classifier.classify(frame, was))
        && ActsAfter(classifier, FramesOf(rounds[..n + 1]))
           == ActsAfter(classifier, frames) + MessageActs(was, classifier.classify(frame, was))
  {
    hide Gathered;
    hide MessageActs;
    hide TriggerOf;
    var now, frames := rounds[..n + 1], FramesOf(rounds[..n]);
    assert now[..n] == rounds[..n] && now[n] == rounds[n] && |now| == n + 1;
    assert frames + [] == frames;
    if TriggerOf(rounds[n]).Handling? {
      var more := frames + [TriggerOf(rounds[n]).frame];
      assert more[..|more| - 1] == frames;
    }
  }

  lemma RunCounts(cfg: Config, progress: seq<Act>, outcome: Outcome)
    requires OnlyProgress(progress)
    ensures var run := progress + Closing(cfg, outcome); var n := if outcome.Running? then 0 else 1;
      Rows(run) == n && Verdicts(run) == n && Text(run) == Text(progress)
  {
    hide Rows;
    hide Verdicts;
    hide Text;
    ProgressCountsNothing(progress);
    CountsJoin(progress, Closing(cfg, outcome));
    if outcome.Running? {
      SingleCounts(GateReleased);
    } else {
      ClosingCountsOne(cfg, outcome);
    }
  }
}
