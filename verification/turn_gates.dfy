/** Turn ids, generations and the gates that decide which frame may bind or end a turn
    (`turn_boundary.py` and `stream_terminal.py`). */
module TurnGates {
  import opened PythonText
  import opened JsonValues

  type TurnId = Option<string>

  // ---------------------------------------------------------------- turn ids

  function FormatTurnId(loopId: string, generation: int): string {
    var lid := Strip(loopId);
    if lid == "" || generation <= 0 then "" else lid + ":" + PrintInt(generation)
  }

  function ParseTurnGeneration(turnId: TurnId): (g: Option<nat>)
    ensures g.Some? ==> g.value > 0
  {
    var raw := Strip(if turnId.Some? then turnId.value else "");
    if ':' !in raw then None
    else
      match ParseInt(AfterLast(raw, ':'))
      case None => None
      case Some(n) => if n > 0 then Some(n) else None
  }

  /** A generation survives the turn id exactly when there is a loop id and it is positive. */
  lemma GenerationRoundTrip(loopId: string, generation: int)
    ensures ParseTurnGeneration(Some(FormatTurnId(loopId, generation)))
         == if Strip(loopId) != "" && generation > 0 then Some(generation) else None
  {
    var lid, text := Strip(loopId), FormatTurnId(loopId, generation);
    StripTrims(loopId);
    if lid != "" && generation > 0 {
      ParsePrintInt(generation);
      AfterLastTail(lid, ':', PrintInt(generation));
      assert text == lid + [':'] + PrintInt(generation);
      assert text[|lid|] == ':';
      assert AfterLast(PrintInt(generation), ':') == PrintInt(generation);
      assert text[|text| - 1] == PrintInt(generation)[|PrintInt(generation)| - 1];
      StripTrims(text);
    }
  }

  /** A string value that is not blank, trimmed. */
  function NonBlank(j: Json): TurnId {
    if j.Str? && Strip(j.s) != "" then Some(Strip(j.s)) else None
  }

  /** `frame_turn_id`: the frame's own id, else the one in its `data`. */
  function FrameTurnId(frame: JsonMap): TurnId {
    var own := NonBlank(Get(frame, "turn_id"));
    if own.Some? then own
    else
      match Get(frame, "data")
      case Obj(data) => NonBlank(Get(data, "turn_id"))
      case _ => None
  }

  /** `frame_seq`. */
  function FrameSeq(frame: JsonMap): Option<nat> {
    match Get(frame, "seq")
    case Num(n) => if n >= 0 then Some(n) else None
    case Flt(num, den) => if num >= 0 && num % den == 0 then Some(num / den) else None
    case _ => None
  }

  function TurnText(t: TurnId): string {
    Strip(if t.Some? then t.value else "")
  }

  predicate TurnIdsMatch(expected: TurnId, candidate: TurnId) {
    TurnText(expected) != "" && TurnText(expected) == TurnText(candidate)
  }

  // ---------------------------------------------------------------- gates

  predicate TurnTerminalAllowed(expected: TurnId, frameTurn: TurnId, started: bool, progress: bool) {
    started && progress && TurnIdsMatch(expected, frameTurn)
  }

  predicate StatusTerminalAllowed(expected: TurnId, frameTurn: TurnId, started: bool, progress: bool,
                                  cancelled: bool) {
    if !started || TurnText(expected) == "" then false
    else if TurnText(frameTurn) != "" then TurnIdsMatch(expected, frameTurn) && (progress || cancelled)
    else cancelled
  }

  predicate ShouldBind(statusTurn: TurnId, expected: TurnId, completedGen: nat) {
    if statusTurn.None? || statusTurn.value == "" then false
    else
      var newGen, oldGen := ParseTurnGeneration(statusTurn), ParseTurnGeneration(expected);
      if newGen.Some? && completedGen > 0 && newGen.value <= completedGen then false
      else if expected.None? then true
      else if newGen.None? then oldGen.None?
      else oldGen.None? || newGen.value >= oldGen.value
  }

  // ---------------------------------------------------------------- custom payloads

  const STREAM_END := "soothe.stream.end"
  const STRANGE_LOOP_COMPLETED := "soothe.cognition.strange_loop.completed"

  function CustomType(data: JsonMap): string {
    Strip(if "type" in data then PyStr(data["type"]) else "")
  }

  /** `is_turn_end_custom_data`: a stream end scoped to the turn, or a completed loop. */
  predicate IsTurnEnd(data: Json) {
    data.Obj?
    && var t := CustomType(data.fields);
       if t == STREAM_END then
         var scope := Get(data.fields, "scope");
         Lower(Strip(if Truthy(scope) then PyStr(scope) else "turn")) in {"", "turn"}
       else t == STRANGE_LOOP_COMPLETED
  }

  predicate IsCancelReason(reason: string) {
    Lower(Strip(reason)) in {"cancelled", "canceled", "user_cancelled", "client_disconnect"}
  }

  predicate IsProgressType(t: string) {
    || t in {"soothe.cognition.plan.created", "soothe.cognition.strange_loop.step.started",
             "soothe.cognition.strange_loop.step.queued", "soothe.cognition.strange_loop.step.completed",
             "soothe.card.created", "soothe.card.updated", "soothe.card.finalized"}
    || StartsWith(t, "soothe.cognition.strange_loop.step")
  }

  /** `is_turn_progress_chunk`. */
  predicate IsProgress(mode: string, data: Json) {
    || mode == "messages" || mode == "updates"
    || (mode == "custom" && data.Obj? && !IsTurnEnd(data) && IsProgressType(CustomType(data.fields)))
  }

  /** A turn-end payload is never progress in custom mode. */
  lemma TurnEndIsNoProgress(data: Json)
    requires IsTurnEnd(data)
    ensures !IsProgress("custom", data)
  {
    assert "custom"[0] == 'c' && "messages"[0] == 'm' && "updates"[0] == 'u';
  }

  /** Within the gates, ids are compared by their trimmed text, and matching ids share their
      generation. */
  lemma MatchingIdsShareGeneration(a: TurnId, b: TurnId)
    requires TurnIdsMatch(a, b)
    ensures ParseTurnGeneration(a) == ParseTurnGeneration(b)
  {
  }

  /** Whatever may bind is newer than every completed generation, or has none. */
  lemma BindingClearsFloor(statusTurn: TurnId, expected: TurnId, completedGen: nat)
    requires ShouldBind(statusTurn, expected, completedGen)
    ensures ParseTurnGeneration(statusTurn).Some? ==> ParseTurnGeneration(statusTurn).value > completedGen
  {
  }

  // ---------------------------------------------------------------- which payloads matter

  /** A string payload type, trimmed. */
  predicate Typed(data: Json, t: string) {
    data.Obj? && "type" in data.fields && data.fields["type"].Str? && Strip(data.fields["type"].s) == t
  }

  /** Exactly the payloads that end a turn: a completed loop, and a stream end whose scope is the turn, blank
      or missing. */
  lemma EndsATurnExactlyWhen(data: Json)
    requires data.Obj? && "type" in data.fields && data.fields["type"].Str?
    requires "scope" in data.fields ==> data.fields["scope"].Str?
    ensures IsTurnEnd(data)
       <==> || Typed(data, "soothe.cognition.strange_loop.completed")
            || (Typed(data, "soothe.stream.end")
                && ("scope" in data.fields && Strip(data.fields["scope"].s) != "" ==>
                      Lower(Strip(data.fields["scope"].s)) == "turn"))
  {
    TurnInPlain();
    if "scope" in data.fields {
      BlankStaysBlank(data.fields["scope"].s);
    }
    assert STREAM_END[7] != STRANGE_LOOP_COMPLETED[7];
    hide Strip;
    hide Lower;
  }

  lemma TurnInPlain()
    ensures Lower(Strip("turn")) == "turn" && Lower(Strip("")) == "" && Strip("") == ""
  {
    StripTrims("turn");
  }

  lemma BlankStaysBlank(s: string)
    ensures Lower(Strip(s)) == "" <==> Strip(s) == ""
    ensures s == "" ==> Strip(s) == ""
  {
  }

  /** Exactly the chunks that count as progress: messages, updates, and custom payloads of a created plan, of
      a step or of a card, unless they end the turn. */
  lemma ProgressesExactlyWhen(mode: string, data: Json)
    requires data.Obj? && "type" in data.fields && data.fields["type"].Str?
    ensures var t := Strip(data.fields["type"].s);
      IsProgress(mode, data)
      <==> || mode == "messages" || mode == "updates"
           || (mode == "custom" && !IsTurnEnd(data)
               && (t == "soothe.cognition.plan.created" || StartsWith(t, "soothe.cognition.strange_loop.step")
                   || t in {"soothe.card.created", "soothe.card.updated", "soothe.card.finalized"}))
  {
    StepTypesStart();
    hide Strip;
    hide IsTurnEnd;
  }

  lemma StepTypesStart()
    ensures StartsWith("soothe.cognition.strange_loop.step.started", "soothe.cognition.strange_loop.step")
    ensures StartsWith("soothe.cognition.strange_loop.step.queued", "soothe.cognition.strange_loop.step")
    ensures StartsWith("soothe.cognition.strange_loop.step.completed", "soothe.cognition.strange_loop.step")
  {
  }
}
