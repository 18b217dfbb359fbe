/** Reading wire frames: unwrapping, normalising, and the one record of everything the turn
    readers look at. */
module Frames {
  import opened PythonText
  import opened JsonValues
  import opened TurnGates

  /** The early-drop filter of a session, an arbitrary predicate of a chunk. */
  type DropFilter = (Json, string, Json) -> bool

  datatype Kind = Status | Event | Error | CommandResponse | Other

  /** What a turn reader sees of one frame. */
  datatype View = View(
    kind: Kind,
    loopId: Option<string>,     // a non-empty string, if any
    seqNo: Option<nat>,
    turn: TurnId,
    state: string,              // status frames: as sent
    plainState: string,         // status frames: trimmed and lower-cased
    chunk: Chunk,
    dropped: bool,              // early-drop verdict on the chunk
    turnEnd: bool,              // a custom turn-end payload
    endTurn: TurnId,            // the id a turn-end payload carries
    streamEnd: bool,
    cancelReason: bool,
    progress: bool,
    cancelAck: bool)

  datatype Chunk = Chunk(namespace: Json, mode: string, data: Json)

  function KindOf(frame: JsonMap): Kind {
    var t := Get(frame, "type");
    if t == Str("status") then Status
    else if t == Str("event") then Event
    else if t == Str("error") then Error
    else if t == Str("command_response") then CommandResponse
    else Other
  }

  /** `unwrap_next(event) or event`. */
  function Unwrap(frame: JsonMap): JsonMap {
    if Get(frame, "type") != Str("next") then frame
    else
      match Get(frame, "payload")
      case Obj(payload) =>
        (match Get(payload, "data")
         case Obj(inner) => if inner == map[] then frame else inner
         case _ => frame)
      case _ => frame
  }

  predicate Mentions(s: string, part: string) {
    StartsWith(s, part) || (s != "" && Mentions(s[1..], part))
  }

  function LookAt(frame: JsonMap, drop: DropFilter): View {
    var kind := KindOf(frame);
    var state := if kind.Status? then TextOf(Get(frame, "state")) else "";
    var data := Get(frame, "data");
    var mode := if "mode" in frame then PyStr(frame["mode"]) else "";
    var loopId := Get(frame, "loop_id");
    var turn := FrameTurnId(frame);
    var turnEnd := mode == "custom" && IsTurnEnd(data);
    var dataTurn := if data.Obj? then FrameTurnId(data.fields) else None;
    View(kind,
         if loopId.Str? && loopId.s != "" then Some(loopId.s) else None,
         FrameSeq(frame),
         turn,
         state,
         Lower(Strip(state)),
         Chunk(Get(frame, "namespace"), mode, data),
         drop(Get(frame, "namespace"), mode, data),
         turnEnd,
         if dataTurn.Some? then dataTurn else turn,
         turnEnd && CustomType(data.fields) == STREAM_END,
         turnEnd && IsCancelReason(TextOf(Get(data.fields, "reason"))),
         IsProgress(mode, data),
         kind.CommandResponse? && Mentions(if "content" in frame then PyStr(frame["content"]) else "",
                                           "Cancellation requested"))
  }

  /** `_normalize_frame`, the pool path's own unwrapping. */
  function Normalize(frame: JsonMap): Option<JsonMap> {
    if Get(frame, "type") != Str("next") then Some(frame)
    else
      match Get(frame, "payload")
      case Obj(payload) =>
        var inner := Get(payload, "data");
        if inner.Obj? && Get(inner.fields, "type") == Str("status") then Some(inner.fields)
        else if inner.Obj? && Truthy(Get(inner.fields, "mode")) then
          Some(EventFrame(Get(inner.fields, "mode"), Get(inner.fields, "data"),
                          OrElse(Get(inner.fields, "namespace"), Get(payload, "namespace")),
                          OrElse(Get(inner.fields, "turn_id"),
                                 OrElse(Get(payload, "turn_id"), Get(frame, "turn_id")))))
        else if Truthy(Get(payload, "mode")) then
          Some(EventFrame(Get(payload, "mode"), Get(payload, "data"), Get(payload, "namespace"),
                          OrElse(Get(payload, "turn_id"), Get(frame, "turn_id"))))
        else None
      case _ => None
  }

  function OrElse(a: Json, b: Json): Json {
    if Truthy(a) then a else b
  }

  function EventFrame(mode: Json, data: Json, namespace: Json, turnId: Json): JsonMap {
    var f: JsonMap := map["type" := Str("event"), "mode" := mode, "data" := data, "namespace" := namespace];
    if Truthy(turnId) then f["turn_id" := turnId] else f
  }

  /** What the turn-end contract reads of a frame. */
  predicate SameForTurns(a: View, b: View) {
    a.kind == b.kind && a.plainState == b.plainState && a.turn == b.turn
    && a.turnEnd == b.turnEnd && a.endTurn == b.endTurn && a.progress == b.progress
  }

  /** A wrapped event whose envelope adds no turn id of its own. */
  predicate PlainEnvelope(frame: JsonMap) {
    && Get(frame, "type") == Str("next")
    && Get(frame, "payload").Obj?
    && Get(Get(frame, "payload").fields, "data").Obj?
    && PlainInner(Get(Get(frame, "payload").fields, "data").fields, Get(frame, "payload").fields, frame)
  }

  predicate PlainInner(inner: JsonMap, payload: JsonMap, frame: JsonMap) {
    || Get(inner, "type") == Str("status")
    || (Get(inner, "type") == Str("event") && Truthy(Get(inner, "mode"))
        && (Truthy(Get(inner, "turn_id"))
            || (!Truthy(Get(payload, "turn_id")) && !Truthy(Get(frame, "turn_id")))))
  }

  /** Bare frames and plainly wrapped ones look the same through either unwrapping. */
  lemma BothUnwrappingsAgree(frame: JsonMap, drop: DropFilter)
    requires Get(frame, "type") != Str("next") || PlainEnvelope(frame)
    ensures Normalize(frame).Some?
    ensures SameForTurns(LookAt(Normalize(frame).value, drop), LookAt(Unwrap(frame), drop))
  {
    if Get(frame, "type") == Str("next") {
      var payload := Get(frame, "payload").fields;
      var inner := Get(payload, "data").fields;
      assert inner != map[];
      if Get(inner, "type") != Str("status") {
        WrappedEventAgrees(inner, Normalize(frame).value, drop);
      }
    }
  }

  lemma WrappedEventAgrees(inner: JsonMap, out: JsonMap, drop: DropFilter)
    requires Get(inner, "type") == Str("event") && Get(out, "type") == Str("event")
    requires Truthy(Get(inner, "mode")) && Get(out, "mode") == Get(inner, "mode")
    requires Get(out, "data") == Get(inner, "data")
    requires if Truthy(Get(inner, "turn_id")) then Get(out, "turn_id") == Get(inner, "turn_id")
             else Get(out, "turn_id") == Null
    ensures SameForTurns(LookAt(out, drop), LookAt(inner, drop))
  {
  }

  /** A frame names its turn itself, or else by its data; a turn end names it by its data, or else as its
      frame does. */
  lemma TurnsAreNamed(frame: JsonMap, drop: DropFilter)
    requires Get(frame, "data").Obj?
    ensures var v, own, inner := LookAt(frame, drop), NonBlank(Get(frame, "turn_id")),
        NonBlank(Get(Get(frame, "data").fields, "turn_id"));
      && v.turn == (if own.Some? then own else inner)
      && (inner.Some? ==> v.endTurn == inner)
      && (inner.None? && !Get(Get(frame, "data").fields, "data").Obj? ==> v.endTurn == own)
  {
    hide NonBlank;
    hide IsTurnEnd;
    hide IsProgress;
    hide IsCancelReason;
    hide FrameSeq;
    hide Mentions;
    hide Strip;
    hide Lower;
  }

  /** What is handed out is the frame's own namespace, mode and data, and the filter is asked about just
      these; the number, the loop and the state are the frame's own. */
  lemma ChunksAreVerbatim(frame: JsonMap, drop: DropFilter)
    requires "mode" in frame && frame["mode"].Str? && "data" in frame && "namespace" in frame
    ensures var v := LookAt(frame, drop);
      && v.chunk == Chunk(frame["namespace"], frame["mode"].s, frame["data"])
      && v.dropped == drop(frame["namespace"], frame["mode"].s, frame["data"])
      && v.progress == IsProgress(frame["mode"].s, frame["data"])
      && (v.turnEnd <==> frame["mode"].s == "custom" && IsTurnEnd(frame["data"]))
  {
    hide IsTurnEnd;
    hide IsProgress;
    hide IsCancelReason;
    hide FrameSeq;
    hide FrameTurnId;
    hide Mentions;
    hide Strip;
    hide Lower;
    hide CustomType;
  }

  /** A status shows its state as sent, its number when that is a natural number, and its loop. */
  lemma StatusesShow(frame: JsonMap, drop: DropFilter)
    requires Get(frame, "type") == Str("status") && "state" in frame && frame["state"].Str?
    ensures var v := LookAt(frame, drop);
      && v.kind.Status? && v.state == frame["state"].s && v.plainState == Lower(Strip(frame["state"].s))
      && (Get(frame, "seq").Num? ==>
            v.seqNo == if Get(frame, "seq").n >= 0 then Some(Get(frame, "seq").n) else None)
      && (Get(frame, "loop_id").Str? ==>
            v.loopId == if Get(frame, "loop_id").s != "" then Some(Get(frame, "loop_id").s) else None)
  {
    hide IsTurnEnd;
    hide IsProgress;
    hide IsCancelReason;
    hide FrameTurnId;
    hide Mentions;
    hide Strip;
    hide Lower;
    hide CustomType;
  }

  /** Whether a payload carries an event itself. */
  predicate HasMode(body: Json) { body.Obj? && Truthy(Get(body.fields, "mode")) }

  /** The pool path sees a bare frame as it is; of an envelope the status inside, else the event inside, else
      the event that the payload is, which takes its turn id from the payload or else from the envelope; and
      nothing of any other. */
  lemma NormalizesExactly(frame: JsonMap)
    ensures Get(frame, "type") != Str("next") ==> Normalize(frame) == Some(frame)
    ensures Get(frame, "type") == Str("next") ==>
      var payload := Get(frame, "payload");
      var inner := if payload.Obj? then Get(payload.fields, "data") else Null;
      var status := inner.Obj? && Get(inner.fields, "type") == Str("status");
      && (Normalize(frame).Some? <==> payload.Obj? && (status || HasMode(inner) || HasMode(payload)))
      && (status ==> Normalize(frame) == Some(inner.fields))
      && (!status && HasMode(inner) ==>
            var f := Normalize(frame).value;
            && f["type"] == Str("event") && f["mode"] == Get(inner.fields, "mode") && f["data"] == Get(inner.fields, "data")
            && (Truthy(Get(inner.fields, "turn_id")) ==> Get(f, "turn_id") == Get(inner.fields, "turn_id")))
      && (!status && !HasMode(inner) && HasMode(payload) ==>
            var f := Normalize(frame).value;
            && f["type"] == Str("event") && f["mode"] == Get(payload.fields, "mode")
            && f["data"] == Get(payload.fields, "data") && f["namespace"] == Get(payload.fields, "namespace")
            && (Truthy(Get(payload.fields, "turn_id")) ==> Get(f, "turn_id") == Get(payload.fields, "turn_id"))
            && (!Truthy(Get(payload.fields, "turn_id")) && Truthy(Get(frame, "turn_id")) ==>
                  Get(f, "turn_id") == Get(frame, "turn_id")))
  {
    hide Truthy;
  }

  /** The session reads a bare frame, and an envelope that holds no frame, as they are, and any other
      envelope as the frame inside. */
  lemma UnwrapsExactly(frame: JsonMap)
    ensures var payload := Get(frame, "payload");
      var wraps := Get(frame, "type") == Str("next") && payload.Obj? && Get(payload.fields, "data").Obj?
                   && Get(payload.fields, "data").fields != map[];
      Unwrap(frame) == if wraps then Get(payload.fields, "data").fields else frame
  {
  }

  lemma {:induction false} MentionsSomewhere(s: string, part: string)
    ensures Mentions(s, part) <==> exists i :: 0 <= i <= |s| && StartsWith(s[i..], part)
  {
    if s == "" {
      assert s[0..] == s;
    } else {
      MentionsSomewhere(s[1..], part);
      assert s[0..] == s;
      assert forall i :: 0 <= i <= |s[1..]| ==> s[1..][i..] == s[i + 1..];
      if i :| 0 <= i <= |s| && StartsWith(s[i..], part) {
        assert i == 0 || s[1..][i - 1..] == s[i..];
      }
      if Mentions(s[1..], part) {
        var i :| 0 <= i <= |s[1..]| && StartsWith(s[1..][i..], part);
        assert StartsWith(s[i + 1..], part);
      }
    }
  }

  /** A cancellation is acknowledged exactly by a command response whose content says so somewhere. */
  lemma AcknowledgesExactlyWhen(frame: JsonMap, drop: DropFilter)
    requires "content" in frame && frame["content"].Str?
    ensures LookAt(frame, drop).cancelAck
       <==> Get(frame, "type") == Str("command_response")
            && exists i :: 0 <= i <= |frame["content"].s| && StartsWith(frame["content"].s[i..], "Cancellation requested")
  {
    MentionsSomewhere(frame["content"].s, "Cancellation requested");
    hide Mentions;
    hide StartsWith;
    hide IsTurnEnd;
    hide IsProgress;
    hide IsCancelReason;
    hide FrameSeq;
    hide FrameTurnId;
    hide Strip;
    hide Lower;
    hide CustomType;
  }

  /** A stream end is a cancellation exactly for these reasons, spelled in any case. */
  lemma CancelsExactlyWhen(frame: JsonMap, drop: DropFilter)
    requires Get(frame, "data").Obj? && Get(Get(frame, "data").fields, "reason").Str?
    ensures var v := LookAt(frame, drop);
      v.cancelReason <==> v.turnEnd && Lower(Strip(Get(Get(frame, "data").fields, "reason").s))
                            in {"cancelled", "canceled", "user_cancelled", "client_disconnect"}
  {
    hide IsTurnEnd;
    hide IsProgress;
    hide FrameSeq;
    hide FrameTurnId;
    hide Strip;
    hide Lower;
    hide CustomType;
    hide Mentions;
  }

  /** A name of a turn is a string that is not blank, trimmed. */
  lemma NamesAreTrimmed(j: Json)
    ensures NonBlank(j).Some? <==> j.Str? && Strip(j.s) != ""
    ensures NonBlank(j).Some? ==> NonBlank(j).value == Strip(j.s) && Trimmed(NonBlank(j).value)
  {
    if j.Str? {
      StripTrims(j.s);
    }
    hide Strip;
  }
}
