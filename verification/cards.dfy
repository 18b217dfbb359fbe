/** Display cards and their wire form (`display/transcript_types.py` and the conversions of
    `display/card_ledger.py`). */
module Cards {
  import opened PythonText
  import opened JsonValues

  datatype MessageType =
    | User | QueuedUser | Assistant | Tool | Skill | Error | App | Summarization
    | StepProgress | CognitionReason | CognitionGoalTree | Diff | PlanReview

  function TypeName(t: MessageType): string {
    match t
    case User => "user"
    case QueuedUser => "queued_user"
    case Assistant => "assistant"
    case Tool => "tool"
    case Skill => "skill"
    case Error => "error"
    case App => "app"
    case Summarization => "summarization"
    case StepProgress => "step_progress"
    case CognitionReason => "cognition_reason"
    case CognitionGoalTree => "cognition_goal_tree"
    case Diff => "diff"
    case PlanReview => "plan_review"
  }

  /** `MessageType(name)`, with `None` for `ValueError`. */
  function TypeNamed(name: string): Option<MessageType> {
    if name == "user" then Some(User)
    else if name == "queued_user" then Some(QueuedUser)
    else if name == "assistant" then Some(Assistant)
    else if name == "tool" then Some(Tool)
    else if name == "skill" then Some(Skill)
    else if name == "error" then Some(Error)
    else if name == "app" then Some(App)
    else if name == "summarization" then Some(Summarization)
    else if name == "step_progress" then Some(StepProgress)
    else if name == "cognition_reason" then Some(CognitionReason)
    else if name == "cognition_goal_tree" then Some(CognitionGoalTree)
    else if name == "diff" then Some(Diff)
    else if name == "plan_review" then Some(PlanReview)
    else None
  }

  lemma TypeNamesRead(t: MessageType)
    ensures TypeNamed(TypeName(t)) == Some(t)
  {
  }

  /** The fields of a card other than its id, type and timestamp. */
  datatype Field =
    | Content
    | ToolName | ToolArgs | ToolStatus | ToolOutput | ToolExpanded | ToolRowsJson
    | DiffFilePath
    | SkillName | SkillDescription | SkillSource | SkillArgs | SkillBody | SkillExpanded
    | StepProgressId | StepProgressDescription | StepProgressPhase | StepSuccess
    | StepDurationMs | StepToolCallCount | StepSummary | StepToolCallsJson
    | CognitionPlanStatus | CognitionPlanIteration | CognitionPlanAction
    | CognitionPlanAssessment | CognitionPlanStrategy | CognitionGoalSnapshotJson
    | LoopOutputPhase | IsStreaming | HeightHint
    | PlanReviewAction | PlanReviewComments | PlanMarkdown | PlanPath | PlanOriginNode

  /** `UPDATABLE_FIELDS`. */
  predicate Updatable(f: Field) {
    match f
    case ToolName | ToolArgs | SkillName | SkillSource | StepProgressId => false
    case _ => true
  }

  function DefaultOf(f: Field): Json {
    match f
    case ToolExpanded | SkillExpanded | IsStreaming => Bool(false)
    case _ => Null
  }

  /** `MessageData`: identity, and one value for every other field. */
  datatype Card = Card(id: string, typ: MessageType, timestamp: Json, fields: map<Field, Json>)

  /** What construction enforces: every field present, a tool has a name, a skill has a name. */
  ghost predicate Coherent(c: Card) {
    && (forall f: Field :: f in c.fields)
    && TypeRule(c.typ, c.fields)
  }

  ghost predicate TypeRule(t: MessageType, fields: map<Field, Json>)
    requires forall f: Field :: f in fields
  {
    (t.Tool? ==> Truthy(fields[ToolName])) && (t.Skill? ==> Truthy(fields[SkillName]))
  }

  predicate StatusName(s: string) {
    s in {"pending", "running", "success", "error", "rejected", "skipped"}
  }

  /** A value `tool_status` can be rebuilt from: not a string, or one of the six names. */
  predicate KnownStatus(v: Json) {
    v.Str? ==> StatusName(v.s)
  }

  /** Keys of a wire dictionary: the identity fields, a field, or any other name. */
  datatype Key = IdKey | TypeKey | TimestampKey | At(field: Field) | Other(name: string)

  type Wire = map<Key, Json>

  datatype Error =
    | BadPayload      // ValueError or TypeError while building a card
    | MissingCardId
    | UnknownCard
    | UnknownOp

  datatype Result<+T> = Ok(value: T) | Err(error: Error)

  /** What `MessageData` draws when the wire names no id or no timestamp. */
  datatype Defaults = Defaults(id: string, timestamp: Json)

  /** `card_to_wire_dict`. */
  function ToWire(c: Card): Wire {
    map[IdKey := Str(c.id), TypeKey := Str(TypeName(c.typ)), TimestampKey := c.timestamp]
    + (map f: Field | f in c.fields :: At(f) := c.fields[f])
  }

  function FieldOf(w: Wire, f: Field): Json {
    if At(f) in w then w[At(f)] else DefaultOf(f)
  }

  predicate IsField(f: Field) { true }

  function FieldsOf(w: Wire): (fields: map<Field, Json>)
    ensures forall f: Field :: f in fields && fields[f] == FieldOf(w, f)
  {
    map f: Field | IsField(f) :: FieldOf(w, f)
  }

  /** `card_from_wire_dict`: unknown keys, a missing type or content, an unknown type or tool
      status, and an incoherent card are refused; everything else has a default. */
  function FromWire(w: Wire, d: Defaults): (r: Result<Card>)
    ensures r.Ok? ==> Coherent(r.value)
  {
    if (exists k :: k in w && k.Other?) || TypeKey !in w || At(Content) !in w then Err(BadPayload)
    else if !w[TypeKey].Str? || TypeNamed(w[TypeKey].s).None? then Err(BadPayload)
    else if IdKey in w && !w[IdKey].Str? then Err(BadPayload)
    else
      var t := TypeNamed(w[TypeKey].s).value;
      var fields := FieldsOf(w);
      if !KnownStatus(fields[ToolStatus]) then Err(BadPayload)
      else if (t.Tool? && !Truthy(fields[ToolName])) || (t.Skill? && !Truthy(fields[SkillName]))
      then Err(BadPayload)
      else Ok(Card(if IdKey in w then w[IdKey].s else d.id, t,
                   if TimestampKey in w then w[TimestampKey] else d.timestamp, fields))
  }

  lemma WireKeys(c: Card)
    ensures var w := ToWire(c);
      && IdKey in w && TypeKey in w && TimestampKey in w
      && w[IdKey] == Str(c.id) && w[TypeKey] == Str(TypeName(c.typ)) && w[TimestampKey] == c.timestamp
      && (forall k :: k in w ==> !k.Other?)
      && (forall f: Field :: f in c.fields ==> At(f) in w && w[At(f)] == c.fields[f])
  {
    hide TypeName;
  }

  lemma WireFields(c: Card)
    requires forall f: Field :: f in c.fields
    ensures FieldsOf(ToWire(c)) == c.fields
  {
  }

  /** A card survives the wire if and only if its tool status is one the wire can name. */
  lemma WireRoundTrip(c: Card, d: Defaults)
    requires Coherent(c)
    ensures FromWire(ToWire(c), d) == Ok(c) <==> KnownStatus(c.fields[ToolStatus])
    ensures FromWire(ToWire(c), d).Ok? <==> KnownStatus(c.fields[ToolStatus])
  {
    hide ToWire;
    hide TypeName;
    hide TypeNamed;
    WireKeys(c);
    WireFields(c);
    TypeNamesRead(c.typ);
  }
}
