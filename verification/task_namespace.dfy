/** Unified tool-call ids and the spawn tables keyed by them (`ux/task_namespace.py`).

    A unified id reads `{step_wire}:{type}:{tool_info}`; `type` is `s` for a step-level call
    and `t{n}` for a call inside the n-th task of that step. */
module TaskNamespace {
  import opened PythonText
  import opened OrderedDict

  /** The spawn that a subgraph belongs to: its `task` call, the subagent, the step. */
  datatype TaskScope = TaskScope(taskCallId: string, subagent: string, stepId: string)

  datatype Level = NotUnified | StepLevel | TaskLevel(index: int)

  datatype ParsedId = ParsedId(stepId: string, level: Level, toolInfo: string)

  type Namespace = seq<string>

  // ---------------------------------------------------------------- printing and parsing

  function StepToWire(stepId: string): string {
    Replace(Strip(stepId), '-', '_')
  }

  function StepFromWire(fragment: string): string {
    Replace(Strip(fragment), '_', '-')
  }

  predicate IsWireStep(fragment: string) {
    var text := Strip(fragment);
    text != "" && '_' in text && '-' !in text
  }

  function ProviderFragment(id: string): string {
    var text := Strip(id);
    if text == "" then text
    else if ':' in text then
      var name, idx := BeforeLast(text, ':'), AfterLast(text, ':');
      if name != "" && AllDigits(idx) then name + ":" + idx else text
    else text
  }

  function TypePart(level: Level): string
    requires !level.NotUnified?
  {
    if level.StepLevel? then "s" else "t" + PrintInt(level.index)
  }

  function Format(stepId: string, level: Level, toolInfo: string): string
    requires !level.NotUnified?
  {
    StepToWire(stepId) + ":" + TypePart(level) + ":" + ProviderFragment(toolInfo)
  }

  function ParseType(part: string): Level {
    if part == "s" then StepLevel
    else if StartsWith(part, "t") && |part| > 1 then
      match ParseInt(part[1..]) case None => NotUnified case Some(n) => TaskLevel(n)
    else NotUnified
  }

  function Parse(id: string): ParsedId {
    var tid := Strip(id);
    var parts := Split(tid, ':');
    if tid == "" then ParsedId("", NotUnified, "")
    else if |parts| < 3 || !IsWireStep(parts[0]) then ParsedId("", NotUnified, tid)
    else
      var level := ParseType(parts[1]);
      var toolInfo := Strip(Join(parts[2..], ':'));
      if level.NotUnified? || toolInfo == "" then ParsedId("", NotUnified, tid)
      else ParsedId(StepFromWire(parts[0]), level, toolInfo)
  }

  function Normalize(id: string): string {
    var tid := Strip(id);
    var p := Parse(tid);
    if tid == "" || p.stepId == "" || p.level.NotUnified? || p.toolInfo == "" then tid
    else Format(p.stepId, p.level, p.toolInfo)
  }

  /** Cutting off the `:idx` and putting it back changes nothing but outer white space. */
  lemma ProviderFragmentStrips(id: string)
    ensures ProviderFragment(id) == Strip(id)
  {
    var text := Strip(id);
    if ':' in text {
      PartitionRejoins(text, ':');
    }
  }

  lemma SplitJoin3(a: string, b: string, rest: string)
    requires ':' !in a && ':' !in b
    ensures Split(a + ":" + b + ":" + rest, ':') == [a, b] + Split(rest, ':')
    ensures Join(Split(a + ":" + b + ":" + rest, ':')[2..], ':') == rest
  {
    hide Split;
    hide Join;
    var tail := b + ":" + rest;
    assert a + ":" + b + ":" + rest == a + ":" + tail;
    SplitHead(a, ':', tail);
    SplitHead(b, ':', rest);
    JoinSplit(rest, ':');
    var parts := [a] + ([b] + Split(rest, ':'));
    assert parts == [a, b] + Split(rest, ':');
    assert parts[2..] == Split(rest, ':');
  }

  lemma TypePartParses(level: Level)
    requires !level.NotUnified?
    ensures ParseType(TypePart(level)) == level
    ensures ':' !in TypePart(level)
  {
    if level.TaskLevel? {
      ParsePrintInt(level.index);
      assert TypePart(level)[1..] == PrintInt(level.index);
    }
  }

  /** What parsing returns for any text printed from parts, in terms of the printed fragment. */
  lemma ParsePrinted(wire: string, level: Level, info: string)
    requires wire != "" && Trimmed(wire) && ':' !in wire
    requires !level.NotUnified?
    requires info != "" && Trimmed(info)
    ensures Strip(wire + ":" + TypePart(level) + ":" + info) == wire + ":" + TypePart(level) + ":" + info
    ensures Parse(wire + ":" + TypePart(level) + ":" + info)
         == if IsWireStep(wire) then ParsedId(Replace(wire, '_', '-'), level, info)
            else ParsedId("", NotUnified, wire + ":" + TypePart(level) + ":" + info)
  {
    var s := wire + ":" + TypePart(level) + ":" + info;
    TypePartParses(level);
    StripTrims(s);
    StripTrims(wire);
    StripTrims(info);
    SplitJoin3(wire, TypePart(level), info);
  }

  /** A step id that survives the wire: trimmed, hyphenated, no underscore and no colon. */
  predicate WireSafeStep(stepId: string) {
    stepId != "" && Trimmed(stepId) && '-' in stepId && '_' !in stepId && ':' !in stepId
  }

  lemma StepWireForm(stepId: string)
    requires WireSafeStep(stepId)
    ensures var w := StepToWire(stepId);
      w != "" && Trimmed(w) && ':' !in w && IsWireStep(w) && Replace(w, '_', '-') == stepId
  {
  }

  /** The round trip, with its exact condition: printing then parsing returns the inputs if
      and only if the step id is hyphenated with no underscore, colon or outer white space and
      the tool info is trimmed and not empty. */
  lemma RoundTrip(stepId: string, level: Level, toolInfo: string)
    requires !level.NotUnified?
    ensures Parse(Format(stepId, level, toolInfo)) == ParsedId(stepId, level, toolInfo)
       <==> (WireSafeStep(stepId) && toolInfo != "" && Trimmed(toolInfo))
  {
    if WireSafeStep(stepId) && toolInfo != "" && Trimmed(toolInfo) {
      ProviderFragmentStrips(toolInfo);
      StripTrims(toolInfo);
      StepWireForm(stepId);
      ParsePrinted(StepToWire(stepId), level, toolInfo);
    }
    var p := Parse(Format(stepId, level, toolInfo));
    if p == ParsedId(stepId, level, toolInfo) {
      ParsedShape(Format(stepId, level, toolInfo));
    }
  }

  /** Every recognised id yields a wire-safe step and a trimmed, non-empty tool info. */
  lemma ParsedShape(id: string)
    ensures !Parse(id).level.NotUnified? ==>
      WireSafeStep(Parse(id).stepId) && Parse(id).toolInfo != "" && Trimmed(Parse(id).toolInfo)
    ensures Parse(id).level.NotUnified? ==> Parse(id) == ParsedId("", NotUnified, Strip(id))
  {
    var parts := Split(Strip(id), ':');
    if !Parse(id).level.NotUnified? {
      assert parts[0] in parts;
      WireStepReads(parts[0]);
      StripTrims(Join(parts[2..], ':'));
      hide Strip;
      hide Replace;
      hide WireSafeStep;
      hide IsWireStep;
    }
  }

  lemma WireStepReads(part: string)
    requires IsWireStep(part) && ':' !in part
    ensures WireSafeStep(StepFromWire(part))
  {
    StripTrims(part);
    StripKeepsAbsence(part, ':');
    var text := Strip(part);
    var k :| 0 <= k < |text| && text[k] == '_';
    assert StepFromWire(part)[k] == '-';
  }

  lemma ParseIgnoresOuterSpace(id: string)
    ensures Parse(Strip(id)) == Parse(id)
  {
    StripTrims(id);
  }

  /** Normalising preserves the parse of every string and is idempotent. */
  lemma NormalizePreservesParse(id: string)
    ensures Parse(Normalize(id)) == Parse(id)
    ensures Normalize(Normalize(id)) == Normalize(id)
  {
    ParseIgnoresOuterSpace(id);
    StripTrims(id);
    var p := Parse(id);
    ParsedShape(id);
    if !p.level.NotUnified? && Strip(id) != "" {
      RoundTrip(p.stepId, p.level, p.toolInfo);
      var n := Format(p.stepId, p.level, p.toolInfo);
      ProviderFragmentStrips(p.toolInfo);
      StripTrims(p.toolInfo);
      StepWireForm(p.stepId);
      ParsePrinted(StepToWire(p.stepId), p.level, p.toolInfo);
      assert Strip(n) == n;
    }
  }

  // ---------------------------------------------------------------- derived readings

  function Shorten(id: string): string {
    var tid := Strip(id);
    var p := Parse(tid);
    if p.stepId != "" && !p.level.NotUnified? && p.toolInfo != "" then p.toolInfo
    else
      var rest := if StartsWith(tid, "functions.") then tid[|"functions."|..] else tid;
      ProviderFragment(rest)
  }

  predicate NamesTask(toolInfo: string) {
    Split(toolInfo, ':')[0] == "task"
  }

  predicate IsStepLevelTask(id: string) {
    var p := Parse(id);
    p.level.StepLevel? && NamesTask(p.toolInfo)
  }

  predicate IsInnerTask(id: string) {
    var p := Parse(id);
    p.level.TaskLevel? && NamesTask(p.toolInfo)
  }

  function ParentTaskId(stepId: string, index: int): string {
    Format(stepId, StepLevel, "task:" + PrintInt(index))
  }

  function ScopeStep(scope: TaskScope): string {
    Strip(scope.stepId)
  }

  function TaskIndex(toolInfo: string): int {
    var tail := AfterLast(toolInfo, ':');
    if AllDigits(tail) then match ParseInt(tail) case Some(n) => n case None => 0
    else 0
  }

  function ScopeIndex(scope: TaskScope): int {
    var id := Strip(scope.taskCallId);
    var p := Parse(id);
    if id == "" || !p.level.StepLevel? || !NamesTask(p.toolInfo) then 0
    else TaskIndex(p.toolInfo)
  }

  function NormalizeStepTask(stepId: string, id: string): string {
    var sid, tcid := Strip(stepId), Strip(id);
    var p := Parse(tcid);
    if sid == "" then tcid
    else if p.stepId != "" && !p.level.NotUnified? && p.toolInfo != "" then
      if p.stepId == sid && p.level.StepLevel? && IsStepLevelTask(tcid) then Normalize(tcid) else tcid
    else
      var short := Shorten(tcid);
      Format(sid, StepLevel, if StartsWith(short, "task") then short else "task:0")
  }

  /** A scope as `register_task_spawn_for_step` receives it for the n-th task of a step. */
  predicate CanonicalScope(scope: TaskScope, stepId: string, n: nat) {
    WireSafeStep(stepId) && scope.stepId == stepId && scope.taskCallId == ParentTaskId(stepId, n)
  }

  lemma TaskInfoReads(n: nat)
    ensures NamesTask("task:" + PrintInt(n)) && TaskIndex("task:" + PrintInt(n)) == n
    ensures Trimmed("task:" + PrintInt(n))
  {
    ParsePrintInt(n);
    var info := "task:" + PrintInt(n);
    assert info == "task" + [':'] + PrintInt(n);
    SplitHead("task", ':', PrintInt(n));
    AfterLastTail("task", ':', PrintInt(n));
    assert AfterLast(PrintInt(n), ':') == PrintInt(n);
  }

  /** The id of a main-graph task delegation reads back as its step and index. */
  lemma CanonicalScopeReads(scope: TaskScope, stepId: string, n: nat)
    requires CanonicalScope(scope, stepId, n)
    ensures ScopeStep(scope) == stepId && ScopeIndex(scope) == n
    ensures Strip(scope.taskCallId) == scope.taskCallId && scope.taskCallId != ""
    ensures IsStepLevelTask(scope.taskCallId) && !IsInnerTask(scope.taskCallId)
  {
    var info := "task:" + PrintInt(n);
    TaskInfoReads(n);
    RoundTrip(stepId, StepLevel, info);
    StripTrims(stepId);
    ProviderFragmentStrips(info);
    StripTrims(info);
    StepWireForm(stepId);
    ParsePrinted(StepToWire(stepId), StepLevel, info);
  }

  /** Distinct tasks have distinct ids. */
  lemma ParentTaskIdInjective(stepId: string, n: nat, stepId': string, n': nat)
    requires WireSafeStep(stepId) && WireSafeStep(stepId')
    requires ParentTaskId(stepId, n) == ParentTaskId(stepId', n')
    ensures stepId == stepId' && n == n'
  {
    CanonicalScopeReads(TaskScope(ParentTaskId(stepId, n), "", stepId), stepId, n);
    CanonicalScopeReads(TaskScope(ParentTaskId(stepId', n'), "", stepId'), stepId', n');
    RoundTrip(stepId, StepLevel, "task:" + PrintInt(n));
    RoundTrip(stepId', StepLevel, "task:" + PrintInt(n'));
    TaskInfoReads(n);
    TaskInfoReads(n');
  }

  // ---------------------------------------------------------------- row keys

  function ScopedKey(namespace: Namespace, id: string, scope: Option<TaskScope>): string {
    var tid := Strip(id);
    var p := Parse(tid);
    if p.stepId != "" && p.level.TaskLevel? then tid
    else
      var short := Shorten(tid);
      if namespace == [] then short
      else
        var step := if scope.Some? then ScopeStep(scope.value) else "";
        var index := if scope.Some? then ScopeIndex(scope.value) else 0;
        if step != "" then Format(step, TaskLevel(index), short)
        else Join(namespace, '/') + "\U{1e}" + short
  }

  function RowKey(namespace: Namespace, id: string, scope: Option<TaskScope>): string {
    var tid := Strip(id);
    var p := Parse(tid);
    if p.level.TaskLevel? then
      if scope.Some? && ScopeStep(scope.value) != ""
         && (p.stepId != ScopeStep(scope.value) || p.level.index != ScopeIndex(scope.value))
      then Format(ScopeStep(scope.value), TaskLevel(ScopeIndex(scope.value)), p.toolInfo)
      else tid
    else ScopedKey(namespace, tid, scope)
  }

  /** Ids that leave something when they are shortened: all but the empty one and a bare
      `functions.`, outer white space aside. */
  predicate Shortens(id: string) {
    Strip(id) != "" && Strip(id) != "functions."
  }

  lemma ShortensMeans(id: string)
    ensures Shortens(id) <==> Shorten(id) != ""
  {
    hide Parse;
    var tid := Strip(id);
    StripTrims(id);
    ParsedShape(tid);
    FunctionsIsNotUnified();
    var rest := if StartsWith(tid, "functions.") then tid[|"functions."|..] else tid;
    ProviderFragmentStrips(rest);
    hide ProviderFragment;
    if rest != "" {
      assert rest[|rest| - 1] == tid[|tid| - 1];
      LastStays(rest);
    }
    hide Strip;
  }

  lemma LastStays(s: string)
    requires s != "" && !IsSpace(s[|s| - 1])
    ensures Strip(s) != ""
  {
    var n := LStripSlice(s);
    assert n < |s|;
    var t := LStrip(s);
    assert t[|t| - 1] == s[|s| - 1];
    assert RStrip(t) == t;
  }

  lemma FunctionsIsNotUnified()
    ensures Parse("functions.").level.NotUnified? && Parse("").level.NotUnified?
    ensures Strip("functions.") == "functions." && Strip("") == ""
  {
    StripTrims("functions.");
    StripTrims("");
    hide Strip;
    hide Parse;
    NoColonNotUnified("functions.");
    NoColonNotUnified("");
  }

  lemma NoColonNotUnified(id: string)
    requires forall k :: 0 <= k < |id| ==> id[k] != ':'
    ensures Parse(id).level.NotUnified?
  {
    StripKeepsAbsence(id, ':');
    assert Split(Strip(id), ':') == [Strip(id)];
  }

  lemma ShortenShape(id: string)
    ensures Trimmed(Shorten(id)) && Shorten(Strip(id)) == Shorten(id)
    ensures Parse(id).level.TaskLevel? ==> Shorten(id) != ""
  {
    StripTrims(id);
    ParsedShape(Strip(id));
    ParseIgnoresOuterSpace(id);
    var tid := Strip(id);
    var rest := if StartsWith(tid, "functions.") then tid[|"functions."|..] else tid;
    ProviderFragmentStrips(rest);
    StripTrims(rest);
  }

  /** Under a canonical bound scope the row key parses to the bound step and index, whatever id was
      stamped, if and only if the id is neither empty nor a bare `functions.`. */
  lemma RowKeyFollowsBinding(namespace: Namespace, id: string, scope: TaskScope, stepId: string, n: nat)
    requires namespace != [] && CanonicalScope(scope, stepId, n)
    ensures var p := Parse(RowKey(namespace, id, Some(scope)));
      (p.stepId == stepId && p.level == TaskLevel(n)) <==> Strip(id) != "" && Strip(id) != "functions."
    ensures Shortens(id) ==> Parse(RowKey(namespace, id, Some(scope))).toolInfo == Shorten(id)
  {
    ShortensMeans(id);
    RowKeyByShort(namespace, id, scope, stepId, n);
    hide Parse;
    hide RowKey;
    hide Strip;
    hide Shorten;
  }

  lemma RowKeyByShort(namespace: Namespace, id: string, scope: TaskScope, stepId: string, n: nat)
    requires namespace != [] && CanonicalScope(scope, stepId, n)
    ensures var p := Parse(RowKey(namespace, id, Some(scope)));
      (p.stepId == stepId && p.level == TaskLevel(n)) <==> Shorten(id) != ""
    ensures Shorten(id) != "" ==> Parse(RowKey(namespace, id, Some(scope))).toolInfo == Shorten(id)
  {
    CanonicalScopeReads(scope, stepId, n);
    ParseIgnoresOuterSpace(id);
    ParsedShape(id);
    ShortenShape(id);
    StripTrims(id);
    var short := Shorten(id);
    assert Parse(id).level.TaskLevel? ==> short == Parse(id).toolInfo;
    hide Shorten;
    hide Parse;
    hide Format;
    hide Strip;
    hide WireSafeStep;
    if short != "" {
      RoundTrip(stepId, TaskLevel(n), short);
    } else {
      EmptyInfoIsNotUnified(stepId, TaskLevel(n));
    }
  }

  lemma EmptyInfoIsNotUnified(stepId: string, level: Level)
    requires WireSafeStep(stepId) && !level.NotUnified?
    ensures Parse(Format(stepId, level, "")).level.NotUnified?
  {
    StepWireForm(stepId);
    TypePartParses(level);
    var s := Format(stepId, level, "");
    assert s == StepToWire(stepId) + ":" + TypePart(level) + ":" + "";
    assert !IsSpace(s[|s| - 1]);
    StripTrims(s);
    SplitJoin3(StepToWire(stepId), TypePart(level), "");
  }

  /** Keying a row key again changes nothing, under the same condition. */
  lemma RowKeyIdempotent(namespace: Namespace, id: string, scope: TaskScope, stepId: string, n: nat)
    requires namespace != [] && CanonicalScope(scope, stepId, n)
    requires Shortens(id)
    ensures var k := RowKey(namespace, id, Some(scope)); RowKey(namespace, k, Some(scope)) == k
  {
    ShortensMeans(id);
    RowKeyByShort(namespace, id, scope, stepId, n);
    CanonicalScopeReads(scope, stepId, n);
    hide Shortens;
    var k := RowKey(namespace, id, Some(scope));
    assert Strip(k) == k by {
      StripTrims(id);
      ShortenShape(id);
      ParsedShape(id);
      ParseIgnoresOuterSpace(id);
      var short := Shorten(id);
      ProviderFragmentStrips(short);
      StripTrims(short);
      StepWireForm(stepId);
      ParsePrinted(StepToWire(stepId), TaskLevel(n), short);
    }
  }

  // ---------------------------------------------------------------- spawn tables

  /** The dictionaries a stream keeps: spawns by step, spawns by task id, namespace bindings. */
  datatype Tables = Tables(
    queue: seq<TaskScope>,
    byStep: map<string, TaskScope>,
    byTask: Dict<string, TaskScope>,
    bindings: map<Namespace, TaskScope>)
  {
    ghost predicate Valid() { byTask.Valid() }

    function Resolve(id: string): Option<TaskScope>
      requires Valid()
    {
      var tcid := Strip(id);
      var p := Parse(tcid);
      if tcid == "" || p.stepId == "" then None
      else if p.level.TaskLevel? then
        var parent := ParentTaskId(p.stepId, p.level.index);
        if byTask.Has(parent) then Some(byTask.Get(parent))
        else
          var found := FirstOf(byTask.Values(), p.stepId, p.level.index);
          if found.Some? then found
          else if exists s :: s in byTask.Values() && ScopeStep(s) == p.stepId then None
          else if p.level.index == 0 then ByStep(p.stepId)
          else None
      else ByStep(p.stepId)
    }

    function ByStep(stepId: string): Option<TaskScope> {
      if stepId in byStep then Some(byStep[stepId]) else None
    }

    /** `register_task_spawn_for_step`. */
    function Registered(scope: TaskScope): (t: Tables)
      ensures Valid() ==> t.Valid()
    {
      var step, callId := ScopeStep(scope), Strip(scope.taskCallId);
      var queued := this.(queue := queue + [scope]);
      if step == "" then queued
      else
        var stored := if callId == "" then queued else queued.(byTask := byTask.Put(callId, scope));
        if step in byStep && IsStepLevelTask(byStep[step].taskCallId)
           && (IsInnerTask(callId)
               || (IsStepLevelTask(callId)
                   && NormalizeStepTask(step, callId) != Strip(byStep[step].taskCallId)))
        then stored
        else stored.(byStep := byStep[step := scope])
    }

    /** `try_bind_namespace_from_tool_call_id`: the new tables and whether a binding changed. */
    function Bound(namespace: Namespace, id: string): (Tables, bool)
      requires Valid()
    {
      var tcid := Strip(id);
      if namespace == [] || tcid == "" || IsInnerTask(tcid) then (this, false)
      else
        var scope := Resolve(tcid);
        if scope.None? || ScopeStep(scope.value) == "" then (this, false)
        else if namespace !in bindings
                || (ScopeStep(bindings[namespace]) != ScopeStep(scope.value)
                    && Parse(tcid).level.TaskLevel? && !NamesTask(Parse(tcid).toolInfo))
        then (this.(bindings := bindings[namespace := scope.value]), true)
        else (this, false)
    }
  }

  function FirstOf(scopes: seq<TaskScope>, stepId: string, index: int): Option<TaskScope> {
    if scopes == [] then None
    else if ScopeStep(scopes[0]) == stepId && ScopeIndex(scopes[0]) == index then Some(scopes[0])
    else FirstOf(scopes[1..], stepId, index)
  }

  function RegisteredAll(t: Tables, scopes: seq<TaskScope>): (r: Tables)
    ensures t.Valid() ==> r.Valid()
    decreases |scopes|
  {
    if scopes == [] then t else RegisteredAll(t.Registered(scopes[0]), scopes[1..])
  }

  /** Registrations under other ids leave an entry alone. */
  lemma {:induction false} OtherRegistrationsKeep(t: Tables, scopes: seq<TaskScope>, id: string)
    requires forall s :: s in scopes ==> ScopeStep(s) == "" || Strip(s.taskCallId) != id
    ensures RegisteredAll(t, scopes).byTask.Has(id) == t.byTask.Has(id)
    ensures t.byTask.Has(id) ==> RegisteredAll(t, scopes).byTask.Get(id) == t.byTask.Get(id)
    decreases |scopes|
  {
    if scopes != [] {
      t.byTask.PutLookup(Strip(scopes[0].taskCallId), scopes[0], id);
      OtherRegistrationsKeep(t.Registered(scopes[0]), scopes[1..], id);
    }
  }

  lemma {:induction false} RegisteredAllSplits(t: Tables, a: seq<TaskScope>, b: seq<TaskScope>)
    ensures RegisteredAll(t, a + b) == RegisteredAll(RegisteredAll(t, a), b)
    decreases |a|
  {
    if a == [] {
      assert a + b == b;
    } else {
      assert (a + b)[0] == a[0] && (a + b)[1..] == a[1..] + b;
      RegisteredAllSplits(t.Registered(a[0]), a[1..], b);
    }
  }

  /** In every history of registrations, each tool id stamped `{step}:t{n}:…` resolves to the
      spawn registered last under that step's n-th task id. */
  lemma SpawnResolves(t: Tables, before: seq<TaskScope>, scope: TaskScope, after: seq<TaskScope>,
                      stepId: string, n: nat, id: string)
    requires t.Valid() && CanonicalScope(scope, stepId, n)
    requires forall s :: s in after ==> ScopeStep(s) == "" || Strip(s.taskCallId) != scope.taskCallId
    requires Parse(id).stepId == stepId && Parse(id).level == TaskLevel(n)
    ensures RegisteredAll(t, before + [scope] + after).Resolve(id) == Some(scope)
  {
    CanonicalScopeReads(scope, stepId, n);
    ParseIgnoresOuterSpace(id);
    var mid := RegisteredAll(t, before);
    var stored := mid.Registered(scope);
    RegisteredAllSplits(t, before, [scope] + after);
    assert before + [scope] + after == before + ([scope] + after);
    assert ([scope] + after)[1..] == after;
    mid.byTask.PutLookup(scope.taskCallId, scope, scope.taskCallId);
    OtherRegistrationsKeep(stored, after, scope.taskCallId);
    ByTaskResolves(RegisteredAll(stored, after), scope, stepId, n, id);
    hide Tables.Resolve;
    hide Parse;
    hide Strip;
  }

  lemma BlankIsNotUnified(id: string)
    ensures Strip(id) == "" ==> Parse(id).level.NotUnified? && Parse(id).stepId == ""
  {
  }

  lemma ByTaskResolves(t: Tables, scope: TaskScope, stepId: string, n: nat, id: string)
    requires t.Valid() && stepId != "" && Parse(id).stepId == stepId && Parse(id).level == TaskLevel(n)
    requires t.byTask.Has(ParentTaskId(stepId, n)) && t.byTask.Get(ParentTaskId(stepId, n)) == scope
    ensures t.Resolve(id) == Some(scope)
  {
    ParseIgnoresOuterSpace(id);
    BlankIsNotUnified(id);
    hide Parse;
    hide ParentTaskId;
    hide Strip;
  }

  lemma FreshBinding(t: Tables, namespace: Namespace, id: string, scope: TaskScope)
    requires t.Valid() && t.Resolve(id) == Some(scope) && ScopeStep(scope) != ""
    requires namespace != [] && namespace !in t.bindings && !IsInnerTask(id)
    ensures t.Bound(namespace, id) == (t.(bindings := t.bindings[namespace := scope]), true)
  {
    ParseIgnoresOuterSpace(id);
    ResolveIgnoresOuterSpace(t, id);
    hide Parse;
    hide Strip;
    hide NamesTask;
    hide ScopeStep;
    hide Tables.Resolve;
  }

  /** An unbound namespace is bound exactly by an id that is no inner task and resolves to a spawn with a
      step; it is bound to that spawn. */
  lemma BindsExactlyWhen(t: Tables, namespace: Namespace, id: string)
    requires t.Valid() && namespace !in t.bindings
    ensures var (after, changed) := t.Bound(namespace, id);
      && (changed <==> namespace != [] && !IsInnerTask(id) && t.Resolve(id).Some?
                       && ScopeStep(t.Resolve(id).value) != "")
      && after == if changed then t.(bindings := t.bindings[namespace := t.Resolve(id).value]) else t
  {
    ParseIgnoresOuterSpace(id);
    ResolveIgnoresOuterSpace(t, id);
    hide Parse;
    hide Strip;
    hide NamesTask;
    hide ScopeStep;
    hide Tables.Resolve;
  }

  // ---------------------------------------------------------------- later registrations and bindings

  datatype Event = Registers(scope: TaskScope) | Tries(namespace: Namespace, id: string)

  function After(t: Tables, e: Event): (r: Tables)
    requires t.Valid()
    ensures r.Valid()
  {
    match e
    case Registers(scope) => t.Registered(scope)
    case Tries(namespace, id) => t.Bound(namespace, id).0
  }

  function AfterAll(t: Tables, events: seq<Event>): (r: Tables)
    requires t.Valid()
    ensures r.Valid()
    decreases |events|
  {
    if events == [] then t else AfterAll(After(t, events[0]), events[1..])
  }

  /** A tool id of a task, met in the namespace, that resolves to a spawn of another step. */
  predicate Moves(t: Tables, e: Event, namespace: Namespace)
    requires t.Valid() && namespace in t.bindings
  {
    && e.Tries? && e.namespace == namespace && namespace != []
    && Parse(e.id).level.TaskLevel? && !NamesTask(Parse(e.id).toolInfo)
    && var found := t.Resolve(e.id);
       found.Some? && ScopeStep(found.value) !in ["", ScopeStep(t.bindings[namespace])]
  }

  ghost predicate NeverMoves(t: Tables, events: seq<Event>, namespace: Namespace)
    requires t.Valid() && namespace in t.bindings
    decreases |events|
  {
    events != [] ==>
      && !Moves(t, events[0], namespace)
      && namespace in After(t, events[0]).bindings
      && NeverMoves(After(t, events[0]), events[1..], namespace)
  }

  /** Bound to this spawn, now and after every one of the events. */
  ghost predicate StaysBound(t: Tables, events: seq<Event>, namespace: Namespace, scope: TaskScope)
    requires t.Valid()
    decreases |events|
  {
    && namespace in t.bindings && t.bindings[namespace] == scope
    && (events != [] ==> StaysBound(After(t, events[0]), events[1..], namespace, scope))
  }

  /** What an attempt does to a namespace that is bound. */
  lemma TryMoves(t: Tables, namespace: Namespace, id: string)
    requires t.Valid() && namespace in t.bindings
    ensures t.Bound(namespace, id).0 ==
      if Moves(t, Tries(namespace, id), namespace)
      then t.(bindings := t.bindings[namespace := t.Resolve(id).value]) else t
  {
    ParseIgnoresOuterSpace(id);
    ResolveIgnoresOuterSpace(t, id);
    hide Parse;
    hide Strip;
    hide NamesTask;
    hide ScopeStep;
    hide Tables.Resolve;
  }

  lemma ResolveIgnoresOuterSpace(t: Tables, id: string)
    requires t.Valid()
    ensures t.Resolve(Strip(id)) == t.Resolve(id) && (Strip(id) == "" ==> t.Resolve(id) == None)
  {
    StripTrims(id);
    hide Parse;
    hide Strip;
    hide Tables.ByStep;
    hide FirstOf;
  }

  lemma OthersAreKept(t: Tables, e: Event, namespace: Namespace)
    requires t.Valid() && namespace in t.bindings && (e.Tries? ==> e.namespace != namespace)
    ensures namespace in After(t, e).bindings && After(t, e).bindings[namespace] == t.bindings[namespace]
  {
    hide Parse;
    hide Strip;
    hide Tables.Resolve;
  }

  lemma MovedExactlyWhen(t: Tables, e: Event, namespace: Namespace)
    requires t.Valid() && namespace in t.bindings
    ensures namespace in After(t, e).bindings
    ensures Moves(t, e, namespace) <==> After(t, e).bindings[namespace] != t.bindings[namespace]
  {
    if e.Tries? && e.namespace == namespace {
      TryMoves(t, namespace, e.id);
    } else {
      OthersAreKept(t, e, namespace);
    }
    hide Parse;
    hide NamesTask;
    hide Strip;
    hide Tables.Resolve;
    hide Tables.Bound;
    hide Tables.Registered;
  }

  /** Once bound, a namespace stays bound to its spawn, whatever is registered and tried later, if and
      only if no tool id of a task of another step is met in it. */
  lemma {:induction false} BindingKeptExactlyWhen(t: Tables, events: seq<Event>, namespace: Namespace)
    requires t.Valid() && namespace in t.bindings
    ensures StaysBound(t, events, namespace, t.bindings[namespace]) <==> NeverMoves(t, events, namespace)
    decreases |events|
  {
    hide Moves;
    hide After;
    if events != [] {
      MovedExactlyWhen(t, events[0], namespace);
      BindingKeptExactlyWhen(After(t, events[0]), events[1..], namespace);
    }
  }

  lemma {:induction false} StillBound(t: Tables, events: seq<Event>, namespace: Namespace, scope: TaskScope)
    requires t.Valid() && StaysBound(t, events, namespace, scope)
    ensures namespace in AfterAll(t, events).bindings && AfterAll(t, events).bindings[namespace] == scope
    decreases |events|
  {
    hide After;
    if events != [] {
      StillBound(After(t, events[0]), events[1..], namespace, scope);
    }
  }

  /** The whole chain: once a spawn is registered, a namespace bound by one of its inner tools makes
      every stamped id key under that spawn's step and index, after any later registrations and
      attempts to bind, as long as no tool of a task of another step is met in the namespace. */
  lemma BoundNamespaceKeysUnderItsSpawn(t: Tables, before: seq<TaskScope>, scope: TaskScope,
                                        after: seq<TaskScope>, stepId: string, n: nat,
                                        namespace: Namespace, id: string, later: seq<Event>, stamped: string)
    requires t.Valid() && CanonicalScope(scope, stepId, n)
    requires forall s :: s in after ==> ScopeStep(s) == "" || Strip(s.taskCallId) != scope.taskCallId
    requires Parse(id).stepId == stepId && Parse(id).level == TaskLevel(n) && !IsInnerTask(id)
    requires namespace != [] && namespace !in RegisteredAll(t, before + [scope] + after).bindings
    requires Shortens(stamped)
    ensures var (bound, changed) := RegisteredAll(t, before + [scope] + after).Bound(namespace, id);
      && changed && bound.Valid() && namespace in bound.bindings
      && (NeverMoves(bound, later, namespace) ==>
            var end := AfterAll(bound, later);
            && namespace in end.bindings
            && Parse(RowKey(namespace, stamped, Some(end.bindings[namespace])))
               == ParsedId(stepId, TaskLevel(n), Shorten(stamped)))
  {
    var all := RegisteredAll(t, before + [scope] + after);
    assert all.Resolve(id) == Some(scope) by {
      SpawnResolves(t, before, scope, after, stepId, n, id);
    }
    assert ScopeStep(scope) != "" by {
      CanonicalScopeReads(scope, stepId, n);
    }
    FreshBinding(all, namespace, id, scope);
    var bound := all.Bound(namespace, id).0;
    if NeverMoves(bound, later, namespace) {
      BindingKeptExactlyWhen(bound, later, namespace);
      StillBound(bound, later, namespace, scope);
    }
    RowKeyFollowsBinding(namespace, stamped, scope, stepId, n);
  }

  /** The mutable tables, as the stream owner holds them. */
  class SpawnTables {
    var queue: seq<TaskScope>
    var byStep: map<string, TaskScope>
    var byTask: Dict<string, TaskScope>
    var bindings: map<Namespace, TaskScope>

    ghost function State(): Tables
      reads this
    {
      Tables(queue, byStep, byTask, bindings)
    }

    constructor ()
      ensures State() == Tables([], map[], Empty(), map[]) && State().Valid()
    {
      queue, byStep, byTask, bindings := [], map[], Empty(), map[];
    }

    method Register(scope: TaskScope)
      requires State().Valid()
      modifies this
      ensures State() == old(State()).Registered(scope) && State().Valid()
    {
      queue := queue + [scope];
      var step, callId := ScopeStep(scope), Strip(scope.taskCallId);
      if step == "" {
        return;
      }
      if callId != "" {
        byTask := byTask.Put(callId, scope);
      }
      if step in byStep && IsStepLevelTask(byStep[step].taskCallId) {
        if IsInnerTask(callId) {
          return;
        }
        if IsStepLevelTask(callId)
           && NormalizeStepTask(step, callId) != Strip(byStep[step].taskCallId) {
          return;
        }
      }
      byStep := byStep[step := scope];
    }

    method TryBind(namespace: Namespace, id: string) returns (changed: bool)
      requires State().Valid()
      modifies this`bindings
      ensures (State(), changed) == old(State()).Bound(namespace, id)
    {
      var tcid := Strip(id);
      if namespace == [] || tcid == "" || IsInnerTask(tcid) {
        return false;
      }
      var scope := Tables(queue, byStep, byTask, bindings).Resolve(tcid);
      if scope.None? || ScopeStep(scope.value) == "" {
        return false;
      }
      if namespace in bindings {
        if ScopeStep(bindings[namespace]) == ScopeStep(scope.value) {
          return false;
        }
        var p := Parse(tcid);
        if p.level.TaskLevel? && !NamesTask(p.toolInfo) {
          bindings := bindings[namespace := scope.value];
          return true;
        }
        return false;
      }
      bindings := bindings[namespace := scope.value];
      return true;
    }

    /** The binding of the longest bound, non-empty prefix of a namespace. */
    method ScopeForNamespace(namespace: Namespace) returns (scope: Option<TaskScope>)
      ensures scope.None? <==> forall k :: 0 < k <= |namespace| ==> namespace[..k] !in bindings
      ensures scope.Some? ==> exists k :: (
        && 0 < k <= |namespace| && namespace[..k] in bindings
        && bindings[namespace[..k]] == scope.value
        && (forall j :: k < j <= |namespace| ==> namespace[..j] !in bindings))
    {
      var length := |namespace|;
      while length > 0
        invariant 0 <= length <= |namespace|
        invariant forall j :: length < j <= |namespace| ==> namespace[..j] !in bindings
      {
        if namespace[..length] in bindings {
          return Some(bindings[namespace[..length]]);
        }
        length := length - 1;
      }
      return None;
    }
  }
}
