/** Which spawn a step-level id resolves to after any registrations, and what rows of unbound namespaces
    are called (`ux/task_namespace.py`). */
module SpawnHistory {
  import opened PythonText
  import opened OrderedDict
  import opened TaskNamespace

  // ---------------------------------------------------------------- names of rows

  /** Shortening keeps the tool info of a unified id, cuts a leading `functions.` off any other, and trims. */
  lemma ShortensExactly(id: string)
    ensures Shorten(id) ==
      if !Parse(id).level.NotUnified? then Parse(id).toolInfo
      else if StartsWith(Strip(id), "functions.") then Strip(Strip(id)[|"functions."|..])
      else Strip(id)
  {
    StripTrims(id);
    ParseIgnoresOuterSpace(id);
    ParsedShape(id);
    var tid := Strip(id);
    ProviderFragmentStrips(tid);
    if StartsWith(tid, "functions.") {
      ProviderFragmentStrips(tid[|"functions."|..]);
    }
    hide Parse;
    hide Strip;
    hide ProviderFragment;
  }

  /** Without a spawn, a row is called by its own task-level id, trimmed, or by the path of its namespace and
      the shortened id, or outside any namespace by the shortened id alone. */
  lemma UnboundRowsAreCalled(namespace: Namespace, id: string)
    ensures Parse(id).level.TaskLevel? ==> RowKey(namespace, id, None) == Strip(id)
    ensures !Parse(id).level.TaskLevel? && namespace == [] ==> RowKey(namespace, id, None) == Shorten(id)
    ensures !Parse(id).level.TaskLevel? && namespace != [] ==>
      RowKey(namespace, id, None) == Join(namespace, '/') + ['\U{1e}'] + Shorten(id)
  {
    StripTrims(id);
    ParseIgnoresOuterSpace(id);
    ShortenShape(id);
    hide Parse;
    hide Strip;
    hide Shorten;
  }

  /** Two rows of unbound namespaces are called alike only if their paths and short ids agree, as long as
      short ids hold no separator. */
  lemma UnboundRowsDiffer(a: Namespace, x: string, b: Namespace, y: string)
    requires a != [] && b != [] && !Parse(x).level.TaskLevel? && !Parse(y).level.TaskLevel?
    requires '\U{1e}' !in Shorten(x) && '\U{1e}' !in Shorten(y)
    requires RowKey(a, x, None) == RowKey(b, y, None)
    ensures Join(a, '/') == Join(b, '/') && Shorten(x) == Shorten(y)
  {
    hide RowKey;
    hide Shorten;
    hide Parse;
    hide Join;
    UnboundRowsAreCalled(a, x);
    UnboundRowsAreCalled(b, y);
    PartsAgree(Join(a, '/'), Shorten(x), Join(b, '/'), Shorten(y), '\U{1e}');
  }

  lemma PartsAgree(a: string, x: string, b: string, y: string, sep: char)
    requires sep !in x && sep !in y && a + [sep] + x == b + [sep] + y
    ensures a == b && x == y
  {
    AfterLastTail(a, sep, x);
    AfterLastTail(b, sep, y);
    assert x == y;
    assert (a + [sep] + x)[..|a|] == a && (b + [sep] + y)[..|b|] == b;
  }

  // ---------------------------------------------------------------- the spawn of a step

  /** A step-level id resolves to the spawn kept for its step. */
  lemma StepLevelResolves(t: Tables, id: string)
    requires t.Valid() && Parse(id).level.StepLevel?
    ensures t.Resolve(id) == if Parse(id).stepId in t.byStep then Some(t.byStep[Parse(id).stepId]) else None
  {
    ParseIgnoresOuterSpace(id);
    ParsedShape(id);
    BlankIsNotUnified(id);
    hide Parse;
    hide Strip;
  }

  /** Without a spawn registered for the task, a task-level id of the first task of a step falls back to the
      spawn of the step, and any other to none, unless some spawn names its step and index. */
  lemma TaskLevelFallsBack(t: Tables, id: string, stepId: string, n: nat)
    requires t.Valid() && Parse(id).stepId == stepId && Parse(id).level == TaskLevel(n)
    requires !t.byTask.Has(ParentTaskId(stepId, n))
    requires forall s :: s in t.byTask.Values() ==> ScopeStep(s) != stepId
    ensures t.Resolve(id) == if n == 0 && stepId in t.byStep then Some(t.byStep[stepId]) else None
  {
    ParseIgnoresOuterSpace(id);
    ParsedShape(id);
    BlankIsNotUnified(id);
    NoneOfStep(t.byTask.Values(), stepId, n);
    hide Parse;
    hide Strip;
    hide ParentTaskId;
    hide FirstOf;
  }

  /** Failing that, it resolves to the spawn registered earliest among those that name its step and index,
      and to none when spawns name its step but not its index. */
  lemma TaskLevelSearches(t: Tables, id: string, stepId: string, n: nat, i: nat)
    requires t.Valid() && Parse(id).stepId == stepId && Parse(id).level == TaskLevel(n)
    requires !t.byTask.Has(ParentTaskId(stepId, n)) && i < |t.byTask.Values()|
    requires ScopeStep(t.byTask.Values()[i]) == stepId
    ensures var spawns := t.byTask.Values();
      && ((ScopeIndex(spawns[i]) == n
           && (forall k :: 0 <= k < i ==> ScopeStep(spawns[k]) != stepId || ScopeIndex(spawns[k]) != n)) ==>
            t.Resolve(id) == Some(spawns[i]))
      && ((forall k :: 0 <= k < |spawns| ==> ScopeStep(spawns[k]) != stepId || ScopeIndex(spawns[k]) != n) ==>
            t.Resolve(id) == None)
  {
    ParseIgnoresOuterSpace(id);
    ParsedShape(id);
    BlankIsNotUnified(id);
    var spawns := t.byTask.Values();
    FirstFound(spawns, stepId, n, i);
    assert spawns[i] in spawns;
    hide Parse;
    hide Strip;
    hide ParentTaskId;
    hide FirstOf;
    hide ScopeIndex;
    hide ScopeStep;
  }

  lemma {:induction false} FirstFound(scopes: seq<TaskScope>, stepId: string, n: int, i: nat)
    requires i < |scopes|
    ensures (ScopeStep(scopes[i]) == stepId && ScopeIndex(scopes[i]) == n
             && (forall k :: 0 <= k < i ==> ScopeStep(scopes[k]) != stepId || ScopeIndex(scopes[k]) != n)) ==>
      FirstOf(scopes, stepId, n) == Some(scopes[i])
    ensures (forall k :: 0 <= k < |scopes| ==> ScopeStep(scopes[k]) != stepId || ScopeIndex(scopes[k]) != n) ==>
      FirstOf(scopes, stepId, n) == None
    decreases |scopes|
  {
    hide ScopeStep;
    hide ScopeIndex;
    var rest := scopes[1..];
    if i > 0 {
      FirstFound(rest, stepId, n, i - 1);
    } else if rest != [] {
      FirstFound(rest, stepId, n, 0);
    }
  }

  lemma {:induction false} NoneOfStep(scopes: seq<TaskScope>, stepId: string, n: int)
    requires forall s :: s in scopes ==> ScopeStep(s) != stepId
    ensures FirstOf(scopes, stepId, n) == None
  {
    if scopes != [] {
      NoneOfStep(scopes[1..], stepId, n);
    }
  }

  /** A spawn of the step that does not displace its n-th task: an inner task, or another one. */
  ghost predicate Yields(s: TaskScope, stepId: string, n: nat) {
    ScopeStep(s) == stepId ==>
      IsInnerTask(s.taskCallId) || exists m: nat :: m != n && CanonicalScope(s, stepId, m)
  }

  lemma CanonicalIsNormal(s: TaskScope, stepId: string, m: nat)
    requires CanonicalScope(s, stepId, m)
    ensures NormalizeStepTask(stepId, Strip(s.taskCallId)) == s.taskCallId
  {
    CanonicalScopeReads(s, stepId, m);
    var info := "task:" + PrintInt(m);
    TaskInfoReads(m);
    StripTrims(stepId);
    RoundTrip(stepId, StepLevel, info);
    assert Parse(s.taskCallId) == ParsedId(stepId, StepLevel, info);
    assert Normalize(s.taskCallId) == Format(stepId, StepLevel, info);
    hide Parse;
    hide Normalize;
    hide Format;
    hide Strip;
    hide NamesTask;
  }

  lemma InnerIgnoresOuterSpace(id: string)
    ensures IsInnerTask(Strip(id)) == IsInnerTask(id) && IsStepLevelTask(Strip(id)) == IsStepLevelTask(id)
    ensures IsInnerTask(id) ==> !IsStepLevelTask(id)
  {
    ParseIgnoresOuterSpace(id);
    hide Parse;
    hide Strip;
  }

  lemma OneYields(t: Tables, s: TaskScope, scope: TaskScope, stepId: string, n: nat)
    requires CanonicalScope(scope, stepId, n) && stepId in t.byStep && t.byStep[stepId] == scope
    requires Yields(s, stepId, n)
    ensures stepId in t.Registered(s).byStep && t.Registered(s).byStep[stepId] == scope
  {
    CanonicalScopeReads(scope, stepId, n);
    InnerIgnoresOuterSpace(s.taskCallId);
    if ScopeStep(s) == stepId && !IsInnerTask(s.taskCallId) {
      var m: nat :| m != n && CanonicalScope(s, stepId, m);
      CanonicalIsNormal(s, stepId, m);
      CanonicalScopeReads(s, stepId, m);
      if s.taskCallId == scope.taskCallId {
        ParentTaskIdInjective(stepId, n, stepId, m);
      }
    }
    hide CanonicalScope;
    hide NormalizeStepTask;
    hide IsInnerTask;
    hide IsStepLevelTask;
    hide Strip;
  }

  lemma {:induction false} AllYield(t: Tables, scopes: seq<TaskScope>, scope: TaskScope, stepId: string, n: nat)
    requires CanonicalScope(scope, stepId, n) && stepId in t.byStep && t.byStep[stepId] == scope
    requires forall s :: s in scopes ==> Yields(s, stepId, n)
    ensures stepId in RegisteredAll(t, scopes).byStep && RegisteredAll(t, scopes).byStep[stepId] == scope
    decreases |scopes|
  {
    hide Yields;
    hide CanonicalScope;
    hide Tables.Registered;
    if scopes != [] {
      OneYields(t, scopes[0], scope, stepId, n);
      AllYield(t.Registered(scopes[0]), scopes[1..], scope, stepId, n);
    }
  }

  /** No task of the step was delegated so far: nothing is kept for it, or an inner task is. */
  predicate NoTaskYet(t: Tables, stepId: string) {
    stepId in t.byStep ==> IsInnerTask(t.byStep[stepId].taskCallId)
  }

  lemma OneInner(t: Tables, s: TaskScope, stepId: string)
    requires NoTaskYet(t, stepId) && (ScopeStep(s) == stepId ==> IsInnerTask(s.taskCallId))
    ensures NoTaskYet(t.Registered(s), stepId)
  {
    hide IsInnerTask;
    hide IsStepLevelTask;
    hide NormalizeStepTask;
    hide Strip;
  }

  lemma {:induction false} OnlyInner(t: Tables, scopes: seq<TaskScope>, stepId: string)
    requires NoTaskYet(t, stepId)
    requires forall s :: s in scopes && ScopeStep(s) == stepId ==> IsInnerTask(s.taskCallId)
    ensures NoTaskYet(RegisteredAll(t, scopes), stepId)
    decreases |scopes|
  {
    hide NoTaskYet;
    hide IsInnerTask;
    hide Tables.Registered;
    if scopes != [] {
      OneInner(t, scopes[0], stepId);
      OnlyInner(t.Registered(scopes[0]), scopes[1..], stepId);
    }
  }

  lemma TakesOver(t: Tables, scope: TaskScope, stepId: string, n: nat)
    requires NoTaskYet(t, stepId) && CanonicalScope(scope, stepId, n)
    ensures stepId in t.Registered(scope).byStep && t.Registered(scope).byStep[stepId] == scope
  {
    CanonicalScopeReads(scope, stepId, n);
    if stepId in t.byStep {
      InnerIgnoresOuterSpace(t.byStep[stepId].taskCallId);
    }
    hide CanonicalScope;
    hide NormalizeStepTask;
    hide IsInnerTask;
    hide IsStepLevelTask;
    hide Strip;
  }

  /** In every history of registrations, the first task delegated at a step takes the step over from inner
      tasks, and keeps it against inner tasks and its other tasks: every step-level id of the step resolves
      to it. */
  lemma FirstTaskKeepsTheStep(t: Tables, before: seq<TaskScope>, scope: TaskScope, after: seq<TaskScope>,
                              stepId: string, n: nat, id: string)
    requires t.Valid() && NoTaskYet(t, stepId) && CanonicalScope(scope, stepId, n)
    requires forall s :: s in before && ScopeStep(s) == stepId ==> IsInnerTask(s.taskCallId)
    requires forall s :: s in after ==> Yields(s, stepId, n)
    requires Parse(id).stepId == stepId && Parse(id).level.StepLevel?
    ensures RegisteredAll(t, before + [scope] + after).Resolve(id) == Some(scope)
  {
    hide CanonicalScope;
    hide Yields;
    hide NoTaskYet;
    hide Parse;
    hide IsInnerTask;
    hide Tables.Resolve;
    hide Tables.Registered;
    OnlyInner(t, before, stepId);
    var mid := RegisteredAll(t, before);
    TakesOver(mid, scope, stepId, n);
    AllYield(mid.Registered(scope), after, scope, stepId, n);
    InThree(t, before, scope, after);
    StepLevelResolves(RegisteredAll(t, before + [scope] + after), id);
  }

  lemma InThree(t: Tables, before: seq<TaskScope>, scope: TaskScope, after: seq<TaskScope>)
    ensures RegisteredAll(t, before + [scope] + after)
         == RegisteredAll(RegisteredAll(t, before).Registered(scope), after)
  {
    hide Tables.Registered;
    RegisteredAllSplits(t, before, [scope] + after);
    assert before + [scope] + after == before + ([scope] + after);
    assert ([scope] + after)[1..] == after;
  }

  // ---------------------------------------------------------------- ids of delegations

  /** The id of a delegation at a step: an id that is not unified becomes one of the step, under its own short
      form if that names a task and as its first task otherwise; a delegation id of the step is put into its
      normal form; and any other unified id is left alone. */
  lemma NormalizesDelegations(stepId: string, id: string)
    requires WireSafeStep(stepId)
    ensures var p, out := Parse(id), NormalizeStepTask(stepId, id);
      && (!p.level.NotUnified? && !(p.stepId == stepId && IsStepLevelTask(id)) ==> out == Strip(id))
      && (p.stepId == stepId && IsStepLevelTask(id) ==> out == Normalize(id))
      && (p.level.NotUnified? ==>
            Parse(out) == ParsedId(stepId, StepLevel,
                                   if StartsWith(Shorten(id), "task") then Shorten(id) else "task:0"))
  {
    StripTrims(id);
    StripTrims(stepId);
    ParseIgnoresOuterSpace(id);
    InnerIgnoresOuterSpace(id);
    ParsedShape(id);
    ShortenShape(id);
    TaskInfoReads(0);
    assert PrintInt(0) == "0";
    NormalOfStripped(id);
    RoundTrip(stepId, StepLevel, Shorten(id));
    RoundTrip(stepId, StepLevel, "task:0");
    hide Parse;
    hide Strip;
    hide Shorten;
    hide Format;
    hide Normalize;
    hide WireSafeStep;
    hide NamesTask;
  }

  lemma NormalOfStripped(id: string)
    ensures Normalize(Strip(id)) == Normalize(id)
  {
    StripTrims(id);
    ParseIgnoresOuterSpace(id);
    hide Parse;
    hide Format;
  }

  /** The index of a spawn is the number its delegation id ends in; without one, or without such an id, zero. */
  lemma IndexesSpawns(scope: TaskScope)
    ensures !IsStepLevelTask(scope.taskCallId) ==> ScopeIndex(scope) == 0
    ensures IsStepLevelTask(scope.taskCallId) ==>
      var tail := AfterLast(Parse(scope.taskCallId).toolInfo, ':');
      && (AllDigits(tail) && ParseInt(tail).Some? ==> ScopeIndex(scope) == ParseInt(tail).value)
      && (!AllDigits(tail) ==> ScopeIndex(scope) == 0)
  {
    ParseIgnoresOuterSpace(scope.taskCallId);
    BlankIsNotUnified(scope.taskCallId);
    hide Parse;
    hide Strip;
    hide NamesTask;
    hide AllDigits;
    hide ParseInt;
    hide AfterLast;
  }
}
