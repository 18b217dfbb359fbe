/** Rebound card lists: stable keys, id-preserving alignment, and the diff that carries a ledger
    from one snapshot to the next (`display/card_ledger.py`). */
module CardAlignment {
  import opened PythonText
  import opened JsonValues
  import opened Cards

  /** The short content hash, an uninterpreted function. */
  type Hash = string -> string

  ghost predicate Injective(h: Hash) {
    forall a, b :: h(a) == h(b) ==> a == b
  }

  function FieldIn(c: Card, f: Field): Json {
    if f in c.fields then c.fields[f] else DefaultOf(f)
  }

  // ---------------------------------------------------------------- stable keys

  predicate IsPlan(c: Card) {
    Truthy(FieldIn(c, CognitionPlanStatus)) || Truthy(FieldIn(c, CognitionPlanAction))
  }

  function Phase(c: Card): string {
    if Truthy(FieldIn(c, LoopOutputPhase)) then PyStr(FieldIn(c, LoopOutputPhase)) else "_"
  }

  /** The part of a stable key before its first colon. */
  function KeyHead(c: Card): string {
    match c.typ
    case StepProgress => if Truthy(FieldIn(c, StepProgressId)) then "step" else "step_progress"
    case CognitionReason => if IsPlan(c) then "cognition-plan" else "cognition-reason"
    case CognitionGoalTree => "goal-tree"
    case QueuedUser => "queued-user"
    case Assistant => "asst"
    case t => TypeName(t)
  }

  function KeyTail(c: Card, ordinal: int, h: Hash): string {
    var numbered := "#" + PrintInt(ordinal);
    var content := h(TextOf(FieldIn(c, Content)));
    match c.typ
    case StepProgress => if Truthy(FieldIn(c, StepProgressId)) then PyStr(FieldIn(c, StepProgressId)) else numbered
    case CognitionReason =>
      var it := PyStr(FieldIn(c, CognitionPlanIteration));
      if IsPlan(c) then it else it + ":" + content
    case CognitionGoalTree => h(TextOf(FieldIn(c, CognitionGoalSnapshotJson)))
    case User => content
    case QueuedUser => content
    case Error => content
    case App => content
    case Summarization => content
    case Assistant => Phase(c) + ":" + numbered
    case Diff => if Truthy(FieldIn(c, DiffFilePath)) then PyStr(FieldIn(c, DiffFilePath)) else content
    case Skill => if Truthy(FieldIn(c, SkillName)) then PyStr(FieldIn(c, SkillName)) else numbered
    case Tool => numbered
    case PlanReview => numbered
  }

  /** `card_stable_key`. */
  function StableKey(c: Card, ordinal: int, h: Hash): string {
    KeyHead(c) + ":" + KeyTail(c, ordinal, h)
  }

  function HeadType(head: string): Option<MessageType> {
    if head == "step" then Some(StepProgress)
    else if head == "cognition-plan" || head == "cognition-reason" then Some(CognitionReason)
    else if head == "goal-tree" then Some(CognitionGoalTree)
    else if head == "queued-user" then Some(QueuedUser)
    else if head == "asst" then Some(Assistant)
    else TypeNamed(head)
  }

  lemma HeadNamesType(c: Card)
    ensures HeadType(KeyHead(c)) == Some(c.typ)
    ensures ':' !in KeyHead(c)
  {
    hide Truthy;
    hide FieldIn;
    match c.typ {
      case StepProgress =>
      case CognitionReason =>
      case CognitionGoalTree =>
      case QueuedUser =>
      case Assistant =>
      case t =>
        PlainHead(t);
        hide HeadType;
    }
  }

  lemma PlainHead(t: MessageType)
    requires t !in {CognitionReason, CognitionGoalTree, QueuedUser, Assistant}
    ensures HeadType(TypeName(t)) == Some(t) && ':' !in TypeName(t)
  {
    TypeNamesRead(t);
    hide TypeNamed;
  }

  /** Equal stable keys belong to cards of equal type, whatever the hash. */
  lemma EqualKeysEqualType(a: Card, m: int, b: Card, n: int, h: Hash)
    requires StableKey(a, m, h) == StableKey(b, n, h)
    ensures a.typ == b.typ
  {
    hide KeyHead;
    hide KeyTail;
    hide HeadType;
    HeadNamesType(a);
    HeadNamesType(b);
    FindAt(KeyHead(a), ':', KeyTail(a, m, h));
    FindAt(KeyHead(b), ':', KeyTail(b, n, h));
    var s := StableKey(a, m, h);
    assert s[..Find(s, ':')] == KeyHead(a) && s[..Find(s, ':')] == KeyHead(b);
  }

  /** The counter a card advances while keys are assigned; some cards advance none. */
  function Counter(c: Card): Option<string> {
    if c.typ.Assistant? then Some("asst:" + Phase(c))
    else if c.typ.StepProgress? && Truthy(FieldIn(c, StepProgressId)) then None
    else if c.typ.CognitionReason? && IsPlan(c) then None
    else Some(TypeName(c.typ))
  }

  function Count(cards: seq<Card>, name: string): nat {
    if cards == [] then 0
    else
      var n := |cards| - 1;
      Count(cards[..n], name) + (if Counter(cards[n]) == Some(name) then 1 else 0)
  }

  /** 1 + the number of earlier cards on the same counter. */
  function Ordinal(cards: seq<Card>, i: nat): int
    requires i < |cards|
  {
    match Counter(cards[i])
    case None => 1
    case Some(name) => 1 + Count(cards[..i], name)
  }

  function KeyAt(cards: seq<Card>, i: nat, h: Hash): string
    requires i < |cards|
  {
    StableKey(cards[i], Ordinal(cards, i), h)
  }

  /** `assign_card_stable_keys`, stated per position. */
  function Keys(cards: seq<Card>, h: Hash): (ks: seq<string>)
    ensures |ks| == |cards|
    ensures forall i :: 0 <= i < |cards| ==> ks[i] == KeyAt(cards, i, h)
  {
    seq(|cards|, i requires 0 <= i < |cards| => KeyAt(cards, i, h))
  }

  /** Cards keyed by their text alone share a key when they repeat it. */
  lemma RepeatedTextRepeatsKey(cards: seq<Card>, i: nat, j: nat, h: Hash)
    requires i < |cards| && j < |cards| && cards[i].typ == cards[j].typ
    requires cards[i].typ in {User, QueuedUser, Error, App, Summarization}
    requires FieldIn(cards[i], Content) == FieldIn(cards[j], Content)
    ensures Keys(cards, h)[i] == Keys(cards, h)[j]
  {
  }

  /** One pass with a counter per prefix computes every key. */
  method AssignStableKeys(cards: seq<Card>, h: Hash) returns (keys: seq<string>)
    ensures keys == Keys(cards, h)
  {
    hide StableKey;
    hide Counter;
    var counters: map<string, int> := map[];
    keys := [];
    for i := 0 to |cards|
      invariant |keys| == i
      invariant forall j :: 0 <= j < i ==> keys[j] == KeyAt(cards, j, h)
      invariant forall name :: (if name in counters then counters[name] else 0) == Count(cards[..i], name)
    {
      assert cards[..i + 1][..i] == cards[..i];
      var counter := Counter(cards[i]);
      var ordinal := 1;
      if counter.Some? {
        var name := counter.value;
        ordinal := (if name in counters then counters[name] else 0) + 1;
        counters := counters[name := ordinal];
      }
      keys := keys + [StableKey(cards[i], ordinal, h)];
    }
  }

  // ---------------------------------------------------------------- alignment

  /** The last place of a key, the length when it has none. */
  function LastIndex(keys: seq<string>, key: string): (n: nat)
    ensures n <= |keys| && (n < |keys| ==> keys[n] == key)
    ensures n == |keys| ==> key !in keys
    ensures forall j :: n < j < |keys| ==> keys[j] != key
  {
    if keys == [] then 0
    else
      var last := |keys| - 1;
      if keys[last] == key then last
      else
        var n := LastIndex(keys[..last], key);
        if n == last then |keys| else n
  }

  /** The value a dictionary comprehension keeps for a key: the last one. */
  function LastWith(keys: seq<string>, cards: seq<Card>, key: string): (r: Option<Card>)
    requires |keys| == |cards|
    ensures r.None? <==> key !in keys
    ensures r.Some? ==> exists i :: 0 <= i < |keys| && keys[i] == key && cards[i] == r.value
                          && forall j :: i < j < |keys| ==> keys[j] != key
  {
    var n := LastIndex(keys, key);
    if n < |keys| then Some(cards[n]) else None
  }

  lemma LastWithMore(keys: seq<string>, cards: seq<Card>, n: nat, key: string)
    requires n < |keys| == |cards|
    ensures LastWith(keys[..n + 1], cards[..n + 1], key)
         == if key == keys[n] then Some(cards[n]) else LastWith(keys[..n], cards[..n], key)
  {
    assert keys[..n + 1][..n] == keys[..n];
  }

  predicate Covers(newKeys: seq<string>, prevKeys: seq<string>) {
    forall i :: 0 <= i < |prevKeys| ==> prevKeys[i] in newKeys
  }

  function FreshId(key: string, h: Hash): string { "card-" + h(key) }

  function AlignOne(card: Card, key: string, prior: Option<Card>, h: Hash): Card {
    match prior
    case Some(p) => card.(id := p.id, timestamp := p.timestamp)
    case None => card.(id := FreshId(key, h))
  }

  function Aligned(previous: seq<Card>, cards: seq<Card>, h: Hash): (r: seq<Card>)
    ensures |r| == |cards|
    ensures forall i :: 0 <= i < |cards| ==>
      r[i] == AlignOne(cards[i], Keys(cards, h)[i], LastWith(Keys(previous, h), previous, Keys(cards, h)[i]), h)
  {
    var keys, prevKeys := Keys(cards, h), Keys(previous, h);
    seq(|cards|, i requires 0 <= i < |cards| => AlignOne(cards[i], keys[i], LastWith(prevKeys, previous, keys[i]), h))
  }

  function Lookup(m: map<string, Card>, key: string): Option<Card> {
    if key in m then Some(m[key]) else None
  }

  lemma NothingLast()
    ensures forall k: string :: LastWith([], [], k) == None
  {
  }

  method DictOf(keys: seq<string>, cards: seq<Card>) returns (m: map<string, Card>)
    requires |keys| == |cards|
    ensures forall k :: Lookup(m, k) == LastWith(keys, cards, k)
  {
    hide LastWith;
    m := map[];
    assert forall k: string :: LastWith([], [], k) == None by { NothingLast(); }
    for i := 0 to |cards|
      invariant forall k :: Lookup(m, k) == LastWith(keys[..i], cards[..i], k)
    {
      var more := m[keys[i] := cards[i]];
      forall k: string
        ensures Lookup(more, k) == LastWith(keys[..i + 1], cards[..i + 1], k)
      {
        LastWithMore(keys, cards, i, k);
        assert Lookup(m, k) == LastWith(keys[..i], cards[..i], k);
      }
      m := more;
    }
    assert keys[..|cards|] == keys && cards[..|cards|] == cards;
  }

  lemma KeysMissing(m: map<string, Card>, prevKeys: seq<string>, previous: seq<Card>, newKeys: seq<string>)
    requires |prevKeys| == |previous|
    requires forall k :: Lookup(m, k) == LastWith(prevKeys, previous, k)
    ensures (exists k :: k in m && k !in newKeys) <==> !Covers(newKeys, prevKeys)
  {
    hide LastWith;
    if k :| k in m && k !in newKeys {
      assert Lookup(m, k).Some?;
    }
    if i :| 0 <= i < |prevKeys| && prevKeys[i] !in newKeys {
      assert Lookup(m, prevKeys[i]).Some?;
    }
  }

  /** `align_cards_preserving_ids`: previous ids for known keys, hashed ids for new ones; a full
      replacement is asked for when some previous key has gone. */
  method AlignCardsPreservingIds(previous: seq<Card>, cards: seq<Card>, h: Hash)
    returns (aligned: seq<Card>, needsFullReplace: bool)
    ensures needsFullReplace <==> !Covers(Keys(cards, h), Keys(previous, h))
    ensures aligned == if needsFullReplace then cards else Aligned(previous, cards, h)
  {
    hide KeyAt;
    hide LastWith;
    hide AlignOne;
    hide Covers;
    var prevKeys := AssignStableKeys(previous, h);
    var newKeys := AssignStableKeys(cards, h);
    var prevByKey := DictOf(prevKeys, previous);
    KeysMissing(prevByKey, prevKeys, previous, newKeys);
    if exists k :: k in prevByKey && k !in newKeys {
      return cards, true;
    }
    aligned := [];
    for i := 0 to |cards|
      invariant |aligned| == i
      invariant forall j :: 0 <= j < i ==>
        aligned[j] == AlignOne(cards[j], newKeys[j], Lookup(prevByKey, newKeys[j]), h)
    {
      aligned := aligned + [AlignOne(cards[i], newKeys[i], Lookup(prevByKey, newKeys[i]), h)];
    }
    needsFullReplace := false;
  }
}
