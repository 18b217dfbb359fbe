/** What a stable key stands for: exactly when two cards share one, in the cards' own fields, and which
    previous card a rebound card takes its identity from (`display/card_ledger.py`). */
module CardKeys {
  import opened PythonText
  import opened JsonValues
  import opened Cards
  import opened CardAlignment

  /** A hash without collisions whose text has no colon, as a hexadecimal digest has none. */
  ghost predicate Digest(h: Hash) {
    Injective(h) && forall s: string :: ':' !in h(s)
  }

  predicate Given(c: Card, f: Field) { Truthy(FieldIn(c, f)) }

  function Shown(c: Card, f: Field): string { PyStr(FieldIn(c, f)) }

  function Words(c: Card, f: Field): string { TextOf(FieldIn(c, f)) }

  predicate PlanCard(c: Card) { Given(c, CognitionPlanStatus) || Given(c, CognitionPlanAction) }

  function PhaseOf(c: Card): string {
    if Given(c, LoopOutputPhase) then Shown(c, LoopOutputPhase) else "_"
  }

  /** Cards of one type stand for the same thing: step cards by step id; plans by iteration; reasons by
      iteration and content; goal trees by snapshot; messages by content; diffs by path, else content;
      skills by name; and what has no such field by its number, assistants within their phase. The two
      exceptions are a diff path that reads like a hash, and a skill name that reads like a number. */
  predicate StandsFor(a: Card, m: int, b: Card, n: int, h: Hash)
    requires a.typ == b.typ
  {
    match a.typ
    case StepProgress =>
      if Given(a, StepProgressId) && Given(b, StepProgressId) then Shown(a, StepProgressId) == Shown(b, StepProgressId)
      else !Given(a, StepProgressId) && !Given(b, StepProgressId) && m == n
    case CognitionReason =>
      && PlanCard(a) == PlanCard(b) && Shown(a, CognitionPlanIteration) == Shown(b, CognitionPlanIteration)
      && (!PlanCard(a) ==> Words(a, Content) == Words(b, Content))
    case CognitionGoalTree => Words(a, CognitionGoalSnapshotJson) == Words(b, CognitionGoalSnapshotJson)
    case Assistant => PhaseOf(a) == PhaseOf(b) && m == n
    case Tool => m == n
    case PlanReview => m == n
    case Diff =>
      if Given(a, DiffFilePath) && Given(b, DiffFilePath) then Shown(a, DiffFilePath) == Shown(b, DiffFilePath)
      else if Given(a, DiffFilePath) then Shown(a, DiffFilePath) == h(Words(b, Content))
      else if Given(b, DiffFilePath) then Shown(b, DiffFilePath) == h(Words(a, Content))
      else Words(a, Content) == Words(b, Content)
    case Skill =>
      if Given(a, SkillName) && Given(b, SkillName) then Shown(a, SkillName) == Shown(b, SkillName)
      else if Given(a, SkillName) then Shown(a, SkillName) == "#" + PrintInt(n)
      else if Given(b, SkillName) then Shown(b, SkillName) == "#" + PrintInt(m)
      else m == n
    case _ => Words(a, Content) == Words(b, Content)
  }

  lemma KeyParts(a: Card, m: int, b: Card, n: int, h: Hash)
    ensures StableKey(a, m, h) == StableKey(b, n, h)
       <==> KeyHead(a) == KeyHead(b) && KeyTail(a, m, h) == KeyTail(b, n, h)
  {
    HeadNamesType(a);
    HeadNamesType(b);
    hide KeyHead;
    hide KeyTail;
    hide HeadType;
    FindAt(KeyHead(a), ':', KeyTail(a, m, h));
    FindAt(KeyHead(b), ':', KeyTail(b, n, h));
    var s := StableKey(a, m, h);
    if s == StableKey(b, n, h) {
      assert s[..Find(s, ':')] == KeyHead(a) && s[..Find(s, ':')] == KeyHead(b);
      assert s[Find(s, ':') + 1..] == KeyTail(a, m, h) && s[Find(s, ':') + 1..] == KeyTail(b, n, h);
    }
  }

  lemma NumbersDiffer(m: int, n: int)
    ensures PrintInt(m) == PrintInt(n) <==> m == n
    ensures "#" + PrintInt(m) == "#" + PrintInt(n) <==> m == n
    ensures ':' !in "#" + PrintInt(m)
  {
    ParsePrintInt(m);
    ParsePrintInt(n);
    hide PrintInt;
    assert ("#" + PrintInt(m))[1..] == PrintInt(m) && ("#" + PrintInt(n))[1..] == PrintInt(n);
  }

  /** Two parts, the second without a colon, are read back from their join. */
  lemma PairsDiffer(a: string, x: string, b: string, y: string)
    requires ':' !in x && ':' !in y
    ensures a + ":" + x == b + ":" + y <==> a == b && x == y
  {
    AfterLastTail(a, ':', x);
    AfterLastTail(b, ':', y);
    if a + ":" + x == b + ":" + y {
      assert a + ":" + x == a + [':'] + x && b + ":" + y == b + [':'] + y;
      assert x == y;
      assert (a + ":" + x)[..|a|] == a && (b + ":" + y)[..|b|] == b;
    }
  }

  lemma HashesDiffer(h: Hash, a: string, b: string)
    requires Digest(h)
    ensures h(a) == h(b) <==> a == b
    ensures ':' !in h(a)
  {
  }

  lemma SameStep(a: Card, m: int, b: Card, n: int, h: Hash)
    requires a.typ == b.typ == StepProgress
    ensures StableKey(a, m, h) == StableKey(b, n, h) <==> StandsFor(a, m, b, n, h)
  {
    KeyParts(a, m, b, n, h);
    NumbersDiffer(m, n);
    assert "step" != "step_progress" by { assert |"step"| != |"step_progress"|; }
    hide StableKey;
    hide PyStr;
    hide PrintInt;
    hide Truthy;
    hide FieldIn;
  }

  lemma SameThought(a: Card, m: int, b: Card, n: int, h: Hash)
    requires a.typ == b.typ == CognitionReason && Digest(h)
    ensures StableKey(a, m, h) == StableKey(b, n, h) <==> StandsFor(a, m, b, n, h)
  {
    KeyParts(a, m, b, n, h);
    HashesDiffer(h, Words(a, Content), Words(b, Content));
    HashesDiffer(h, Words(b, Content), Words(a, Content));
    PairsDiffer(Shown(a, CognitionPlanIteration), h(Words(a, Content)),
                Shown(b, CognitionPlanIteration), h(Words(b, Content)));
    assert "cognition-plan" != "cognition-reason" by { assert |"cognition-plan"| != |"cognition-reason"|; }
    hide StableKey;
    hide PyStr;
    hide TextOf;
    hide PrintInt;
    hide Truthy;
    hide FieldIn;
    hide Digest;
  }

  lemma SameReply(a: Card, m: int, b: Card, n: int, h: Hash)
    requires a.typ == b.typ == Assistant
    ensures StableKey(a, m, h) == StableKey(b, n, h) <==> StandsFor(a, m, b, n, h)
  {
    KeyParts(a, m, b, n, h);
    NumbersDiffer(m, n);
    NumbersDiffer(n, m);
    PairsDiffer(PhaseOf(a), "#" + PrintInt(m), PhaseOf(b), "#" + PrintInt(n));
    hide StableKey;
    hide PyStr;
    hide PrintInt;
    hide Truthy;
    hide FieldIn;
  }

  lemma SameNamed(a: Card, m: int, b: Card, n: int, h: Hash)
    requires a.typ == b.typ && a.typ in {Diff, Skill, Tool, PlanReview} && Digest(h)
    ensures StableKey(a, m, h) == StableKey(b, n, h) <==> StandsFor(a, m, b, n, h)
  {
    KeyParts(a, m, b, n, h);
    NumbersDiffer(m, n);
    HashesDiffer(h, Words(a, Content), Words(b, Content));
    hide StableKey;
    hide PyStr;
    hide TextOf;
    hide PrintInt;
    hide Truthy;
    hide FieldIn;
    hide Digest;
    hide TypeName;
  }

  lemma SameWords(a: Card, m: int, b: Card, n: int, h: Hash)
    requires a.typ == b.typ && a.typ in {CognitionGoalTree, User, QueuedUser, Error, App, Summarization} && Digest(h)
    ensures StableKey(a, m, h) == StableKey(b, n, h) <==> StandsFor(a, m, b, n, h)
  {
    KeyParts(a, m, b, n, h);
    HashesDiffer(h, Words(a, Content), Words(b, Content));
    HashesDiffer(h, Words(a, CognitionGoalSnapshotJson), Words(b, CognitionGoalSnapshotJson));
    hide StableKey;
    hide TextOf;
    hide PrintInt;
    hide FieldIn;
    hide Digest;
    hide TypeName;
  }

  /** Two cards have one key, under their numbers, if and only if they are of one type and stand for the
      same thing. */
  lemma SameKeyExactlyWhen(a: Card, m: int, b: Card, n: int, h: Hash)
    requires Digest(h)
    ensures StableKey(a, m, h) == StableKey(b, n, h) <==> a.typ == b.typ && StandsFor(a, m, b, n, h)
  {
    hide StableKey;
    hide StandsFor;
    hide Digest;
    if a.typ != b.typ {
      if StableKey(a, m, h) == StableKey(b, n, h) {
        EqualKeysEqualType(a, m, b, n, h);
      }
    } else {
      match a.typ {
        case StepProgress => SameStep(a, m, b, n, h);
        case CognitionReason => SameThought(a, m, b, n, h);
        case Assistant => SameReply(a, m, b, n, h);
        case Diff => SameNamed(a, m, b, n, h);
        case Skill => SameNamed(a, m, b, n, h);
        case Tool => SameNamed(a, m, b, n, h);
        case PlanReview => SameNamed(a, m, b, n, h);
        case _ => SameWords(a, m, b, n, h);
      }
    }
  }

  // ---------------------------------------------------------------- numbers

  /** Cards that share a counter. */
  predicate CountedWith(a: Card, b: Card) {
    && a.typ == b.typ
    && (a.typ.Assistant? ==> PhaseOf(a) == PhaseOf(b))
    && (a.typ.StepProgress? ==> !Given(a, StepProgressId) && !Given(b, StepProgressId))
    && (a.typ.CognitionReason? ==> !PlanCard(a) && !PlanCard(b))
  }

  /** How many earlier cards share the counter of the i-th, among the first `n`. */
  function Before(cards: seq<Card>, i: nat, n: nat): nat
    requires n <= i < |cards|
  {
    if n == 0 then 0 else Before(cards, i, n - 1) + if CountedWith(cards[n - 1], cards[i]) then 1 else 0
  }

  lemma CounterShared(a: Card, b: Card)
    ensures Counter(b).Some? ==> (Counter(a) == Counter(b) <==> CountedWith(a, b))
    ensures Counter(b).None? <==> !CountedWith(b, b)
  {
    if a.typ == Assistant && b.typ == Assistant && Counter(a) == Counter(b) {
      assert ("asst:" + PhaseOf(a))[5..] == PhaseOf(a) && ("asst:" + PhaseOf(b))[5..] == PhaseOf(b);
    }
    PlainTypes(a.typ, b.typ);
    PlainTypes(b.typ, a.typ);
    hide TypeName;
    hide Truthy;
    hide FieldIn;
    hide PyStr;
  }

  lemma PlainTypes(a: MessageType, b: MessageType)
    ensures TypeName(a) == TypeName(b) <==> a == b
    ensures forall p: string :: "asst:" + p != TypeName(a)
  {
    TypeNamesRead(a);
    TypeNamesRead(b);
    hide TypeNamed;
    forall p: string
      ensures "asst:" + p != TypeName(a)
    {
      assert ("asst:" + p)[4] == ':';
    }
  }

  lemma {:induction false} CountsBefore(cards: seq<Card>, i: nat, n: nat)
    requires n <= i < |cards| && Counter(cards[i]).Some?
    ensures Count(cards[..n], Counter(cards[i]).value) == Before(cards, i, n)
  {
    hide Counter;
    hide CountedWith;
    if n > 0 {
      CountsBefore(cards, i, n - 1);
      CounterShared(cards[n - 1], cards[i]);
      assert cards[..n][..n - 1] == cards[..n - 1];
    }
  }

  /** The number of a card is one more than the number of earlier cards of its type, assistants counted
      within their phase; cards that stand for a step or a plan have number one. */
  lemma NumbersCountEarlier(cards: seq<Card>, i: nat)
    requires i < |cards|
    ensures Ordinal(cards, i) == if CountedWith(cards[i], cards[i]) then 1 + Before(cards, i, i) else 1
  {
    CounterShared(cards[i], cards[i]);
    hide Counter;
    hide CountedWith;
    if Counter(cards[i]).Some? {
      CountsBefore(cards, i, i);
    }
  }

  lemma {:induction false} BeforeGrows(cards: seq<Card>, i: nat, j: nat, n: nat)
    requires n <= i < j < |cards| && CountedWith(cards[i], cards[j])
    ensures Before(cards, i, n) == Before(cards, j, n)
  {
    if n > 0 {
      BeforeGrows(cards, i, j, n - 1);
      assert CountedWith(cards[n - 1], cards[i]) == CountedWith(cards[n - 1], cards[j]);
    }
  }

  lemma {:induction false} BeforeMonotone(cards: seq<Card>, j: nat, m: nat, n: nat)
    requires m <= n <= j < |cards|
    ensures Before(cards, j, m) <= Before(cards, j, n)
    decreases n - m
  {
    if m < n {
      BeforeMonotone(cards, j, m, n - 1);
    }
  }

  /** Cards on one counter have different numbers. */
  lemma NumbersRise(cards: seq<Card>, i: nat, j: nat)
    requires i < j < |cards| && CountedWith(cards[i], cards[j])
    ensures Ordinal(cards, i) < Ordinal(cards, j)
  {
    NumbersCountEarlier(cards, i);
    NumbersCountEarlier(cards, j);
    BeforeGrows(cards, i, j, i);
    BeforeMonotone(cards, j, i + 1, j);
  }

  // ---------------------------------------------------------------- within a list, and across a rebind

  /** Two cards of a list share a key exactly when they stand for the same thing. Assistants, tools, plan
      reviews, steps without an id and skills without a name never do. */
  lemma SharedKeyExactlyWhen(cards: seq<Card>, i: nat, j: nat, h: Hash)
    requires Digest(h) && i < j < |cards|
    ensures Keys(cards, h)[i] == Keys(cards, h)[j]
       <==> (cards[i].typ == cards[j].typ
             && StandsFor(cards[i], Ordinal(cards, i), cards[j], Ordinal(cards, j), h))
    ensures cards[i].typ in {Assistant, Tool, PlanReview} ==> Keys(cards, h)[i] != Keys(cards, h)[j]
    ensures cards[i].typ.StepProgress? && !Given(cards[i], StepProgressId) ==> Keys(cards, h)[i] != Keys(cards, h)[j]
    ensures cards[i].typ.Skill? && !Given(cards[i], SkillName) && !Given(cards[j], SkillName) ==>
      Keys(cards, h)[i] != Keys(cards, h)[j]
  {
    SameKeyExactlyWhen(cards[i], Ordinal(cards, i), cards[j], Ordinal(cards, j), h);
    if CountedWith(cards[i], cards[j]) {
      NumbersRise(cards, i, j);
    }
    hide StableKey;
    hide Ordinal;
    hide Digest;
    hide Truthy;
    hide FieldIn;
    hide PyStr;
    hide TextOf;
    hide PrintInt;
  }

  /** The j-th previous card is the last one that stands for what the i-th new card stands for. */
  ghost predicate LastAlike(previous: seq<Card>, j: nat, cards: seq<Card>, i: nat, h: Hash)
    requires j < |previous| && i < |cards|
  {
    && Alike(previous, j, cards, i, h)
    && forall k :: j < k < |previous| ==> !Alike(previous, k, cards, i, h)
  }

  ghost predicate Alike(previous: seq<Card>, j: nat, cards: seq<Card>, i: nat, h: Hash)
    requires j < |previous| && i < |cards|
  {
    previous[j].typ == cards[i].typ
    && StandsFor(previous[j], Ordinal(previous, j), cards[i], Ordinal(cards, i), h)
  }

  lemma AlikeSharesKey(previous: seq<Card>, j: nat, cards: seq<Card>, i: nat, h: Hash)
    requires Digest(h) && j < |previous| && i < |cards|
    ensures Alike(previous, j, cards, i, h) <==> Keys(previous, h)[j] == Keys(cards, h)[i]
  {
    SameKeyExactlyWhen(previous[j], Ordinal(previous, j), cards[i], Ordinal(cards, i), h);
    hide StableKey;
    hide StandsFor;
    hide Ordinal;
    hide Digest;
  }

  lemma LastWithIs(keys: seq<string>, cards: seq<Card>, key: string, j: nat)
    requires |keys| == |cards| && j < |keys| && keys[j] == key && forall k :: j < k < |keys| ==> keys[k] != key
    ensures LastWith(keys, cards, key) == Some(cards[j])
  {
    var n := LastIndex(keys, key);
    assert n == j;
  }

  /** A rebound card takes id and timestamp from the last previous card that stands for the same thing,
      and a hashed id when there is none; everything else is its own. */
  lemma TakesIdentityFromItsLike(previous: seq<Card>, cards: seq<Card>, h: Hash, i: nat)
    requires Digest(h) && i < |cards|
    ensures forall j | 0 <= j < |previous| && LastAlike(previous, j, cards, i, h) ::
      Aligned(previous, cards, h)[i] == cards[i].(id := previous[j].id, timestamp := previous[j].timestamp)
    ensures (forall j :: 0 <= j < |previous| ==> !Alike(previous, j, cards, i, h)) ==>
      Aligned(previous, cards, h)[i] == cards[i].(id := "card-" + h(Keys(cards, h)[i]))
  {
    hide Alike;
    hide KeyAt;
    hide Digest;
    hide LastWith;
    var prevKeys, key := Keys(previous, h), Keys(cards, h)[i];
    forall j | 0 <= j < |previous|
      ensures Alike(previous, j, cards, i, h) <==> prevKeys[j] == key
    {
      AlikeSharesKey(previous, j, cards, i, h);
    }
    forall j | 0 <= j < |previous| && LastAlike(previous, j, cards, i, h)
      ensures LastWith(prevKeys, previous, key) == Some(previous[j])
    {
      LastWithIs(prevKeys, previous, key, j);
    }
    if forall j :: 0 <= j < |previous| ==> !Alike(previous, j, cards, i, h) {
      assert key !in prevKeys;
    }
  }

  /** A step card keeps the identity of the last previous card of its own step, whatever else either list
      holds. */
  lemma StepKeepsItsIdentity(previous: seq<Card>, cards: seq<Card>, h: Hash, i: nat, j: nat)
    requires Digest(h) && i < |cards| && j < |previous|
    requires cards[i].typ.StepProgress? && Given(cards[i], StepProgressId)
    requires previous[j].typ.StepProgress? && Given(previous[j], StepProgressId)
    requires Shown(previous[j], StepProgressId) == Shown(cards[i], StepProgressId)
    requires forall k :: j < k < |previous| && previous[k].typ.StepProgress? && Given(previous[k], StepProgressId) ==>
      Shown(previous[k], StepProgressId) != Shown(cards[i], StepProgressId)
    ensures Aligned(previous, cards, h)[i].id == previous[j].id
    ensures Aligned(previous, cards, h)[i].timestamp == previous[j].timestamp
  {
    hide Ordinal;
    hide Aligned;
    hide Digest;
    hide PyStr;
    hide Truthy;
    hide FieldIn;
    assert LastAlike(previous, j, cards, i, h);
    TakesIdentityFromItsLike(previous, cards, h, i);
  }

  /** The n-th tool card keeps the identity of the n-th previous one. */
  lemma ToolKeepsItsPlace(previous: seq<Card>, cards: seq<Card>, h: Hash, i: nat, j: nat)
    requires Digest(h) && i < |cards| && j < |previous| && cards[i].typ.Tool? && previous[j].typ.Tool?
    requires Before(cards, i, i) == Before(previous, j, j)
    ensures Aligned(previous, cards, h)[i].id == previous[j].id
    ensures Aligned(previous, cards, h)[i].timestamp == previous[j].timestamp
  {
    hide Aligned;
    hide Digest;
    NumbersCountEarlier(cards, i);
    NumbersCountEarlier(previous, j);
    assert CountedWith(cards[i], cards[i]) && CountedWith(previous[j], previous[j]);
    forall k | j < k < |previous|
      ensures !Alike(previous, k, cards, i, h)
    {
      if previous[k].typ.Tool? {
        NumbersRise(previous, j, k);
      }
    }
    hide Ordinal;
    assert LastAlike(previous, j, cards, i, h);
    TakesIdentityFromItsLike(previous, cards, h, i);
  }
}
