/** Diffing two snapshots into mutations, and what folding the diff yields
    (`display/card_ledger.py`, `_updatable_field_diff` and `diff_card_snapshots`). */
module CardDiff {
  import opened PythonText
  import opened OrderedDict
  import opened Cards
  import opened CardLedger
  import opened CardAlignment

  /** The changed updatable fields. */
  function PatchBetween(prior: Card, current: Card): (patch: Wire)
    ensures forall f: Field :: At(f) in patch <==> Updatable(f) && FieldIn(prior, f) != FieldIn(current, f)
    ensures forall f: Field :: At(f) in patch ==> patch[At(f)] == FieldIn(current, f)
    ensures forall k :: k in patch ==> k.At?
  {
    map f: Field | Updatable(f) && FieldIn(prior, f) != FieldIn(current, f) :: At(f) := FieldIn(current, f)
  }

  function Ids(cards: seq<Card>): (ids: seq<string>)
    ensures |ids| == |cards|
    ensures forall i :: 0 <= i < |ids| ==> ids[i] == cards[i].id
  {
    seq(|cards|, i requires 0 <= i < |cards| => cards[i].id)
  }

  /** The previous card with this id; of several, the last. */
  function PriorOf(previous: seq<Card>, id: string): Option<Card> {
    LastWith(Ids(previous), previous, id)
  }

  function DiffOne(prior: Option<Card>, card: Card, seqNo: int): Option<Mutation> {
    match prior
    case None => Some(CreateOf(card.id, card, seqNo))
    case Some(p) =>
      var patch := PatchBetween(p, card);
      if patch == map[] then None
      else Some(Mutation(seqNo, Update, card.id, TypeName(card.typ), patch))
  }

  function DiffSnapshots(previous: seq<Card>, current: seq<Card>, startSeq: int): seq<Mutation>
    decreases |current|
  {
    if current == [] then []
    else
      var first := DiffOne(PriorOf(previous, current[0].id), current[0], startSeq);
      if first.None? then DiffSnapshots(previous, current[1..], startSeq)
      else [first.value] + DiffSnapshots(previous, current[1..], startSeq + 1)
  }

  /** `diff_card_snapshots`. */
  method DiffCardSnapshots(previous: seq<Card>, current: seq<Card>, startSeq: int) returns (ms: seq<Mutation>)
    ensures ms == DiffSnapshots(previous, current, startSeq)
  {
    hide DiffOne;
    var prevMap := DictOf(Ids(previous), previous);
    ms := [];
    var seqNo := startSeq;
    for i := 0 to |current|
      invariant ms + DiffSnapshots(previous, current[i..], seqNo) == DiffSnapshots(previous, current, startSeq)
    {
      assert current[i..][0] == current[i] && current[i..][1..] == current[i + 1..];
      var one := DiffOne(Lookup(prevMap, current[i].id), current[i], seqNo);
      if one.Some? {
        ghost var rest := DiffSnapshots(previous, current[i + 1..], seqNo + 1);
        assert ms + ([one.value] + rest) == (ms + [one.value]) + rest;
        ms := ms + [one.value];
        seqNo := seqNo + 1;
      }
    }
    assert current[|current|..] == [];
    assert DiffSnapshots(previous, [], seqNo) == [];
  }

  /** A snapshot diffed against itself is empty. */
  lemma {:induction false} SelfDiffEmpty(previous: seq<Card>, current: seq<Card>, startSeq: int)
    requires forall i :: 0 <= i < |current| ==> PriorOf(previous, current[i].id) == Some(current[i])
    ensures DiffSnapshots(previous, current, startSeq) == []
    decreases |current|
  {
    hide PriorOf;
    if current != [] {
      SelfDiffEmpty(previous, current[1..], startSeq);
      var c := current[0];
      assert PatchBetween(c, c) == map[];
    }
  }

  lemma PriorAt(previous: seq<Card>, i: nat)
    requires i < |previous| && DistinctIds(previous)
    ensures PriorOf(previous, previous[i].id) == Some(previous[i])
  {
  }

  lemma DiffOfItselfIsEmpty(snapshot: seq<Card>, startSeq: int)
    requires DistinctIds(snapshot)
    ensures DiffSnapshots(snapshot, snapshot, startSeq) == []
  {
    forall i | 0 <= i < |snapshot|
      ensures PriorOf(snapshot, snapshot[i].id) == Some(snapshot[i])
    {
      PriorAt(snapshot, i);
    }
    SelfDiffEmpty(snapshot, snapshot, startSeq);
  }

  // ---------------------------------------------------------------- what the fold yields

  ghost predicate DistinctIds(cards: seq<Card>) {
    forall i, j :: 0 <= i < j < |cards| ==> cards[i].id != cards[j].id
  }

  /** The stored card with the updatable fields of the current one. */
  function Settled(stored: Option<Card>, c: Card): Card {
    match stored
    case None => c
    case Some(s) => s.(fields := map f | f in s.fields :: if Updatable(f) then FieldIn(c, f) else s.fields[f])
  }

  function StoredOf(cards: CardMap, id: string): Option<Card> {
    if cards.Has(id) then Some(cards.Get(id)) else None
  }

  ghost predicate SameUpdatable(a: Card, b: Card) {
    forall f: Field :: Updatable(f) ==> FieldIn(a, f) == FieldIn(b, f)
  }

  /** A patch against a prior card settles any stored card that agrees with it where patches reach. */
  lemma PatchSettles(stored: Card, p: Card, c: Card)
    requires Coherent(stored) && Coherent(p) && Coherent(c) && SameUpdatable(stored, p)
    ensures Patched(stored, PatchBetween(p, c)) == Settled(Some(stored), c)
    ensures PatchBetween(p, c) == map[] ==> stored == Settled(Some(stored), c)
  {
    hide Updatable;
    hide TypeRule;
    var a, b := Patched(stored, PatchBetween(p, c)).fields, Settled(Some(stored), c).fields;
    forall f: Field
      ensures a[f] == b[f] && (PatchBetween(p, c) == map[] ==> stored.fields[f] == b[f])
    {
      assert FieldIn(stored, f) == stored.fields[f];
      assert At(f) in PatchBetween(p, c) <==> Updatable(f) && FieldIn(p, f) != FieldIn(c, f);
    }
    assert a == b;
    if PatchBetween(p, c) == map[] {
      assert stored.fields == b;
    }
  }

  /** How one current card sits against the ledger before its mutation is applied. */
  ghost predicate Ready(cards: CardMap, prior: Option<Card>, c: Card) {
    && c.id != "" && Coherent(c)
    && match prior
       case None => !cards.Has(c.id) && StatusKnown(c)
       case Some(p) => Coherent(p) && cards.Has(c.id) && Coherent(cards.Get(c.id)) && SameUpdatable(cards.Get(c.id), p)
  }

  /** One step: the card settles, every other card stays, and a new key goes to the end. */
  lemma DiffOneApplies(cards: CardMap, prior: Option<Card>, c: Card, seqNo: int, d: Defaults)
    requires cards.Valid() && Ready(cards, prior, c)
    ensures prior.None? ==> DiffOne(prior, c, seqNo).Some?
    ensures match DiffOne(prior, c, seqNo)
      case None => prior.Some? && cards.Get(c.id) == Settled(StoredOf(cards, c.id), c)
      case Some(m) => ApplyCards(cards, m, d) == Ok(cards.Put(c.id, Settled(StoredOf(cards, c.id), c)))
  {
    match prior {
      case None =>
        hide FromWire;
        hide ToWire;
        WireRoundTrip(c, d);
      case Some(p) =>
        PatchSettles(cards.Get(c.id), p, c);
        hide PatchBetween;
        hide Patched;
        hide Settled;
    }
  }

  /** Every current card is stored in its settled form. */
  ghost predicate AllSettled(before: CardMap, after: CardMap, current: seq<Card>) {
    forall i :: 0 <= i < |current| ==>
      after.Has(current[i].id)
      && after.Get(current[i].id) == Settled(StoredOf(before, current[i].id), current[i])
  }

  /** Cards that are not current are as before. */
  ghost predicate OthersKept(before: CardMap, after: CardMap, current: seq<Card>) {
    forall k :: Untouched(k, current) ==>
      (after.Has(k) <==> before.Has(k)) && (before.Has(k) ==> after.Get(k) == before.Get(k))
  }

  /** Everything the fold of a diff promises about one dictionary and the next. */
  ghost predicate Carries(before: CardMap, after: CardMap, previous: seq<Card>, current: seq<Card>) {
    && after.Valid()
    && AllSettled(before, after, current)
    && OthersKept(before, after, current)
    && after.Keys() == before.Keys() + NewIds(previous, current)
  }

  ghost predicate Untouched(k: string, current: seq<Card>) {
    forall i :: 0 <= i < |current| ==> current[i].id != k
  }

  /** Ids of the current cards that have no predecessor, in order. */
  function NewIds(previous: seq<Card>, current: seq<Card>): seq<string> {
    if current == [] then []
    else (if PriorOf(previous, current[0].id).None? then [current[0].id] else [])
         + NewIds(previous, current[1..])
  }

  lemma OneCarries(cards: CardMap, previous: seq<Card>, c: Card)
    requires cards.Valid() && (PriorOf(previous, c.id).None? <==> !cards.Has(c.id))
    ensures Carries(cards, cards.Put(c.id, Settled(StoredOf(cards, c.id), c)), previous, [c])
    ensures cards.Has(c.id) && cards.Get(c.id) == Settled(StoredOf(cards, c.id), c) ==>
      Carries(cards, cards, previous, [c])
  {
    hide Settled;
    hide PriorOf;
    var current := [c];
    var after := cards.Put(c.id, Settled(StoredOf(cards, c.id), c));
    cards.PutEffect(c.id, Settled(StoredOf(cards, c.id), c));
    assert after.Valid();
    assert current[0] == c && current[1..] == [];
    assert NewIds(previous, current) == if PriorOf(previous, c.id).None? then [c.id] else [];
    assert forall k :: Untouched(k, current) ==> k != c.id;
    assert AllSettled(cards, after, current);
    assert OthersKept(cards, after, current);
    assert cards.Keys() + [] == cards.Keys();
  }

  lemma RestUntouched(current: seq<Card>)
    requires current != [] && DistinctIds(current)
    ensures Untouched(current[0].id, current[1..])
  {
    assert forall i :: 0 <= i < |current[1..]| ==> current[1..][i] == current[i + 1];
  }

  lemma SettledThen(a: CardMap, b: CardMap, r: CardMap, current: seq<Card>)
    requires current != [] && DistinctIds(current)
    requires AllSettled(a, b, [current[0]]) && AllSettled(b, r, current[1..])
    requires OthersKept(a, b, [current[0]]) && OthersKept(b, r, current[1..])
    ensures AllSettled(a, r, current)
  {
    hide Settled;
    RestUntouched(current);
    assert [current[0]][0] == current[0];
    forall i | 0 <= i < |current|
      ensures r.Has(current[i].id)
      ensures r.Get(current[i].id) == Settled(StoredOf(a, current[i].id), current[i])
    {
      if i > 0 {
        assert current[i] == current[1..][i - 1];
        assert Untouched(current[i].id, [current[0]]);
      }
    }
  }

  lemma KeptThen(a: CardMap, b: CardMap, r: CardMap, current: seq<Card>)
    requires current != []
    requires OthersKept(a, b, [current[0]]) && OthersKept(b, r, current[1..])
    ensures OthersKept(a, r, current)
  {
  }

  lemma CarriesThen(a: CardMap, b: CardMap, r: CardMap, previous: seq<Card>, current: seq<Card>)
    requires current != [] && DistinctIds(current)
    requires Carries(a, b, previous, [current[0]]) && Carries(b, r, previous, current[1..])
    ensures Carries(a, r, previous, current)
  {
    hide AllSettled;
    hide OthersKept;
    hide PriorOf;
    SettledThen(a, b, r, current);
    KeptThen(a, b, r, current);
    var first := NewIds(previous, [current[0]]);
    assert [current[0]][1..] == [] && [current[0]][0] == current[0];
    assert NewIds(previous, []) == [];
    assert first == if PriorOf(previous, current[0].id).None? then [current[0].id] else [];
    assert first + NewIds(previous, current[1..]) == NewIds(previous, current);
    assert (a.Keys() + first) + NewIds(previous, current[1..]) == a.Keys() + (first + NewIds(previous, current[1..]));
  }

  ghost predicate AllReady(cards: CardMap, previous: seq<Card>, current: seq<Card>) {
    forall i :: 0 <= i < |current| ==> Ready(cards, PriorOf(previous, current[i].id), current[i])
  }

  lemma StillReady(a: CardMap, b: CardMap, previous: seq<Card>, current: seq<Card>)
    requires current != [] && DistinctIds(current) && AllReady(a, previous, current)
    requires Carries(a, b, previous, [current[0]])
    ensures AllReady(b, previous, current[1..])
  {
    hide Settled;
    hide PriorOf;
    hide Coherent;
    var rest := current[1..];
    forall i | 0 <= i < |rest|
      ensures Ready(b, PriorOf(previous, rest[i].id), rest[i])
    {
      assert rest[i] == current[i + 1];
      assert Untouched(rest[i].id, [current[0]]);
    }
  }

  lemma FoldCardsHead(cards: CardMap, m: Mutation, ms: seq<Mutation>, d: Defaults)
    requires cards.Valid() && ApplyCards(cards, m, d).Ok?
    ensures FoldCards(cards, [m] + ms, d) == FoldCards(ApplyCards(cards, m, d).value, ms, d)
  {
    hide ApplyCards;
    assert ([m] + ms)[1..] == ms;
  }

  /** Folding a diff of aligned snapshots never fails, settles every current card, touches no
      other card and appends exactly the new ids. */
  lemma {:induction false} DiffFolds(cards: CardMap, previous: seq<Card>, current: seq<Card>, startSeq: int,
                                      d: Defaults)
    requires cards.Valid() && DistinctIds(current) && AllReady(cards, previous, current)
    ensures FoldCards(cards, DiffSnapshots(previous, current, startSeq), d).Ok?
    ensures Carries(cards, FoldCards(cards, DiffSnapshots(previous, current, startSeq), d).value, previous, current)
    decreases |current|
  {
    hide DiffOne;
    hide Settled;
    hide PriorOf;
    hide ApplyCards;
    hide Coherent;
    if current == [] {
      assert cards.Keys() + [] == cards.Keys();
    } else {
      hide Carries;
      var c, rest := current[0], current[1..];
      var prior := PriorOf(previous, c.id);
      DiffOneApplies(cards, prior, c, startSeq, d);
      OneCarries(cards, previous, c);
      var one := DiffOne(prior, c, startSeq);
      var next := if one.None? then cards else cards.Put(c.id, Settled(StoredOf(cards, c.id), c));
      var seqNo := if one.None? then startSeq else startSeq + 1;
      StillReady(cards, next, previous, current);
      DiffFolds(next, previous, rest, seqNo, d);
      if one.Some? {
        FoldCardsHead(cards, one.value, DiffSnapshots(previous, rest, seqNo), d);
      }
      CarriesThen(cards, next, FoldCards(next, DiffSnapshots(previous, rest, seqNo), d).value, previous, current);
    }
  }
}
