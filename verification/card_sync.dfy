/** Carrying a ledger from one rebound card list to the next: align, diff, fold. */
module CardSync {
  import opened PythonText
  import opened JsonValues
  import opened OrderedDict
  import opened Sequences
  import opened Cards
  import opened CardLedger
  import opened CardAlignment
  import opened CardDiff

  /** The stored card agrees with the given one on identity and every updatable field. */
  ghost predicate Agrees(stored: Card, card: Card) {
    stored.id == card.id && stored.typ == card.typ && stored.timestamp == card.timestamp && SameUpdatable(stored, card)
  }

  /** The ledger stores these cards, each under its id, and no other. Order and the fields that no
      patch reaches are the ledger's own. */
  ghost predicate Holds(cards: CardMap, snapshot: seq<Card>) {
    && (forall i :: 0 <= i < |snapshot| ==>
          && cards.Has(snapshot[i].id)
          && Coherent(cards.Get(snapshot[i].id)) && Agrees(cards.Get(snapshot[i].id), snapshot[i]))
    && (forall k :: cards.Has(k) ==> !Untouched(k, snapshot))
  }

  ghost predicate AllCoherent(cards: seq<Card>) {
    forall i :: 0 <= i < |cards| ==> Coherent(cards[i]) && StatusKnown(cards[i])
  }

  predicate KeyKnown(previous: seq<Card>, key: string, h: Hash) {
    exists n :: 0 <= n < |previous| && Keys(previous, h)[n] == key
  }

  /** Ids invented for new keys collide with no previous id. */
  ghost predicate FreshIdsFree(previous: seq<Card>, cards: seq<Card>, h: Hash) {
    forall i, j :: 0 <= i < |cards| && 0 <= j < |previous| && !KeyKnown(previous, Keys(cards, h)[i], h) ==>
      FreshId(Keys(cards, h)[i], h) != previous[j].id
  }

  /** What the callers of `align_cards_preserving_ids` bring: distinct, non-empty previous ids,
      well-formed cards, and a hash without collisions. */
  ghost predicate Inputs(previous: seq<Card>, cards: seq<Card>, h: Hash) {
    && Injective(h)
    && DistinctIds(previous) && (forall i :: 0 <= i < |previous| ==> previous[i].id != "")
    && AllCoherent(previous) && AllCoherent(cards)
    && FreshIdsFree(previous, cards, h)
    && Covers(Keys(cards, h), Keys(previous, h))
  }

  /** The i-th new card takes over the identity of the j-th previous card. */
  ghost predicate TakesOver(previous: seq<Card>, cards: seq<Card>, h: Hash, i: nat, j: nat)
    requires i < |cards| && j < |previous|
  {
    && Keys(previous, h)[j] == Keys(cards, h)[i]
    && (forall n :: j < n < |previous| ==> Keys(previous, h)[n] != Keys(cards, h)[i])
    && Aligned(previous, cards, h)[i] == cards[i].(id := previous[j].id, timestamp := previous[j].timestamp)
    && previous[j].typ == cards[i].typ
    && PriorOf(previous, previous[j].id) == Some(previous[j])
  }

  /** The i-th new card has a key of its own and gets a hashed id. */
  ghost predicate IsNew(previous: seq<Card>, cards: seq<Card>, h: Hash, i: nat)
    requires i < |cards|
  {
    var id := FreshId(Keys(cards, h)[i], h);
    && (forall n :: 0 <= n < |previous| ==> Keys(previous, h)[n] != Keys(cards, h)[i])
    && Aligned(previous, cards, h)[i] == cards[i].(id := id)
    && (forall n :: 0 <= n < |previous| ==> previous[n].id != id)
    && PriorOf(previous, id) == None
  }

  lemma KeyedBy(previous: seq<Card>, cards: seq<Card>, h: Hash, i: nat) returns (j: nat)
    requires DistinctIds(previous) && FreshIdsFree(previous, cards, h) && i < |cards|
    ensures j <= |previous|
    ensures if j < |previous| then TakesOver(previous, cards, h, i, j) else IsNew(previous, cards, h, i)
  {
    hide KeyAt;
    var keys, prevKeys := Keys(cards, h), Keys(previous, h);
    var key := keys[i];
    var prior := LastWith(prevKeys, previous, key);
    if prior.Some? {
      j :| 0 <= j < |previous| && prevKeys[j] == key && previous[j] == prior.value
           && forall n :: j < n < |previous| ==> prevKeys[n] != key;
      PriorAt(previous, j);
      SameKeySameType(previous, j, cards, i, h);
    } else {
      j := |previous|;
      assert !KeyKnown(previous, key, h);
      assert forall n :: 0 <= n < |previous| ==> Ids(previous)[n] != FreshId(key, h);
    }
  }

  lemma SameKeySameType(previous: seq<Card>, j: nat, cards: seq<Card>, i: nat, h: Hash)
    requires j < |previous| && i < |cards| && Keys(previous, h)[j] == Keys(cards, h)[i]
    ensures previous[j].typ == cards[i].typ
  {
    hide StableKey;
    assert KeyAt(previous, j, h) == KeyAt(cards, i, h);
    EqualKeysEqualType(previous[j], Ordinal(previous, j), cards[i], Ordinal(cards, i), h);
  }

  lemma AlignedDiffer(previous: seq<Card>, cards: seq<Card>, h: Hash, a: nat, b: nat)
    requires DistinctIds(previous) && FreshIdsFree(previous, cards, h) && Injective(h)
    requires a < b < |cards| && Keys(cards, h)[a] != Keys(cards, h)[b]
    ensures Aligned(previous, cards, h)[a].id != Aligned(previous, cards, h)[b].id
  {
    hide KeyAt;
    hide PriorOf;
    hide LastWith;
    hide AlignOne;
    var i := KeyedBy(previous, cards, h, a);
    var j := KeyedBy(previous, cards, h, b);
    if i == |previous| && j == |previous| {
      FreshIdsDiffer(Keys(cards, h)[a], Keys(cards, h)[b], h);
    }
  }

  lemma FreshIdsDiffer(a: string, b: string, h: Hash)
    requires Injective(h) && a != b
    ensures FreshId(a, h) != FreshId(b, h)
  {
    assert FreshId(a, h)[5..] == h(a) && FreshId(b, h)[5..] == h(b);
  }

  /** Aligned ids are distinct when the new keys are. */
  lemma AlignedDistinct(previous: seq<Card>, cards: seq<Card>, h: Hash)
    requires Inputs(previous, cards, h) && NoRepeat(Keys(cards, h))
    ensures DistinctIds(Aligned(previous, cards, h))
  {
    hide KeyAt;
    hide LastWith;
    hide AlignOne;
    hide AllCoherent;
    hide FreshIdsFree;
    hide Covers;
    hide Injective;
    forall a, b | 0 <= a < b < |cards|
      ensures Aligned(previous, cards, h)[a].id != Aligned(previous, cards, h)[b].id
    {
      AlignedDiffer(previous, cards, h, a, b);
    }
  }

  lemma HeldReady(ledger: CardMap, previous: seq<Card>, cards: seq<Card>, h: Hash)
    requires Inputs(previous, cards, h) && Holds(ledger, previous)
    ensures AllReady(ledger, previous, Aligned(previous, cards, h))
  {
    hide KeyAt;
    hide PriorOf;
    hide Ready;
    hide Inputs;
    hide Holds;
    hide AlignOne;
    forall i | 0 <= i < |cards|
      ensures var c := Aligned(previous, cards, h)[i]; Ready(ledger, PriorOf(previous, c.id), c)
    {
      OneHeldReady(ledger, previous, cards, h, i);
    }
  }

  lemma OneHeldReady(ledger: CardMap, previous: seq<Card>, cards: seq<Card>, h: Hash, i: nat)
    requires Inputs(previous, cards, h) && Holds(ledger, previous) && i < |cards|
    ensures var c := Aligned(previous, cards, h)[i]; Ready(ledger, PriorOf(previous, c.id), c)
  {
    hide KeyAt;
    hide PriorOf;
    hide AlignOne;
    hide LastWith;
    hide Covers;
    hide Injective;
    hide TypeRule;
    hide SameUpdatable;
    hide KnownStatus;
    var aligned := Aligned(previous, cards, h);
    var j := KeyedBy(previous, cards, h, i);
    if j == |previous| {
      assert FreshId(Keys(cards, h)[i], h)[0] == 'c';
      assert Untouched(aligned[i].id, previous);
    } else {
      assert Agrees(ledger.Get(previous[j].id), previous[j]);
    }
  }

  /** Consecutive numbering, no header record. */
  ghost predicate Numbered(ms: seq<Mutation>, from: int) {
    forall i :: 0 <= i < |ms| ==> ms[i].seqNo == from + i && !ms[i].op.Header?
  }

  lemma {:induction false} DiffNumbered(previous: seq<Card>, current: seq<Card>, startSeq: int)
    ensures Numbered(DiffSnapshots(previous, current, startSeq), startSeq)
    decreases |current|
  {
    hide PriorOf;
    if current != [] {
      var one := DiffOne(PriorOf(previous, current[0].id), current[0], startSeq);
      DiffNumbered(previous, current[1..], if one.None? then startSeq else startSeq + 1);
    }
  }

  lemma {:induction false} NumberedFoldCounts(l: Ledger, ms: seq<Mutation>, d: Defaults)
    requires l.Valid() && Numbered(ms, l.nextSeq) && Fold(l, ms, d).Ok?
    ensures Fold(l, ms, d).value.nextSeq == l.nextSeq + |ms|
    decreases |ms|
  {
    hide ApplyCards;
    if ms != [] {
      assert ms[0].seqNo == l.nextSeq;
      NumberedFoldCounts(Apply(l, ms[0], d).value, ms[1..], d);
    }
  }

  lemma SettledAgrees(stored: Option<Card>, c: Card)
    requires Coherent(c)
    requires stored.Some? ==> Coherent(stored.value) && stored.value.id == c.id && stored.value.typ == c.typ
    requires stored.Some? ==> stored.value.timestamp == c.timestamp
    ensures Agrees(Settled(stored, c), c) && Coherent(Settled(stored, c))
  {
  }

  /** The main result. With distinct stable keys on both sides and no full replacement, folding
      the diff onto a ledger that holds the previous snapshot never fails, keeps the order and
      appends the new ids, agrees with every aligned card, touches no other, and advances the
      sequence number by the number of mutations. */
  lemma AlignedDiffCarriesLedger(l: Ledger, previous: seq<Card>, cards: seq<Card>, h: Hash, d: Defaults)
    requires l.Valid() && Holds(l.cards, previous) && Inputs(previous, cards, h)
    requires NoRepeat(Keys(cards, h))
    ensures var aligned := Aligned(previous, cards, h);
      var ms := DiffSnapshots(previous, aligned, l.nextSeq);
      && Fold(l, ms, d).Ok?
      && var after := Fold(l, ms, d).value;
         && after.cards.Keys() == l.cards.Keys() + NewIds(previous, aligned)
         && (forall i :: 0 <= i < |aligned| ==>
               && after.cards.Has(aligned[i].id) && Coherent(after.cards.Get(aligned[i].id))
               && Agrees(after.cards.Get(aligned[i].id), aligned[i]))
         && (forall k :: Untouched(k, aligned) && l.cards.Has(k) ==>
               after.cards.Has(k) && after.cards.Get(k) == l.cards.Get(k))
         && after.nextSeq == l.nextSeq + |ms|
  {
    hide KeyAt;
    hide PriorOf;
    hide Coherent;
    hide Agrees;
    hide Settled;
    var aligned := Aligned(previous, cards, h);
    var ms := DiffSnapshots(previous, aligned, l.nextSeq);
    AlignedDistinct(previous, cards, h);
    HeldReady(l.cards, previous, cards, h);
    DiffFolds(l.cards, previous, aligned, l.nextSeq, d);
    FoldIsFoldCards(l, ms, d);
    DiffNumbered(previous, aligned, l.nextSeq);
    NumberedFoldCounts(l, ms, d);
    forall i | 0 <= i < |aligned|
      ensures Agrees(Settled(StoredOf(l.cards, aligned[i].id), aligned[i]), aligned[i])
      ensures Coherent(Settled(StoredOf(l.cards, aligned[i].id), aligned[i]))
    {
      HeldAgrees(l.cards, previous, cards, h, i);
    }
  }

  lemma HeldAgrees(ledger: CardMap, previous: seq<Card>, cards: seq<Card>, h: Hash, i: nat)
    requires Inputs(previous, cards, h) && Holds(ledger, previous) && i < |cards|
    ensures var c := Aligned(previous, cards, h)[i];
      Agrees(Settled(StoredOf(ledger, c.id), c), c) && Coherent(Settled(StoredOf(ledger, c.id), c))
  {
    hide KeyAt;
    hide PriorOf;
    hide Settled;
    hide TypeRule;
    var c := Aligned(previous, cards, h)[i];
    var j := KeyedBy(previous, cards, h, i);
    if j == |previous| {
      assert Untouched(c.id, previous);
    }
    SettledAgrees(StoredOf(ledger, c.id), c);
  }

  // ---------------------------------------------------------------- when it works

  /** Folding never removes a card. */
  lemma {:induction false} FoldKeepsCards(cards: CardMap, ms: seq<Mutation>, k: string, d: Defaults)
    requires cards.Valid() && cards.Has(k) && FoldCards(cards, ms, d).Ok?
    ensures FoldCards(cards, ms, d).value.Has(k)
    decreases |ms|
  {
    hide FromWire;
    hide Patched;
    if ms != [] {
      var after := ApplyCards(cards, ms[0], d).value;
      if ms[0].op.Create? {
        cards.PutLookup(ms[0].cardId, FromWire(ms[0].data, d).value, k);
      } else if ms[0].op.Update? || ms[0].op.Finalize? {
        cards.PutLookup(ms[0].cardId, Patched(cards.Get(ms[0].cardId), ms[0].data), k);
      }
      FoldKeepsCards(after, ms[1..], k, d);
    }
  }

  lemma HasIsKey(cards: CardMap, k: string)
    ensures cards.Has(k) <==> k in cards.Keys()
  {
  }

  lemma {:induction false} NewIdsAreIds(previous: seq<Card>, current: seq<Card>, k: string)
    ensures k in NewIds(previous, current) ==> k in Ids(current)
    decreases |current|
  {
    hide PriorOf;
    if current != [] {
      NewIdsAreIds(previous, current[1..], k);
      assert Ids(current) == [current[0].id] + Ids(current[1..]);
    }
  }

  /** No previous id is lost when the previous keys are distinct. */
  lemma PreviousIdsAligned(previous: seq<Card>, cards: seq<Card>, h: Hash, j: nat) returns (i: nat)
    requires Inputs(previous, cards, h) && NoRepeat(Keys(previous, h)) && j < |previous|
    ensures i < |cards| && Aligned(previous, cards, h)[i].id == previous[j].id
  {
    hide KeyAt;
    hide PriorOf;
    hide AllCoherent;
    var keys, prevKeys := Keys(cards, h), Keys(previous, h);
    assert prevKeys[j] in keys;
    i :| 0 <= i < |keys| && keys[i] == prevKeys[j];
    var j' := KeyedBy(previous, cards, h, i);
    assert j' == j;
  }

  /** A previous card whose key recurs later in the previous list loses its id. */
  lemma RepeatedKeyLosesId(previous: seq<Card>, cards: seq<Card>, h: Hash, a: nat, b: nat, i: nat)
    requires Inputs(previous, cards, h) && a < b < |previous| && i < |cards|
    requires Keys(previous, h)[a] == Keys(previous, h)[b]
    ensures Aligned(previous, cards, h)[i].id != previous[a].id
  {
    hide KeyAt;
    hide PriorOf;
    hide AllCoherent;
    hide LastWith;
    hide AlignOne;
    hide Covers;
    hide Injective;
    var j := KeyedBy(previous, cards, h, i);
  }

  lemma RepeatedNewKeySharesId(previous: seq<Card>, cards: seq<Card>, h: Hash, a: nat, b: nat)
    requires a < b < |cards| && Keys(cards, h)[a] == Keys(cards, h)[b]
    ensures Aligned(previous, cards, h)[a].id == Aligned(previous, cards, h)[b].id
  {
    hide KeyAt;
    hide LastWith;
  }

  /** The fold of the diff succeeds and stores exactly the aligned ids, each once. */
  ghost predicate StoresAlignedIds(l: Ledger, previous: seq<Card>, cards: seq<Card>, h: Hash, d: Defaults)
    requires l.Valid()
  {
    var aligned := Aligned(previous, cards, h);
    var r := Fold(l, DiffSnapshots(previous, aligned, l.nextSeq), d);
    r.Ok? && multiset(r.value.cards.Keys()) == multiset(Ids(aligned))
  }

  /** The exact condition: the ledger ends with the aligned ids if and only if the stable keys
      are distinct on both sides. Two identical user messages are enough to fail it. */
  lemma StoresAlignedIdsIffKeysDistinct(l: Ledger, previous: seq<Card>, cards: seq<Card>, h: Hash, d: Defaults)
    requires l.Valid() && Holds(l.cards, previous) && Inputs(previous, cards, h)
    ensures StoresAlignedIds(l, previous, cards, h, d)
       <==> NoRepeat(Keys(previous, h)) && NoRepeat(Keys(cards, h))
  {
    hide StoresAlignedIds;
    if NoRepeat(Keys(previous, h)) && NoRepeat(Keys(cards, h)) {
      DistinctKeysStore(l, previous, cards, h, d);
    }
    if StoresAlignedIds(l, previous, cards, h, d) {
      StoringNeedsDistinctKeys(l, previous, cards, h, d);
    }
  }

  lemma PreviousIdIn(previous: seq<Card>, cards: seq<Card>, h: Hash, k: string)
    requires Inputs(previous, cards, h) && NoRepeat(Keys(previous, h))
    ensures k in Ids(previous) ==> k in Ids(Aligned(previous, cards, h))
  {
    hide Inputs;
    hide AlignOne;
    hide KeyAt;
    if k in Ids(previous) {
      var j :| 0 <= j < |previous| && Ids(previous)[j] == k;
      var i := PreviousIdsAligned(previous, cards, h, j);
      assert Ids(Aligned(previous, cards, h))[i] == k;
    }
  }

  lemma StoredIds(before: CardMap, after: CardMap, previous: seq<Card>, aligned: seq<Card>, k: string)
    requires Holds(before, previous) && after.Keys() == before.Keys() + NewIds(previous, aligned)
    requires forall i :: 0 <= i < |aligned| ==> after.Has(aligned[i].id)
    requires k in Ids(previous) ==> k in Ids(aligned)
    ensures k in after.Keys() <==> k in Ids(aligned)
  {
    hide PriorOf;
    hide Agrees;
    hide Coherent;
    HasIsKey(after, k);
    HasIsKey(before, k);
    NewIdsAreIds(previous, aligned, k);
    if before.Has(k) {
      var j :| 0 <= j < |previous| && previous[j].id == k;
      assert Ids(previous)[j] == k;
    }
    if k in Ids(aligned) {
      var i :| 0 <= i < |aligned| && Ids(aligned)[i] == k;
      assert after.Has(aligned[i].id);
    }
  }

  lemma DistinctKeysStore(l: Ledger, previous: seq<Card>, cards: seq<Card>, h: Hash, d: Defaults)
    requires l.Valid() && Holds(l.cards, previous) && Inputs(previous, cards, h)
    requires NoRepeat(Keys(previous, h)) && NoRepeat(Keys(cards, h))
    ensures StoresAlignedIds(l, previous, cards, h, d)
  {
    hide Inputs;
    hide Agrees;
    hide AlignOne;
    hide KeyAt;
    hide PriorOf;
    AlignedDiffCarriesLedger(l, previous, cards, h, d);
    var aligned := Aligned(previous, cards, h);
    var after := Fold(l, DiffSnapshots(previous, aligned, l.nextSeq), d).value.cards;
    AlignedDistinct(previous, cards, h);
    forall k
      ensures k in after.Keys() <==> k in Ids(aligned)
    {
      PreviousIdIn(previous, cards, h, k);
      StoredIds(l.cards, after, previous, aligned, k);
    }
    SameElementsSameMultiset(after.Keys(), Ids(aligned));
  }

  lemma StoringNeedsDistinctKeys(l: Ledger, previous: seq<Card>, cards: seq<Card>, h: Hash, d: Defaults)
    requires l.Valid() && Holds(l.cards, previous) && Inputs(previous, cards, h)
    requires StoresAlignedIds(l, previous, cards, h, d)
    ensures NoRepeat(Keys(previous, h)) && NoRepeat(Keys(cards, h))
  {
    hide KeyAt;
    hide AlignOne;
    hide PriorOf;
    hide AllCoherent;
    hide LastWith;
    var aligned := Aligned(previous, cards, h);
    var ms := DiffSnapshots(previous, aligned, l.nextSeq);
    var after := Fold(l, ms, d).value.cards;
    SameElementsSameMultiset(after.Keys(), Ids(aligned));
    forall a, b | 0 <= a < b < |cards|
      ensures Keys(cards, h)[a] != Keys(cards, h)[b]
    {
      if Keys(cards, h)[a] == Keys(cards, h)[b] {
        assert Ids(aligned)[a] != Ids(aligned)[b];
        RepeatedNewKeySharesId(previous, cards, h, a, b);
      }
    }
    forall a, b | 0 <= a < b < |previous|
      ensures Keys(previous, h)[a] != Keys(previous, h)[b]
    {
      if Keys(previous, h)[a] == Keys(previous, h)[b] {
        LostIdStaysStored(l, previous, cards, h, a, b, d);
      }
    }
  }

  lemma ElementsTell<T>(x: T, s: seq<T>, t: seq<T>)
    requires x in s && x !in t
    ensures multiset(s) != multiset(t)
  {
    assert x in multiset(s) && x !in multiset(t);
  }

  /** No aligned card has the id of a previous card whose key recurs. */
  lemma LostId(previous: seq<Card>, cards: seq<Card>, h: Hash, a: nat, b: nat)
    requires Inputs(previous, cards, h) && a < b < |previous| && Keys(previous, h)[a] == Keys(previous, h)[b]
    ensures previous[a].id !in Ids(Aligned(previous, cards, h))
  {
    hide Inputs;
    hide Keys;
    hide Aligned;
    forall i | 0 <= i < |cards|
      ensures Ids(Aligned(previous, cards, h))[i] != previous[a].id
    {
      RepeatedKeyLosesId(previous, cards, h, a, b, i);
    }
  }

  /** A previous card stays in the ledger. */
  lemma PreviousStays(l: Ledger, previous: seq<Card>, ms: seq<Mutation>, a: nat, d: Defaults)
    requires l.Valid() && Holds(l.cards, previous) && a < |previous| && Fold(l, ms, d).Ok?
    ensures previous[a].id in Fold(l, ms, d).value.cards.Keys()
  {
    assert l.cards.Has(previous[a].id) by {
      hide Agrees;
      hide Coherent;
    }
    hide Holds;
    hide Fold;
    hide FoldCards;
    FoldIsFoldCards(l, ms, d);
    FoldKeepsCards(l.cards, ms, previous[a].id, d);
    HasIsKey(Fold(l, ms, d).value.cards, previous[a].id);
  }

  lemma LostIdStaysStored(l: Ledger, previous: seq<Card>, cards: seq<Card>, h: Hash, a: nat, b: nat, d: Defaults)
    requires l.Valid() && Holds(l.cards, previous) && Inputs(previous, cards, h)
    requires a < b < |previous| && Keys(previous, h)[a] == Keys(previous, h)[b]
    ensures !StoresAlignedIds(l, previous, cards, h, d)
  {
    hide Inputs;
    hide Holds;
    hide Keys;
    hide Aligned;
    hide Fold;
    hide Ids;
    hide DiffSnapshots;
    var aligned := Aligned(previous, cards, h);
    var ms := DiffSnapshots(previous, aligned, l.nextSeq);
    LostId(previous, cards, h, a, b);
    if Fold(l, ms, d).Ok? {
      PreviousStays(l, previous, ms, a, d);
      ElementsTell(previous[a].id, Fold(l, ms, d).value.cards.Keys(), Ids(aligned));
    }
  }

  /** A user message, all else by default. */
  function Said(id: string, text: string): Card {
    Card(id, User, Num(0), FieldsOf(map[At(Content) := Str(text)]))
  }

  lemma SaidIsWellFormed(id: string, text: string)
    ensures Coherent(Said(id, text)) && StatusKnown(Said(id, text)) && Said(id, text).typ == User
    ensures FieldIn(Said(id, text), Content) == Str(text)
  {
  }

  /** The same message sent twice: the callers bring all that is asked of them, the two cards share a
      key, and an empty ledger does not come to hold the aligned ids. */
  lemma SayingItTwice(a: string, b: string, text: string, h: Hash, d: Defaults)
    requires Injective(h)
    ensures var cards, l := [Said(a, text), Said(b, text)], CardLedger.Fresh("");
      && Inputs([], cards, h) && Holds(l.cards, []) && Keys(cards, h)[0] == Keys(cards, h)[1]
      && !StoresAlignedIds(l, [], cards, h, d)
  {
    var cards, l := [Said(a, text), Said(b, text)], CardLedger.Fresh("");
    SaidIsWellFormed(a, text);
    SaidIsWellFormed(b, text);
    hide Said;
    hide StoresAlignedIds;
    hide KeyAt;
    hide Coherent;
    hide StatusKnown;
    hide FieldIn;
    hide FreshId;
    hide Injective;
    RepeatedTextRepeatsKey(cards, 0, 1, h);
    assert AllCoherent(cards);
    assert Inputs([], cards, h);
    StoresAlignedIdsIffKeysDistinct(l, [], cards, h, d);
  }
}
