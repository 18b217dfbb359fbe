/** Rebind after rebind: every card list is aligned with the one before, the diff is folded onto the
    ledger, and the same records reach the client (`display/card_ledger.py`, `display/card_wire.py`). */
module CardRebinds {
  import opened PythonText
  import opened JsonValues
  import opened OrderedDict
  import opened Sequences
  import opened Cards
  import opened CardLedger
  import opened CardAlignment
  import opened CardDiff
  import opened CardSync
  import opened CardProjection

  /** Each list is well-formed, has distinct keys and covers the keys of the list before it. */
  ghost predicate Chain(previous: seq<Card>, lists: seq<seq<Card>>, h: Hash)
    decreases |lists|
  {
    lists != [] ==>
      && AllCoherent(lists[0]) && NoRepeat(Keys(lists[0], h)) && Covers(Keys(lists[0], h), Keys(previous, h))
      && Chain(lists[0], lists[1..], h)
  }

  /** The aligned form of the last list. */
  function LastAligned(previous: seq<Card>, lists: seq<seq<Card>>, h: Hash): seq<Card>
    decreases |lists|
  {
    if lists == [] then previous else LastAligned(Aligned(previous, lists[0], h), lists[1..], h)
  }

  /** All records of all rebinds, each diff numbered from where the ledger stands. */
  function Records(previous: seq<Card>, lists: seq<seq<Card>>, h: Hash, startSeq: int): seq<Mutation>
    decreases |lists|
  {
    if lists == [] then []
    else
      var aligned := Aligned(previous, lists[0], h);
      var ms := DiffSnapshots(previous, aligned, startSeq);
      ms + Records(aligned, lists[1..], h, startSeq + |ms|)
  }

  /** An id that is some key's hashed id is the hashed id of the card's own key. */
  ghost predicate IdsTraced(cards: seq<Card>, h: Hash) {
    forall j, key :: 0 <= j < |cards| && cards[j].id == FreshId(key, h) ==> key == Keys(cards, h)[j]
  }

  /** What every rebind leaves for the next. */
  ghost predicate Carried(l: Ledger, previous: seq<Card>, h: Hash) {
    && l.Valid() && Holds(l.cards, previous)
    && DistinctIds(previous) && (forall i :: 0 <= i < |previous| ==> previous[i].id != "")
    && AllCoherent(previous) && IdsTraced(previous, h)
  }

  // ---------------------------------------------------------------- keys survive alignment

  /** Same card but for its id and timestamp. */
  predicate SameBody(a: Card, b: Card) {
    a.typ == b.typ && a.fields == b.fields
  }

  lemma SameBodySameKey(a: Card, b: Card, n: int, h: Hash)
    requires SameBody(a, b)
    ensures StableKey(a, n, h) == StableKey(b, n, h) && Counter(a) == Counter(b)
  {
    hide TextOf;
    hide PyStr;
    hide Truthy;
    hide TypeName;
    hide PrintInt;
    assert forall f: Field :: FieldIn(a, f) == FieldIn(b, f);
    hide FieldIn;
  }

  lemma {:induction false} SameBodiesSameCount(a: seq<Card>, b: seq<Card>, name: string)
    requires |a| == |b| && forall i :: 0 <= i < |a| ==> SameBody(a[i], b[i])
    ensures Count(a, name) == Count(b, name)
  {
    hide Counter;
    hide SameBody;
    if a != [] {
      var n := |a| - 1;
      SameBodiesSameCount(a[..n], b[..n], name);
      assert SameBody(a[n], b[n]);
      SameBodySameKey(a[n], b[n], 1, _ => "");
    }
  }

  lemma SameBodiesSameKeys(a: seq<Card>, b: seq<Card>, h: Hash)
    requires |a| == |b| && forall i :: 0 <= i < |a| ==> SameBody(a[i], b[i])
    ensures Keys(a, h) == Keys(b, h)
  {
    hide StableKey;
    hide Counter;
    hide SameBody;
    forall i | 0 <= i < |a|
      ensures KeyAt(a, i, h) == KeyAt(b, i, h)
    {
      assert SameBody(a[i], b[i]);
      SameBodySameKey(a[i], b[i], 1, h);
      if Counter(a[i]).Some? {
        SameBodiesSameCount(a[..i], b[..i], Counter(a[i]).value);
      }
      SameBodySameKey(a[i], b[i], Ordinal(a, i), h);
    }
  }

  lemma AlignedKeys(previous: seq<Card>, cards: seq<Card>, h: Hash)
    ensures Keys(Aligned(previous, cards, h), h) == Keys(cards, h)
  {
    hide KeyAt;
    hide LastWith;
    SameBodiesSameKeys(Aligned(previous, cards, h), cards, h);
  }

  // ---------------------------------------------------------------- one rebind

  lemma TracedIdsAreFree(previous: seq<Card>, cards: seq<Card>, h: Hash)
    requires IdsTraced(previous, h)
    ensures FreshIdsFree(previous, cards, h)
  {
    hide KeyAt;
    forall i, j | 0 <= i < |cards| && 0 <= j < |previous| && !KeyKnown(previous, Keys(cards, h)[i], h)
      ensures FreshId(Keys(cards, h)[i], h) != previous[j].id
    {
      assert Keys(previous, h)[j] != Keys(cards, h)[i];
    }
  }

  lemma AlignedTraced(previous: seq<Card>, cards: seq<Card>, h: Hash)
    requires Inputs(previous, cards, h) && IdsTraced(previous, h)
    ensures IdsTraced(Aligned(previous, cards, h), h)
  {
    hide KeyAt;
    hide LastWith;
    hide AlignOne;
    hide PriorOf;
    hide AllCoherent;
    hide FreshId;
    var aligned := Aligned(previous, cards, h);
    AlignedKeys(previous, cards, h);
    forall i, key | 0 <= i < |aligned| && aligned[i].id == FreshId(key, h)
      ensures key == Keys(aligned, h)[i]
    {
      var j := KeyedBy(previous, cards, h, i);
      if j == |previous| && key != Keys(cards, h)[i] {
        FreshIdsDiffer(key, Keys(cards, h)[i], h);
      }
    }
  }

  lemma AlignedWellFormed(previous: seq<Card>, cards: seq<Card>, h: Hash)
    requires Inputs(previous, cards, h)
    ensures AllCoherent(Aligned(previous, cards, h))
    ensures forall i :: 0 <= i < |cards| ==> Aligned(previous, cards, h)[i].id != ""
  {
    hide KeyAt;
    hide LastWith;
    hide AlignOne;
    hide PriorOf;
    forall i | 0 <= i < |cards|
      ensures var c := Aligned(previous, cards, h)[i]; Coherent(c) && StatusKnown(c) && c.id != ""
    {
      var j := KeyedBy(previous, cards, h, i);
      if j == |previous| {
        assert FreshId(Keys(cards, h)[i], h)[0] == 'c';
      }
    }
  }

  lemma CarriedInputs(l: Ledger, previous: seq<Card>, cards: seq<Card>, h: Hash)
    requires Carried(l, previous, h) && Injective(h) && AllCoherent(cards)
    requires Covers(Keys(cards, h), Keys(previous, h))
    ensures Inputs(previous, cards, h)
  {
    hide FreshIdsFree;
    hide AllCoherent;
    hide Covers;
    TracedIdsAreFree(previous, cards, h);
  }

  /** Nothing but the aligned cards is stored afterwards. */
  lemma NothingElseStored(before: CardMap, after: CardMap, previous: seq<Card>, cards: seq<Card>, h: Hash)
    requires Inputs(previous, cards, h) && Holds(before, previous) && NoRepeat(Keys(previous, h))
    requires after.Keys() == before.Keys() + NewIds(previous, Aligned(previous, cards, h))
    ensures forall k :: after.Has(k) ==> !Untouched(k, Aligned(previous, cards, h))
  {
    hide Inputs;
    hide AlignOne;
    hide KeyAt;
    hide PriorOf;
    hide Agrees;
    hide Coherent;
    var aligned := Aligned(previous, cards, h);
    forall k | after.Has(k)
      ensures !Untouched(k, aligned)
    {
      HasIsKey(after, k);
      HasIsKey(before, k);
      NewIdsAreIds(previous, aligned, k);
      if before.Has(k) {
        var j :| 0 <= j < |previous| && previous[j].id == k;
        var i := PreviousIdsAligned(previous, cards, h, j);
        assert aligned[i].id == k;
      } else {
        var i :| 0 <= i < |aligned| && Ids(aligned)[i] == k;
        assert aligned[i].id == k;
      }
    }
  }

  lemma RebindHolds(l: Ledger, previous: seq<Card>, cards: seq<Card>, h: Hash, d: Defaults)
    requires l.Valid() && Holds(l.cards, previous) && Inputs(previous, cards, h)
    requires NoRepeat(Keys(previous, h)) && NoRepeat(Keys(cards, h))
    ensures var ms := DiffSnapshots(previous, Aligned(previous, cards, h), l.nextSeq);
      var r := Fold(l, ms, d);
      r.Ok? && Holds(r.value.cards, Aligned(previous, cards, h)) && r.value.nextSeq == l.nextSeq + |ms|
  {
    hide Inputs;
    hide Aligned;
    hide Agrees;
    hide Coherent;
    hide DiffSnapshots;
    hide Fold;
    hide NoRepeat;
    hide NewIds;
    AlignedDiffCarriesLedger(l, previous, cards, h, d);
    var after := Fold(l, DiffSnapshots(previous, Aligned(previous, cards, h), l.nextSeq), d).value;
    NothingElseStored(l.cards, after.cards, previous, cards, h);
  }

  /** One rebind succeeds and leaves what the next one needs. */
  lemma RebindCarries(l: Ledger, previous: seq<Card>, cards: seq<Card>, h: Hash, d: Defaults)
    requires Carried(l, previous, h) && Injective(h) && NoRepeat(Keys(previous, h))
    requires AllCoherent(cards) && NoRepeat(Keys(cards, h)) && Covers(Keys(cards, h), Keys(previous, h))
    ensures var aligned := Aligned(previous, cards, h);
      var r := Fold(l, DiffSnapshots(previous, aligned, l.nextSeq), d);
      && r.Ok? && Carried(r.value, aligned, h) && NoRepeat(Keys(aligned, h))
      && r.value.nextSeq == l.nextSeq + |DiffSnapshots(previous, aligned, l.nextSeq)|
  {
    hide Keys;
    hide Holds;
    hide Inputs;
    hide Aligned;
    hide AllCoherent;
    hide IdsTraced;
    hide DistinctIds;
    hide DiffSnapshots;
    hide Fold;
    CarriedInputs(l, previous, cards, h);
    RebindHolds(l, previous, cards, h, d);
    AlignedDistinct(previous, cards, h);
    AlignedWellFormed(previous, cards, h);
    AlignedTraced(previous, cards, h);
    AlignedKeys(previous, cards, h);
  }

  // ---------------------------------------------------------------- every rebind

  lemma {:induction false} FoldSplits(l: Ledger, a: seq<Mutation>, b: seq<Mutation>, d: Defaults)
    requires l.Valid()
    ensures Fold(l, a + b, d) == (var r := Fold(l, a, d); if r.Err? then r else Fold(r.value, b, d))
    decreases |a|
  {
    hide Apply;
    if a == [] {
      assert a + b == b;
    } else {
      assert (a + b)[0] == a[0] && (a + b)[1..] == a[1..] + b;
      if Apply(l, a[0], d).Ok? {
        FoldSplits(Apply(l, a[0], d).value, a[1..], b, d);
      }
    }
  }

  lemma SameKeysSameChain(a: seq<Card>, b: seq<Card>, lists: seq<seq<Card>>, h: Hash)
    requires Keys(a, h) == Keys(b, h) && Chain(a, lists, h)
    ensures Chain(b, lists, h)
  {
  }

  /** Rebinds compose. From a ledger that holds the last aligned list, whatever the number of further
      lists: every fold succeeds, the ledger holds the last aligned list and nothing else, its ids
      stay traceable to keys, and the sequence number counts every record. */
  lemma {:induction false} RebindsCompose(l: Ledger, previous: seq<Card>, lists: seq<seq<Card>>, h: Hash, d: Defaults)
    requires Carried(l, previous, h) && Injective(h) && NoRepeat(Keys(previous, h)) && Chain(previous, lists, h)
    ensures var ms := Records(previous, lists, h, l.nextSeq);
      var r := Fold(l, ms, d);
      r.Ok? && Carried(r.value, LastAligned(previous, lists, h), h) && r.value.nextSeq == l.nextSeq + |ms|
    decreases |lists|
  {
    hide KeyAt;
    hide Carried;
    hide Aligned;
    hide DiffSnapshots;
    hide Apply;
    if lists != [] {
      var aligned := Aligned(previous, lists[0], h);
      var ms := DiffSnapshots(previous, aligned, l.nextSeq);
      CarriedIsValid(l, previous, h);
      RebindCarries(l, previous, lists[0], h, d);
      var l' := Fold(l, ms, d).value;
      AlignedKeys(previous, lists[0], h);
      SameKeysSameChain(lists[0], aligned, lists[1..], h);
      RebindsCompose(l', aligned, lists[1..], h, d);
      FoldSplits(l, ms, Records(aligned, lists[1..], h, l'.nextSeq), d);
    }
  }

  lemma CarriedIsValid(l: Ledger, previous: seq<Card>, h: Hash)
    requires Carried(l, previous, h)
    ensures l.Valid()
  {
  }

  /** A new ledger and no cards: a start for every chain. */
  lemma FreshIsCarried(loopId: string, h: Hash)
    ensures Carried(Fresh(loopId), [], h) && NoRepeat(Keys([], h))
  {
  }

  // ---------------------------------------------------------------- the client

  lemma HoldsIsSound(l: Ledger, previous: seq<Card>)
    requires l.Valid() && Holds(l.cards, previous) && AllCoherent(previous)
    ensures Sound(l.cards)
  {
    hide Coherent;
    var es := l.cards.entries;
    forall i | 0 <= i < |es|
      ensures es[i].val.id == es[i].key && StatusKnown(es[i].val)
    {
      Located(es, es[i].key, i);
      assert l.cards.Has(es[i].key) && l.cards.Get(es[i].key) == es[i].val;
      var j :| 0 <= j < |previous| && previous[j].id == es[i].key;
      StatusFollows(es[i].val, previous[j]);
    }
  }

  lemma StatusFollows(stored: Card, c: Card)
    requires Agrees(stored, c) && StatusKnown(c) && Coherent(c)
    ensures StatusKnown(stored)
  {
    assert FieldIn(stored, ToolStatus) == FieldIn(c, ToolStatus);
  }

  /** Every record of every rebind is one the client reads as the ledger does. */
  lemma {:induction false} RecordsSafe(l: Ledger, previous: seq<Card>, lists: seq<seq<Card>>, h: Hash, d: Defaults)
    requires Carried(l, previous, h) && Injective(h) && NoRepeat(Keys(previous, h)) && Chain(previous, lists, h)
    requires (forall k :: Trimmed(h(k))) && Trimmable(Ids(previous))
    ensures forall i :: 0 <= i < |Records(previous, lists, h, l.nextSeq)| ==>
      WireSafe(Records(previous, lists, h, l.nextSeq)[i])
    decreases |lists|
  {
    hide Keys;
    hide Aligned;
    hide DiffSnapshots;
    hide Fold;
    hide WireSafe;
    hide Coherent;
    hide StatusKnown;
    hide Carried;
    hide Covers;
    hide NoRepeat;
    hide AllCoherent;
    hide Trimmable;
    hide Injective;
    hide Trimmed;
    CarriedIsValid(l, previous, h);
    if lists != [] {
      var aligned := Aligned(previous, lists[0], h);
      RebindCarries(l, previous, lists[0], h, d);
      RebindSafe(l, previous, lists[0], h);
      AlignedKeys(previous, lists[0], h);
      SameKeysSameChain(lists[0], aligned, lists[1..], h);
      RecordsSafe(Fold(l, DiffSnapshots(previous, aligned, l.nextSeq), d).value, aligned, lists[1..], h, d);
    }
  }

  lemma RebindSafe(l: Ledger, previous: seq<Card>, cards: seq<Card>, h: Hash)
    requires Carried(l, previous, h) && Injective(h) && AllCoherent(cards) && NoRepeat(Keys(cards, h))
    requires Covers(Keys(cards, h), Keys(previous, h))
    requires (forall k :: Trimmed(h(k))) && Trimmable(Ids(previous))
    ensures var ms := DiffSnapshots(previous, Aligned(previous, cards, h), l.nextSeq);
      && Trimmable(Ids(Aligned(previous, cards, h)))
      && forall i :: 0 <= i < |ms| ==> WireSafe(ms[i])
  {
    hide Keys;
    hide Aligned;
    hide DiffSnapshots;
    hide WireSafe;
    hide Coherent;
    hide StatusKnown;
    hide Inputs;
    hide Holds;
    hide PriorOf;
    CarriedInputs(l, previous, cards, h);
    RebindReady(l.cards, previous, cards, h);
    var aligned := Aligned(previous, cards, h);
    assert forall i :: 0 <= i < |aligned| ==> Ready(l.cards, PriorOf(previous, aligned[i].id), aligned[i]);
    DiffStreamSafe(previous, aligned, l.nextSeq);
  }

  /** A client that starts in step with the ledger is in step after every frame of every rebind. */
  lemma ClientFollowsEveryRebind(l: Ledger, v: View, previous: seq<Card>, lists: seq<seq<Card>>, h: Hash, n: nat,
                                 d: Defaults)
    requires Carried(l, previous, h) && Injective(h) && NoRepeat(Keys(previous, h)) && Chain(previous, lists, h)
    requires (forall k :: Trimmed(h(k))) && Trimmable(Ids(previous)) && v.cards == l.cards
    requires n <= |Records(previous, lists, h, l.nextSeq)|
    ensures var ms := Records(previous, lists, h, l.nextSeq);
      CardsOf(Fold(l, ms[..n], d)) == Ok(FoldFrames(v, FramesOf(ms)[..n], d).cards)
  {
    hide Keys;
    hide Chain;
    hide Holds;
    hide Fold;
    hide FoldCards;
    hide FoldFrames;
    hide WireSafe;
    hide Sound;
    hide IdsTraced;
    hide AllCoherent;
    var ms := Records(previous, lists, h, l.nextSeq);
    hide Records;
    RebindsCompose(l, previous, lists, h, d);
    RecordsSafe(l, previous, lists, h, d);
    FoldIsFoldCards(l, ms, d);
    FoldIsFoldCards(l, ms[..n], d);
    HoldsIsSound(l, previous);
    ProjectionRefinesLedger(v, ms, n, d);
  }

  /** From nothing: over any sequence of card lists, each with distinct keys and covering the one
      before, every fold succeeds, the ledger holds the last aligned list and nothing else, and the
      client has its cards after every frame. */
  lemma EveryRebindFromNothing(loopId: string, lists: seq<seq<Card>>, h: Hash, n: nat, d: Defaults)
    requires Injective(h) && (forall k :: Trimmed(h(k))) && Chain([], lists, h)
    requires n <= |Records([], lists, h, 1)|
    ensures var ms := Records([], lists, h, 1);
      && Fold(Fresh(loopId), ms, d).Ok?
      && Holds(Fold(Fresh(loopId), ms, d).value.cards, LastAligned([], lists, h))
      && Fold(Fresh(loopId), ms, d).value.nextSeq == 1 + |ms|
      && CardsOf(Fold(Fresh(loopId), ms[..n], d)) == Ok(FoldFrames(View(Empty(), false), FramesOf(ms)[..n], d).cards)
  {
    hide Holds;
    hide Fold;
    hide FoldFrames;
    hide Records;
    hide Chain;
    FreshIsCarried(loopId, h);
    RebindsCompose(Fresh(loopId), [], lists, h, d);
    ClientFollowsEveryRebind(Fresh(loopId), View(Empty(), false), [], lists, h, n, d);
  }
}
