/** The card ledger: mutations folded into the latest state per card, and the create-only log
    that replaces history (`display/card_ledger.py`). */
module CardLedger {
  import opened PythonText
  import opened JsonValues
  import opened OrderedDict
  import opened Cards

  datatype Op = Header | Create | Update | Finalize | OtherOp(name: string)

  datatype Mutation = Mutation(seqNo: int, op: Op, cardId: string, kind: string, data: Wire)

  datatype HeaderInfo = HeaderInfo(version: int, loopId: string, createdBy: string)

  type CardMap = Dict<string, Card>

  datatype Ledger = Ledger(loopId: string, nextSeq: int, header: HeaderInfo, cards: CardMap) {
    ghost predicate Valid() {
      cards.Valid() && forall i :: 0 <= i < |cards.entries| ==> Coherent(cards.entries[i].val)
    }
  }

  function Fresh(loopId: string): (l: Ledger)
    ensures l.Valid()
  {
    Ledger(loopId, 1, HeaderInfo(1, "", ""), Empty())
  }

  function Max(a: int, b: int): int { if a < b then b else a }

  function ReadHeader(w: Wire): Result<HeaderInfo> {
    var version := if Other("card_schema_version") in w then IntOf(w[Other("card_schema_version")]) else Some(1);
    if version.None? then Err(BadPayload)
    else Ok(HeaderInfo(version.value,
                       if Other("loop_id") in w then PyStr(w[Other("loop_id")]) else "",
                       if Other("created_by") in w then PyStr(w[Other("created_by")]) else ""))
  }

  /** One `setattr` per updatable entry of the patch. */
  function Patched(c: Card, patch: Wire): (r: Card)
    ensures Coherent(c) ==> Coherent(r)
  {
    c.(fields := map f | f in c.fields ::
         if Updatable(f) && At(f) in patch then patch[At(f)] else c.fields[f])
  }

  /** The effect of a mutation on the cards; headers have none. */
  function ApplyCards(cards: CardMap, m: Mutation, d: Defaults): (r: Result<CardMap>)
    requires cards.Valid()
    ensures r.Ok? ==> r.value.Valid()
  {
    match m.op
    case Header =>
      var h := ReadHeader(m.data);
      if h.Err? then Err(h.error) else Ok(cards)
    case Create =>
      if m.cardId == "" then Err(MissingCardId)
      else
        var c := FromWire(m.data, d);
        if c.Err? then Err(c.error) else Ok(cards.Put(m.cardId, c.value))
    case Update =>
      PatchCards(cards, m)
    case Finalize =>
      PatchCards(cards, m)
    case OtherOp(_) =>
      if m.cardId == "" then Err(MissingCardId) else Err(UnknownOp)
  }

  function PatchCards(cards: CardMap, m: Mutation): (r: Result<CardMap>)
    requires cards.Valid()
    ensures r.Ok? ==> r.value.Valid()
  {
    if m.cardId == "" then Err(MissingCardId)
    else if !cards.Has(m.cardId) then Err(UnknownCard)
    else Ok(cards.Put(m.cardId, Patched(cards.Get(m.cardId), m.data)))
  }

  /** `InMemoryCardLedger.apply`; an error leaves the ledger as it was. */
  function Apply(l: Ledger, m: Mutation, d: Defaults): (r: Result<Ledger>)
    requires l.Valid()
    ensures r.Ok? ==> r.value.Valid()
  {
    var cards := ApplyCards(l.cards, m, d);
    if cards.Err? then Err(cards.error)
    else
      var next := Max(l.nextSeq, m.seqNo + 1);
      if m.op.Header? then
        var h := ReadHeader(m.data).value;
        Ok(Ledger(if l.loopId == "" then h.loopId else l.loopId, next, h, cards.value))
      else Ok(l.(nextSeq := next, cards := cards.value))
  }

  function Fold(l: Ledger, ms: seq<Mutation>, d: Defaults): (r: Result<Ledger>)
    requires l.Valid()
    ensures r.Ok? ==> r.value.Valid()
    decreases |ms|
  {
    if ms == [] then Ok(l)
    else
      var l' := Apply(l, ms[0], d);
      if l'.Err? then l' else Fold(l'.value, ms[1..], d)
  }

  /** The same fold on the cards alone. */
  function FoldCards(cards: CardMap, ms: seq<Mutation>, d: Defaults): (r: Result<CardMap>)
    requires cards.Valid()
    ensures r.Ok? ==> r.value.Valid()
    decreases |ms|
  {
    if ms == [] then Ok(cards)
    else
      var c' := ApplyCards(cards, ms[0], d);
      if c'.Err? then c' else FoldCards(c'.value, ms[1..], d)
  }

  function CardsOf(r: Result<Ledger>): Result<CardMap> {
    if r.Err? then Err(r.error) else Ok(r.value.cards)
  }

  /** Sequence numbers, loop ids and headers never influence the cards. */
  lemma {:induction false} FoldIsFoldCards(l: Ledger, ms: seq<Mutation>, d: Defaults)
    requires l.Valid()
    ensures CardsOf(Fold(l, ms, d)) == FoldCards(l.cards, ms, d)
    decreases |ms|
  {
    if ms != [] {
      var l' := Apply(l, ms[0], d);
      if l'.Ok? {
        FoldIsFoldCards(l'.value, ms[1..], d);
      }
    }
  }

  lemma {:induction false} FoldCardsSplits(cards: CardMap, a: seq<Mutation>, b: seq<Mutation>, d: Defaults)
    requires cards.Valid()
    ensures FoldCards(cards, a + b, d)
         == (var r := FoldCards(cards, a, d); if r.Err? then r else FoldCards(r.value, b, d))
    decreases |a|
  {
    if a == [] {
      assert a + b == b;
    } else {
      assert (a + b)[0] == a[0] && (a + b)[1..] == a[1..] + b;
      var c' := ApplyCards(cards, a[0], d);
      if c'.Ok? {
        FoldCardsSplits(c'.value, a[1..], b, d);
      }
    }
  }

  // ---------------------------------------------------------------- compaction

  function CreateOf(id: string, c: Card, seqNo: int): Mutation {
    Mutation(seqNo, Create, id, TypeName(c.typ), ToWire(c))
  }

  /** `to_mutations`: the create records of the entries, numbered from `startSeq`. */
  function ToMutations(entries: seq<Entry<string, Card>>, startSeq: int): (ms: seq<Mutation>)
    ensures |ms| == |entries|
  {
    seq(|entries|, i requires 0 <= i < |entries| => CreateOf(entries[i].key, entries[i].val, startSeq + i))
  }

  predicate StatusKnown(c: Card) {
    ToolStatus in c.fields ==> KnownStatus(c.fields[ToolStatus])
  }

  predicate KnownStatuses(cards: CardMap) {
    forall i :: 0 <= i < |cards.entries| ==> StatusKnown(cards.entries[i].val)
  }

  ghost predicate Storable(cards: CardMap) {
    && cards.Valid()
    && (forall i :: 0 <= i < |cards.entries| ==>
          cards.entries[i].key != "" && Coherent(cards.entries[i].val))
  }

  lemma ReplayOne(before: CardMap, id: string, c: Card, seqNo: int, d: Defaults)
    requires before.Valid() && id != "" && Coherent(c)
    ensures FoldCards(before, [CreateOf(id, c, seqNo)], d).Ok? <==> StatusKnown(c)
    ensures StatusKnown(c) ==> FoldCards(before, [CreateOf(id, c, seqNo)], d) == Ok(before.Put(id, c))
  {
    hide FromWire;
    hide ToWire;
    WireRoundTrip(c, d);
    var ms := [CreateOf(id, c, seqNo)];
    assert ms[1..] == [];
  }

  /** The log rebuilds the cards, exactly when they can all be rebuilt. */
  ghost predicate Rebuilds(log: seq<Mutation>, cards: CardMap, d: Defaults) {
    && (FoldCards(Empty(), log, d).Ok? <==> KnownStatuses(cards))
    && (KnownStatuses(cards) ==> FoldCards(Empty(), log, d) == Ok(cards))
  }

  lemma RebuildsOneMore(log: seq<Mutation>, before: CardMap, after: CardMap, seqNo: int, d: Defaults)
    requires Rebuilds(log, before, d) && Storable(after) && |after.entries| > 0
    requires before.entries == after.entries[..|after.entries| - 1]
    ensures var e := after.entries[|after.entries| - 1];
      Rebuilds(log + [CreateOf(e.key, e.val, seqNo)], after, d)
  {
    hide ApplyCards;
    hide CreateOf;
    hide StatusKnown;
    hide Coherent;
    var e := after.entries[|after.entries| - 1];
    FoldCardsSplits(Empty(), log, [CreateOf(e.key, e.val, seqNo)], d);
    ReplayOne(before, e.key, e.val, seqNo, d);
    NotLocated(before.entries, e.key);
    assert before.Put(e.key, e.val) == after by {
      assert after.entries == before.entries + [e];
    }
  }

  /** Replaying the create records of a dictionary rebuilds it. */
  lemma {:induction false} ReplayCreates(cards: CardMap, startSeq: int, d: Defaults)
    requires Storable(cards)
    ensures Rebuilds(ToMutations(cards.entries, startSeq), cards, d)
    decreases |cards.entries|
  {
    hide ApplyCards;
    hide CreateOf;
    hide Coherent;
    if cards.entries != [] {
      hide Rebuilds;
      var n := |cards.entries| - 1;
      var before: CardMap := Dict(cards.entries[..n]);
      ReplayCreates(before, startSeq, d);
      RebuildsOneMore(ToMutations(before.entries, startSeq), before, cards, startSeq + n, d);
      assert ToMutations(cards.entries, startSeq)
          == ToMutations(before.entries, startSeq)
             + [CreateOf(cards.entries[n].key, cards.entries[n].val, startSeq + n)];
    }
  }

  /** Every fold keeps the cards storable. */
  lemma {:induction false} FoldStores(cards: CardMap, ms: seq<Mutation>, d: Defaults)
    requires Storable(cards)
    ensures FoldCards(cards, ms, d).Ok? ==> Storable(FoldCards(cards, ms, d).value)
    decreases |ms|
  {
    if ms != [] {
      var c' := ApplyCards(cards, ms[0], d);
      if c'.Ok? {
        FoldStores(c'.value, ms[1..], d);
      }
    }
  }

  /** The compacted history of a log that folds. */
  function Compacted(log: seq<Mutation>, d: Defaults): (ms: seq<Mutation>)
    requires Fold(Fresh(""), log, d).Ok?
  {
    ToMutations(Fold(Fresh(""), log, d).value.cards.entries, 1)
  }

  lemma CompactedFolds(log: seq<Mutation>, d: Defaults)
    requires Fold(Fresh(""), log, d).Ok?
    ensures var cards := Fold(Fresh(""), log, d).value.cards;
      && FoldCards(Empty(), log, d) == Ok(cards)
      && (FoldCards(Empty(), Compacted(log, d), d).Ok? <==> KnownStatuses(cards))
      && (KnownStatuses(cards) ==> FoldCards(Empty(), Compacted(log, d), d) == Ok(cards))
  {
    hide ApplyCards;
    hide Apply;
    hide CreateOf;
    hide KnownStatuses;
    hide Coherent;
    var cards := Fold(Fresh(""), log, d).value.cards;
    FoldIsFoldCards(Fresh(""), log, d);
    FoldStores(Empty(), log, d);
    ReplayCreates(cards, 1, d);
  }

  /** Both histories agree on the cards, or fail alike, after a suffix. */
  ghost predicate SameAfter(log: seq<Mutation>, suffix: seq<Mutation>, d: Defaults)
    requires Fold(Fresh(""), log, d).Ok?
  {
    CardsOf(Fold(Fresh(""), Compacted(log, d) + suffix, d)) == CardsOf(Fold(Fresh(""), log + suffix, d))
  }

  lemma SameAfterReads(log: seq<Mutation>, suffix: seq<Mutation>, d: Defaults)
    requires Fold(Fresh(""), log, d).Ok?
    ensures KnownStatuses(Fold(Fresh(""), log, d).value.cards) ==> SameAfter(log, suffix, d)
    ensures suffix == [] && SameAfter(log, suffix, d) ==> KnownStatuses(Fold(Fresh(""), log, d).value.cards)
  {
    hide ApplyCards;
    hide Apply;
    var start := Fresh("");
    CompactedFolds(log, d);
    FoldIsFoldCards(start, Compacted(log, d) + suffix, d);
    FoldIsFoldCards(start, log + suffix, d);
    FoldCardsSplits(Empty(), Compacted(log, d), suffix, d);
    FoldCardsSplits(Empty(), log, suffix, d);
  }

  /** Compaction, with its exact condition. Folding the create-only log followed by any suffix
      gives the same result as folding the whole history followed by that suffix, if and only
      if every card of the folded history has a tool status the wire can name. */
  lemma CompactionReplacesHistory(log: seq<Mutation>, d: Defaults)
    requires Fold(Fresh(""), log, d).Ok?
    ensures KnownStatuses(Fold(Fresh(""), log, d).value.cards)
       <==> forall suffix: seq<Mutation> :: SameAfter(log, suffix, d)
  {
    hide *;
    forall suffix: seq<Mutation>
      ensures KnownStatuses(Fold(Fresh(""), log, d).value.cards) ==> SameAfter(log, suffix, d)
    {
      SameAfterReads(log, suffix, d);
    }
    var none: seq<Mutation> := [];
    SameAfterReads(log, none, d);
  }

  /** A patch writes only tool statuses the wire can name. */
  predicate NamesStatus(m: Mutation) {
    (m.op.Update? || m.op.Finalize?) && At(ToolStatus) in m.data ==> KnownStatus(m.data[At(ToolStatus)])
  }

  /** What the host can check before writing: logs whose patches name real statuses compact. */
  lemma {:induction false} NamedStatusesStayKnown(cards: CardMap, log: seq<Mutation>, d: Defaults)
    requires Storable(cards) && KnownStatuses(cards)
    requires forall m :: m in log ==> NamesStatus(m)
    ensures FoldCards(cards, log, d).Ok? ==> KnownStatuses(FoldCards(cards, log, d).value)
    decreases |log|
  {
    if log != [] {
      var c' := ApplyCards(cards, log[0], d);
      if c'.Ok? {
        assert NamesStatus(log[0]);
        NamedStatusesStayKnown(c'.value, log[1..], d);
      }
    }
  }

  lemma FoldTwo(l: Ledger, a: Mutation, b: Mutation, d: Defaults)
    requires l.Valid() && Apply(l, a, d).Ok?
    ensures Fold(l, [a, b], d) == Apply(Apply(l, a, d).value, b, d)
  {
    hide Apply;
    assert [a, b][1..] == [b] && [b][1..] == [];
    var l' := Apply(l, a, d).value;
    assert Fold(l', [b], d) == Apply(l', b, d);
  }

  function UserWire(id: string, text: string): Wire {
    map[TypeKey := Str("user"), At(Content) := Str(text), IdKey := Str(id), TimestampKey := Num(0)]
  }

  lemma UserWireReads(id: string, text: string, d: Defaults)
    ensures FromWire(UserWire(id, text), d).Ok?
  {
    TypeNamesRead(User);
  }

  /** The failing family has a member: a finalize with a status outside the enumeration folds,
      and its compacted log does not. */
  lemma UnknownStatusBreaksCompaction(d: Defaults)
    returns (log: seq<Mutation>)
    ensures Fold(Fresh(""), log, d).Ok?
    ensures FoldCards(Empty(), Compacted(log, d), d).Err?
  {
    hide FromWire;
    hide UserWire;
    var create := Mutation(1, Create, "c1", "user", UserWire("c1", "hi"));
    var finalize := Mutation(2, Finalize, "c1", "user", map[At(ToolStatus) := Str("done")]);
    log := [create, finalize];
    UserWireReads("c1", "hi", d);
    FoldTwo(Fresh(""), create, finalize, d);
    var cards := Fold(Fresh(""), log, d).value.cards;
    assert !StatusKnown(cards.entries[0].val);
    CompactedFolds(log, d);
  }

  /** The ledger object. Cards are values here; the dictionary keeps insertion order. */
  class InMemoryCardLedger {
    var loopId: string
    var nextSeq: int
    var header: HeaderInfo
    var cards: CardMap

    ghost function State(): Ledger
      reads this
    {
      Ledger(loopId, nextSeq, header, cards)
    }

    constructor (loopId: string)
      ensures State() == Fresh(loopId)
    {
      this.loopId, nextSeq, header, cards := loopId, 1, HeaderInfo(1, "", ""), Empty();
    }

    /** Folds one mutation, or reports why it cannot and changes nothing. */
    method ApplyMutation(m: Mutation, d: Defaults) returns (failure: Option<Cards.Error>)
      requires State().Valid()
      modifies this
      ensures State().Valid()
      ensures match Apply(old(State()), m, d)
        case Ok(l) => failure == None && State() == l
        case Err(e) => failure == Some(e) && State() == old(State())
    {
      if m.op.Header? {
        var h := ReadHeader(m.data);
        if h.Err? {
          return Some(h.error);
        }
        header := h.value;
        if header.loopId != "" && loopId == "" {
          loopId := header.loopId;
        }
        nextSeq := Max(nextSeq, m.seqNo + 1);
        return None;
      }
      if m.cardId == "" {
        return Some(MissingCardId);
      }
      if m.op.Create? {
        var c := FromWire(m.data, d);
        if c.Err? {
          return Some(c.error);
        }
        cards := cards.Put(m.cardId, c.value);
      } else if m.op.Update? || m.op.Finalize? {
        if !cards.Has(m.cardId) {
          return Some(UnknownCard);
        }
        cards := cards.Put(m.cardId, Patched(cards.Get(m.cardId), m.data));
      } else {
        return Some(UnknownOp);
      }
      nextSeq := Max(nextSeq, m.seqNo + 1);
      return None;
    }

    /** `from_mutations` on a fresh ledger: folds a log, stopping at the first failure. */
    method Replay(ms: seq<Mutation>, d: Defaults) returns (failure: Option<Cards.Error>)
      requires State().Valid()
      modifies this
      ensures State().Valid()
      ensures match Fold(old(State()), ms, d)
        case Ok(l) => failure == None && State() == l
        case Err(e) => failure == Some(e)
    {
      failure := None;
      for i := 0 to |ms|
        invariant State().Valid()
        invariant Fold(old(State()), ms, d) == Fold(State(), ms[i..], d)
      {
        assert ms[i..][1..] == ms[i + 1..];
        failure := ApplyMutation(ms[i], d);
        if failure.Some? {
          return;
        }
      }
      return None;
    }
  }
}
