/** The client-side fold of card frames and its agreement with the ledger
    (`display/card_wire.py`). */
module CardProjection {
  import opened PythonText
  import opened JsonValues
  import opened OrderedDict
  import opened Sequences
  import opened Cards
  import opened CardLedger
  import opened CardAlignment
  import opened CardDiff
  import opened CardSync

  datatype FrameType = Created | Updated | Finalized | ReplayBegin | ReplayEnd | NotACard

  /** A custom payload: its wire type, its `card_id`, and its `data` dictionary ({} if absent). */
  datatype Frame = Frame(typ: FrameType, cardId: Json, payload: Wire)

  /** `parse_card_custom_payload`. */
  datatype Parsed =
    | NotHandled
    | Marker(typ: FrameType)
    | FullCard(card: Card)
    | Patch(typ: FrameType, patch: Wire)

  function ParseFrame(f: Frame, d: Defaults): Parsed {
    match f.typ
    case NotACard => NotHandled
    case ReplayBegin => Marker(ReplayBegin)
    case ReplayEnd => Marker(ReplayEnd)
    case Created =>
      if TypeKey in f.payload && At(Content) in f.payload then
        match FromWire(f.payload, d) case Ok(c) => FullCard(c) case Err(_) => NotHandled
      else NotHandled
    case t =>
      var id := Strip(TextOf(if Truthy(f.cardId) then f.cardId
                             else if IdKey in f.payload then f.payload[IdKey] else Null));
      Patch(t, if id != "" && IdKey !in f.payload then f.payload[IdKey := Str(id)] else f.payload)
  }

  datatype View = View(cards: CardMap, replaying: bool)

  /** `CardProjection.apply`: the new view and whether the payload was handled. */
  function ApplyFrame(v: View, f: Frame, d: Defaults): (View, bool) {
    match ParseFrame(f, d)
    case NotHandled => (v, false)
    case Marker(t) => (if t == ReplayBegin then View(Empty(), true) else v.(replaying := false), true)
    case FullCard(c) =>
      var id := Strip(c.id);
      (if id == "" then v else v.(cards := v.cards.Put(id, c)), true)
    case Patch(_, patch) =>
      var id := Strip(TextOf(if IdKey in patch then patch[IdKey] else Null));
      if id == "" || !v.cards.Has(id) then (v, true)
      else (v.(cards := Overwrite(v.cards, id, patch, d)), true)
  }

  /** The stored card's wire form with every patch entry but `id` and `type` written over it; a
      result that is no card leaves the stored one. */
  function Overwrite(cards: CardMap, id: string, patch: Wire, d: Defaults): CardMap
    requires cards.Has(id)
  {
    match FromWire(ToWire(cards.Get(id)) + (map k | k in patch && k != IdKey && k != TypeKey :: patch[k]), d)
    case Ok(c) => cards.Put(id, c)
    case Err(_) => cards
  }

  function FoldFrames(v: View, fs: seq<Frame>, d: Defaults): View
    decreases |fs|
  {
    if fs == [] then v else FoldFrames(ApplyFrame(v, fs[0], d).0, fs[1..], d)
  }

  /** The frame a host sends for a card mutation. */
  function FrameOf(m: Mutation): Frame {
    Frame(match m.op
          case Create => Created
          case Update => Updated
          case Finalize => Finalized
          case _ => NotACard,
          Str(m.cardId), m.data)
  }

  function FramesOf(ms: seq<Mutation>): (fs: seq<Frame>)
    ensures |fs| == |ms|
    ensures forall i :: 0 <= i < |ms| ==> fs[i] == FrameOf(ms[i])
  {
    seq(|ms|, i requires 0 <= i < |ms| => FrameOf(ms[i]))
  }

  /** Records both folds read alike: a create stores a card under its own trimmed id; a patch
      holds updatable fields only and names a real tool status. */
  ghost predicate WireSafe(m: Mutation) {
    && m.cardId != "" && Trimmed(m.cardId)
    && match m.op
       case Create => exists c :: Coherent(c) && StatusKnown(c) && c.id == m.cardId && m.data == ToWire(c)
       case Header => false
       case OtherOp(_) => false
       case _ => SafePatch(m.data)
  }

  ghost predicate SafePatch(w: Wire) {
    && (forall k :: k in w ==> k.At? && Updatable(k.field))
    && (At(ToolStatus) in w ==> KnownStatus(w[At(ToolStatus)]))
  }

  /** Cards as both folds keep them. */
  ghost predicate Sound(cards: CardMap) {
    cards.Valid() && KnownStatuses(cards)
    && forall i :: 0 <= i < |cards.entries| ==>
         Coherent(cards.entries[i].val) && cards.entries[i].val.id == cards.entries[i].key
  }

  lemma SoundAt(cards: CardMap, id: string)
    requires Sound(cards) && cards.Has(id)
    ensures Coherent(cards.Get(id)) && StatusKnown(cards.Get(id)) && cards.Get(id).id == id
  {
  }

  lemma SoundPut(cards: CardMap, id: string, c: Card)
    requires Sound(cards) && Coherent(c) && StatusKnown(c) && c.id == id
    ensures Sound(cards.Put(id, c))
  {
    hide Coherent;
    hide StatusKnown;
  }

  /** Patching in place and rebuilding through the wire give the same card. */
  lemma PatchIsRebuild(c: Card, w: Wire, d: Defaults)
    requires Coherent(c) && StatusKnown(c) && SafePatch(w)
    ensures FromWire(ToWire(c) + w, d) == Ok(Patched(c, w))
    ensures Coherent(Patched(c, w)) && StatusKnown(Patched(c, w)) && Patched(c, w).id == c.id
  {
    var p := Patched(c, w);
    hide ToWire;
    hide FromWire;
    hide TypeRule;
    hide Updatable;
    WireKeys(c);
    WireKeys(p);
    assert ToWire(c) + w == ToWire(p) by {
      PatchedWire(c, w);
    }
    WireRoundTrip(p, d);
  }

  lemma PatchedWire(c: Card, w: Wire)
    requires Coherent(c) && SafePatch(w)
    ensures ToWire(c) + w == ToWire(Patched(c, w))
  {
    hide Updatable;
    hide TypeRule;
    hide TypeName;
    hide ToWire;
    var p := Patched(c, w);
    var a, b := ToWire(c) + w, ToWire(p);
    WireKeys(c);
    WireKeys(p);
    forall k
      ensures k in a <==> k in b
      ensures k in a ==> a[k] == b[k]
    {
      match k {
        case At(f) =>
          assert f in c.fields && f in p.fields;
          assert k in w ==> Updatable(f);
        case _ =>
          assert k !in w;
      }
    }
  }

  lemma CreateRefines(v: View, m: Mutation, c: Card, d: Defaults)
    requires Sound(v.cards) && m.op.Create? && m.cardId != "" && Trimmed(m.cardId)
    requires Coherent(c) && StatusKnown(c) && c.id == m.cardId && m.data == ToWire(c)
    ensures ApplyCards(v.cards, m, d) == Ok(v.cards.Put(m.cardId, c))
    ensures ApplyFrame(v, FrameOf(m), d) == (v.(cards := v.cards.Put(m.cardId, c)), true)
  {
    hide FromWire;
    hide ToWire;
    hide Sound;
    StripTrims(m.cardId);
    WireKeys(c);
    WireRoundTrip(c, d);
  }

  lemma PatchRefines(v: View, m: Mutation, d: Defaults)
    requires Sound(v.cards) && (m.op.Update? || m.op.Finalize?) && m.cardId != "" && Trimmed(m.cardId)
    requires v.cards.Has(m.cardId) && SafePatch(m.data)
    ensures ApplyFrame(v, FrameOf(m), d)
         == (v.(cards := v.cards.Put(m.cardId, Patched(v.cards.Get(m.cardId), m.data))), true)
    ensures Sound(v.cards.Put(m.cardId, Patched(v.cards.Get(m.cardId), m.data)))
  {
    hide FromWire;
    hide ToWire;
    hide Patched;
    hide Coherent;
    var c := v.cards.Get(m.cardId);
    StripTrims(m.cardId);
    SoundAt(v.cards, m.cardId);
    PatchIsRebuild(c, m.data, d);
    SoundPut(v.cards, m.cardId, Patched(c, m.data));
    hide Sound;
    var patch := m.data[IdKey := Str(m.cardId)];
    assert (map k | k in patch && k != IdKey && k != TypeKey :: patch[k]) == m.data;
    assert ParseFrame(FrameOf(m), d).patch == patch;
  }

  /** One record: when the ledger accepts it, the projection makes the same change. */
  lemma RecordRefines(v: View, m: Mutation, d: Defaults)
    requires Sound(v.cards) && WireSafe(m) && ApplyCards(v.cards, m, d).Ok?
    ensures ApplyFrame(v, FrameOf(m), d) == (v.(cards := ApplyCards(v.cards, m, d).value), true)
    ensures Sound(ApplyCards(v.cards, m, d).value)
  {
    hide ApplyFrame;
    hide Patched;
    if m.op.Create? {
      var c :| Coherent(c) && StatusKnown(c) && c.id == m.cardId && m.data == ToWire(c);
      CreateRefines(v, m, c, d);
      SoundPut(v.cards, m.cardId, c);
    } else {
      PatchRefines(v, m, d);
    }
  }

  /** The projection holds the same ordered cards as the ledger after every frame of a stream of
      safe records that the ledger accepts. */
  lemma {:induction false} ProjectionRefinesLedger(v: View, ms: seq<Mutation>, n: nat, d: Defaults)
    requires Sound(v.cards) && n <= |ms|
    requires (forall i :: 0 <= i < |ms| ==> WireSafe(ms[i])) && FoldCards(v.cards, ms, d).Ok?
    ensures FoldCards(v.cards, ms[..n], d) == Ok(FoldFrames(v, FramesOf(ms)[..n], d).cards)
    decreases n
  {
    hide ApplyCards;
    hide ApplyFrame;
    hide FrameOf;
    hide WireSafe;
    hide KnownStatuses;
    hide Coherent;
    if n > 0 {
      var rest := ms[1..];
      RecordRefines(v, ms[0], d);
      var v' := v.(cards := ApplyCards(v.cards, ms[0], d).value);
      ProjectionRefinesLedger(v', rest, n - 1, d);
      assert ms[..n][1..] == rest[..n - 1];
      assert FramesOf(ms)[..n][1..] == FramesOf(rest)[..n - 1];
    }
  }

  // ---------------------------------------------------------------- the two kinds of stream

  ghost predicate Trimmable(ids: seq<string>) {
    forall i :: 0 <= i < |ids| ==> ids[i] != "" && Trimmed(ids[i])
  }

  lemma SnapshotStreamSafe(cards: CardMap, startSeq: int, i: nat)
    requires Sound(cards) && Trimmable(cards.Keys()) && i < |cards.entries|
    ensures WireSafe(ToMutations(cards.entries, startSeq)[i])
  {
  }

  lemma SoundIsStorable(cards: CardMap)
    requires Sound(cards) && Trimmable(cards.Keys())
    ensures Storable(cards) && KnownStatuses(cards)
  {
  }

  lemma ReplayBeginsEmpty(v: View, d: Defaults)
    ensures ApplyFrame(v, Frame(ReplayBegin, Null, map[]), d).0 == View(Empty(), true)
    ensures Sound(Empty())
  {
  }

  /** A client that starts a replay and receives a ledger's snapshot ends with that ledger's
      cards, in its order. */
  lemma SnapshotReplayRebuilds(v: View, cards: CardMap, startSeq: int, d: Defaults)
    requires Sound(cards) && Trimmable(cards.Keys())
    ensures FoldFrames(ApplyFrame(v, Frame(ReplayBegin, Null, map[]), d).0,
                       FramesOf(ToMutations(cards.entries, startSeq)), d).cards == cards
  {
    hide ApplyCards;
    hide ApplyFrame;
    hide WireSafe;
    hide FoldCards;
    hide FoldFrames;
    hide KnownStatuses;
    var ms := ToMutations(cards.entries, startSeq);
    ReplayBeginsEmpty(v, d);
    SoundIsStorable(cards);
    ReplayCreates(cards, startSeq, d);
    forall i | 0 <= i < |ms|
      ensures WireSafe(ms[i])
    {
      SnapshotStreamSafe(cards, startSeq, i);
    }
    hide Sound;
    hide Storable;
    ProjectionRefinesLedger(View(Empty(), true), ms, |ms|, d);
    assert ms[..|ms|] == ms && FramesOf(ms)[..|ms|] == FramesOf(ms);
  }

  lemma DiffRecordSafe(prior: Option<Card>, c: Card, seqNo: int)
    requires Coherent(c) && StatusKnown(c) && c.id != "" && Trimmed(c.id)
    ensures DiffOne(prior, c, seqNo).Some? ==> WireSafe(DiffOne(prior, c, seqNo).value)
  {
  }

  /** Every record of a diff is safe on the wire. */
  lemma {:induction false} DiffStreamSafe(previous: seq<Card>, current: seq<Card>, startSeq: int)
    requires forall i :: 0 <= i < |current| ==> Coherent(current[i]) && StatusKnown(current[i])
    requires Trimmable(Ids(current))
    ensures forall i :: 0 <= i < |DiffSnapshots(previous, current, startSeq)| ==>
      WireSafe(DiffSnapshots(previous, current, startSeq)[i])
    decreases |current|
  {
    hide PriorOf;
    hide DiffOne;
    hide WireSafe;
    hide Coherent;
    hide StatusKnown;
    if current != [] {
      var one := DiffOne(PriorOf(previous, current[0].id), current[0], startSeq);
      assert Ids(current)[0] == current[0].id;
      assert Ids(current) == [current[0].id] + Ids(current[1..]);
      DiffRecordSafe(PriorOf(previous, current[0].id), current[0], startSeq);
      DiffStreamSafe(previous, current[1..], if one.None? then startSeq else startSeq + 1);
    }
  }

  /** A client in step with the ledger stays in step, frame by frame, through every diff the
      ledger folds. */
  lemma DiffStreamKeepsClientInStep(v: View, previous: seq<Card>, current: seq<Card>, startSeq: int, n: nat,
                                    d: Defaults)
    requires Sound(v.cards) && DistinctIds(current) && AllReady(v.cards, previous, current)
    requires Trimmable(Ids(current))
    requires forall i :: 0 <= i < |current| ==> StatusKnown(current[i])
    requires n <= |DiffSnapshots(previous, current, startSeq)|
    ensures var ms := DiffSnapshots(previous, current, startSeq);
      FoldCards(v.cards, ms[..n], d) == Ok(FoldFrames(v, FramesOf(ms)[..n], d).cards)
  {
    hide ApplyCards;
    hide PriorOf;
    hide WireSafe;
    hide Carries;
    DiffFolds(v.cards, previous, current, startSeq, d);
    assert forall i :: 0 <= i < |current| ==> Ready(v.cards, PriorOf(previous, current[i].id), current[i]);
    DiffStreamSafe(previous, current, startSeq);
    ProjectionRefinesLedger(v, DiffSnapshots(previous, current, startSeq), n, d);
  }

  /** Align, diff, send: a client that agrees with the ledger on the previous snapshot agrees with
      it after every frame of the update, and at the end. */
  lemma ClientFollowsRebind(l: Ledger, v: View, previous: seq<Card>, cards: seq<Card>, h: Hash, n: nat, d: Defaults)
    requires l.Valid() && Holds(l.cards, previous) && Inputs(previous, cards, h)
    requires NoRepeat(Keys(cards, h)) && (forall k :: Trimmed(h(k)))
    requires v.cards == l.cards && Sound(l.cards) && Trimmable(Ids(previous))
    requires n <= |DiffSnapshots(previous, Aligned(previous, cards, h), l.nextSeq)|
    ensures var ms := DiffSnapshots(previous, Aligned(previous, cards, h), l.nextSeq);
      CardsOf(Fold(l, ms[..n], d)) == Ok(FoldFrames(v, FramesOf(ms)[..n], d).cards)
  {
    hide ApplyCards;
    hide ApplyFrame;
    hide KeyAt;
    hide AlignOne;
    hide FoldCards;
    hide FoldFrames;
    hide PriorOf;
    RebindReady(l.cards, previous, cards, h);
    hide Aligned;
    hide Inputs;
    hide Sound;
    hide AllReady;
    var aligned := Aligned(previous, cards, h);
    var ms := DiffSnapshots(previous, aligned, l.nextSeq);
    hide DiffSnapshots;
    DiffStreamKeepsClientInStep(v, previous, aligned, l.nextSeq, n, d);
    FoldIsFoldCards(l, ms[..n], d);
  }

  lemma RebindReady(ledger: CardMap, previous: seq<Card>, cards: seq<Card>, h: Hash)
    requires ledger.Valid() && Holds(ledger, previous) && Inputs(previous, cards, h)
    requires NoRepeat(Keys(cards, h)) && (forall k :: Trimmed(h(k))) && Trimmable(Ids(previous))
    ensures var aligned := Aligned(previous, cards, h);
      && DistinctIds(aligned) && AllReady(ledger, previous, aligned) && Trimmable(Ids(aligned))
      && forall i :: 0 <= i < |aligned| ==> StatusKnown(aligned[i])
  {
    hide KeyAt;
    hide AlignOne;
    hide PriorOf;
    var aligned := Aligned(previous, cards, h);
    AlignedDistinct(previous, cards, h);
    HeldReady(ledger, previous, cards, h);
    forall i | 0 <= i < |aligned|
      ensures Ids(aligned)[i] != "" && Trimmed(Ids(aligned)[i]) && StatusKnown(aligned[i])
    {
      AlignedIdTrimmed(previous, cards, h, i);
    }
  }

  lemma AlignedIdTrimmed(previous: seq<Card>, cards: seq<Card>, h: Hash, i: nat)
    requires Inputs(previous, cards, h) && i < |cards| && Trimmable(Ids(previous))
    requires forall k :: Trimmed(h(k))
    ensures var c := Aligned(previous, cards, h)[i]; c.id != "" && Trimmed(c.id) && StatusKnown(c)
  {
    hide KeyAt;
    hide LastWith;
    hide PriorOf;
    var j := KeyedBy(previous, cards, h, i);
    if j < |previous| {
      assert Ids(previous)[j] == previous[j].id;
    } else {
      var text := h(Keys(cards, h)[i]);
      assert Trimmed(text);
      assert FreshId(Keys(cards, h)[i], h) == "card-" + text;
    }
    assert StatusKnown(cards[i]);
  }

  // ---------------------------------------------------------------- what a frame may touch

  /** The card a patch frame is about: the id in its payload, or else the one beside it. */
  function PatchedId(f: Frame): string {
    if IdKey in f.payload then Strip(TextOf(f.payload[IdKey])) else Strip(TextOf(f.cardId))
  }

  /** A patch frame is handled, and changes no card but its own, which it never adds, renames or retypes; a
      create is handled exactly when its payload makes a card, and stores that under its own id, unless that
      is blank; the beginning of a replay clears the cards, and only the two markers switch the flag. */
  lemma FramesTouchTheirCardOnly(v: View, f: Frame, d: Defaults, k: string)
    requires v.cards.Valid()
    ensures var (after, handled) := ApplyFrame(v, f, d);
      && (f.typ == NotACard ==> !handled && after == v)
      && (f.typ == ReplayBegin ==> handled && after == View(Empty(), true))
      && (f.typ == ReplayEnd ==> handled && after == View(v.cards, false))
      && (f.typ == Created ==>
            && (handled <==> TypeKey in f.payload && At(Content) in f.payload && FromWire(f.payload, d).Ok?)
            && (!handled ==> after == v)
            && (handled ==>
                  var c := FromWire(f.payload, d).value;
                  after == if Strip(c.id) == "" then v else View(v.cards.Put(Strip(c.id), c), v.replaying)))
      && (f.typ == Updated || f.typ == Finalized ==>
            && handled && after.replaying == v.replaying
            && (after.cards.Has(k) <==> v.cards.Has(k))
            && (v.cards.Has(k) && k != PatchedId(f) ==> after.cards.Get(k) == v.cards.Get(k)))
  {
    if f.typ == Updated || f.typ == Finalized {
      PatchesTouchTheirCardOnly(v, f, d, k);
    }
    hide FromWire;
    hide Strip;
    hide Overwrite;
    hide Dict.Put;
  }

  lemma PatchesTouchTheirCardOnly(v: View, f: Frame, d: Defaults, k: string)
    requires v.cards.Valid() && (f.typ == Updated || f.typ == Finalized)
    ensures var (after, handled) := ApplyFrame(v, f, d);
      && handled && after.replaying == v.replaying
      && (after.cards.Has(k) <==> v.cards.Has(k))
      && (v.cards.Has(k) && k != PatchedId(f) ==> after.cards.Get(k) == v.cards.Get(k))
  {
    var id := PatchedId(f);
    StripTrims(TextOf(f.cardId));
    BesideIsText(f);
    if id != "" && v.cards.Has(id) {
      OverwriteIsLocal(v.cards, id, f, d, k);
    }
    hide Strip;
    hide Overwrite;
  }

  lemma BesideIsText(f: Frame)
    ensures TextOf(Str(Strip(TextOf(f.cardId)))) == Strip(TextOf(f.cardId))
    ensures !Truthy(f.cardId) ==> Strip(TextOf(f.cardId)) == ""
    ensures Strip("") == "" && TextOf(Null) == ""
  {
  }

  lemma OverwriteIsLocal(cards: CardMap, id: string, f: Frame, d: Defaults, k: string)
    requires cards.Valid() && cards.Has(id)
    ensures forall patch ::
      var after := Overwrite(cards, id, patch, d);
      (after.Has(k) <==> cards.Has(k)) && (cards.Has(k) && k != id ==> after.Get(k) == cards.Get(k))
  {
    forall patch: Wire
      ensures var after := Overwrite(cards, id, patch, d);
        (after.Has(k) <==> cards.Has(k)) && (cards.Has(k) && k != id ==> after.Get(k) == cards.Get(k))
    {
      var wire := ToWire(cards.Get(id)) + (map p | p in patch && p != IdKey && p != TypeKey :: patch[p]);
      if FromWire(wire, d).Ok? {
        cards.PutLookup(id, FromWire(wire, d).value, k);
      }
      hide FromWire;
      hide ToWire;
      hide Dict.Put;
    }
  }

  /** The client object. */
  class CardProjection {
    var cards: CardMap
    var replaying: bool

    ghost function State(): View
      reads this
    {
      View(cards, replaying)
    }

    constructor ()
      ensures State() == View(Empty(), false)
    {
      cards, replaying := Empty(), false;
    }

    method Apply(f: Frame, d: Defaults) returns (handled: bool)
      modifies this
      ensures (State(), handled) == ApplyFrame(old(State()), f, d)
    {
      match ParseFrame(f, d) {
        case NotHandled =>
          return false;
        case Marker(t) =>
          if t == ReplayBegin {
            replaying := true;
            cards := Empty();
          } else {
            replaying := false;
          }
        case FullCard(c) =>
          var id := Strip(c.id);
          if id == "" {
            return true;
          }
          cards := cards.Put(id, c);
        case Patch(_, patch) =>
          var id := Strip(TextOf(if IdKey in patch then patch[IdKey] else Null));
          if id == "" || !cards.Has(id) {
            return true;
          }
          var wire := ToWire(cards.Get(id));
          wire := wire + (map k | k in patch && k != IdKey && k != TypeKey :: patch[k]);
          match FromWire(wire, d) {
            case Ok(c) => cards := cards.Put(id, c);
            case Err(_) =>
          }
      }
      return true;
    }
  }
}
