/** What a ledger holds after a log: the latest state of each card, read from the log itself
    (`display/card_ledger.py`). */
module CardHistory {
  import opened PythonText
  import opened JsonValues
  import opened OrderedDict
  import opened Cards
  import opened CardLedger

  // ---------------------------------------------------------------- one patch

  /** The fields that name what a card is about. */
  predicate Fixed(f: Field) {
    f == ToolName || f == ToolArgs || f == SkillName || f == SkillSource || f == StepProgressId
  }

  /** A patch never changes id, type, timestamp or a fixed field, and sets each other field it names. */
  lemma PatchReaches(c: Card, patch: Wire, f: Field)
    requires f in c.fields
    ensures var r := Patched(c, patch);
      && r.id == c.id && r.typ == c.typ && r.timestamp == c.timestamp && f in r.fields
      && r.fields[f] == if At(f) in patch && !Fixed(f) then patch[At(f)] else c.fields[f]
  {
  }

  // ---------------------------------------------------------------- a log without creates of a card

  predicate Creates(m: Mutation, k: string) { m.op.Create? && m.cardId == k }

  predicate Patches(m: Mutation, k: string) { (m.op.Update? || m.op.Finalize?) && m.cardId == k }

  /** The value of a field after a log that starts from `base`: the last patch of the card that names it. */
  function FieldAfter(base: Json, ms: seq<Mutation>, k: string, f: Field): Json {
    if ms == [] then base
    else
      var last := ms[|ms| - 1];
      if Patches(last, k) && At(f) in last.data && !Fixed(f) then last.data[At(f)]
      else FieldAfter(base, ms[..|ms| - 1], k, f)
  }

  /** The card is the given one with the fields that the log leaves. */
  ghost predicate CardAfter(base: Card, ms: seq<Mutation>, k: string, now: Card) {
    && now.id == base.id && now.typ == base.typ && now.timestamp == base.timestamp
    && forall f: Field :: f in base.fields ==> f in now.fields && now.fields[f] == FieldAfter(base.fields[f], ms, k, f)
  }

  lemma OneMutation(cards: CardMap, m: Mutation, k: string, d: Defaults)
    requires cards.Valid() && ApplyCards(cards, m, d).Ok?
    ensures var r := ApplyCards(cards, m, d).value;
      && (Creates(m, k) ==> FromWire(m.data, d).Ok? && r.Has(k) && r.Get(k) == FromWire(m.data, d).value)
      && (Patches(m, k) ==> cards.Has(k) && r.Has(k) && r.Get(k) == Patched(cards.Get(k), m.data))
      && (!Creates(m, k) && !Patches(m, k) ==>
            (r.Has(k) <==> cards.Has(k)) && (cards.Has(k) ==> r.Get(k) == cards.Get(k)))
  {
    hide FromWire;
    hide Patched;
    if m.op.Create? {
      cards.PutLookup(m.cardId, FromWire(m.data, d).value, k);
    } else if m.op.Update? || m.op.Finalize? {
      cards.PutLookup(m.cardId, Patched(cards.Get(m.cardId), m.data), k);
    }
    hide Dict.Put;
    hide Dict.Has;
    hide Dict.Get;
  }

  lemma PatchedAfter(base: Card, ms: seq<Mutation>, k: string, now: Card, m: Mutation, next: Card)
    requires CardAfter(base, ms, k, now)
    requires next == if Patches(m, k) then Patched(now, m.data) else now
    ensures CardAfter(base, ms + [m], k, next)
  {
    var more := ms + [m];
    assert more[|more| - 1] == m && more[..|more| - 1] == ms;
    forall f: Field | f in base.fields
      ensures f in next.fields && next.fields[f] == FieldAfter(base.fields[f], more, k, f)
    {
      PatchReaches(now, m.data, f);
      hide Patched;
      hide Fixed;
    }
  }

  /** Without a create, a card that is there has what the patches leave, and one that is not stays away. */
  lemma {:induction false} WithoutCreates(cards: CardMap, ms: seq<Mutation>, k: string, d: Defaults)
    requires cards.Valid() && FoldCards(cards, ms, d).Ok? && forall i :: 0 <= i < |ms| ==> !Creates(ms[i], k)
    ensures var r := FoldCards(cards, ms, d).value;
      && (r.Has(k) <==> cards.Has(k))
      && (cards.Has(k) ==> CardAfter(cards.Get(k), ms, k, r.Get(k)))
    decreases |ms|
  {
    if ms != [] {
      var n := |ms| - 1;
      assert ms == ms[..n] + [ms[n]];
      FoldCardsSplits(cards, ms[..n], [ms[n]], d);
      OneFold(FoldCards(cards, ms[..n], d).value, ms[n], d);
      WithoutCreates(cards, ms[..n], k, d);
      var before := FoldCards(cards, ms[..n], d).value;
      OneMutation(before, ms[n], k, d);
      hide FoldCards;
      hide ApplyCards;
      hide CardAfter;
      if cards.Has(k) {
        PatchedAfter(cards.Get(k), ms[..n], k, before.Get(k), ms[n], FoldCards(cards, ms, d).value.Get(k));
      }
    }
  }

  lemma OneFold(cards: CardMap, m: Mutation, d: Defaults)
    requires cards.Valid()
    ensures FoldCards(cards, [m], d) == ApplyCards(cards, m, d)
  {
    hide ApplyCards;
    assert [m][1..] == [];
  }

  // ---------------------------------------------------------------- the latest state

  /** The j-th record is the last that creates the card. */
  ghost predicate LastCreate(ms: seq<Mutation>, k: string, j: nat) {
    j < |ms| && Creates(ms[j], k) && forall i :: j < i < |ms| ==> !Creates(ms[i], k)
  }

  /** After any log that folds, a card is what its last create made it, with every updatable field set by
      the last later patch that names it; a card never created in it is what it was before, so patched. */
  lemma LatestState(cards: CardMap, ms: seq<Mutation>, k: string, j: nat, d: Defaults)
    requires cards.Valid() && FoldCards(cards, ms, d).Ok? && LastCreate(ms, k, j)
    ensures FromWire(ms[j].data, d).Ok? && FoldCards(cards, ms, d).value.Has(k)
    ensures CardAfter(FromWire(ms[j].data, d).value, ms[j + 1..], k, FoldCards(cards, ms, d).value.Get(k))
  {
    var head, tail := ms[..j], ms[j + 1..];
    assert ms == head + ([ms[j]] + tail);
    FoldCardsSplits(cards, head, [ms[j]] + tail, d);
    var before := FoldCards(cards, head, d).value;
    FoldCardsSplits(before, [ms[j]], tail, d);
    OneFold(before, ms[j], d);
    OneMutation(before, ms[j], k, d);
    var created := ApplyCards(before, ms[j], d).value;
    forall i | 0 <= i < |tail|
      ensures !Creates(tail[i], k)
    {
      assert tail[i] == ms[j + 1 + i];
    }
    hide FoldCards;
    hide ApplyCards;
    hide FromWire;
    WithoutCreates(created, tail, k, d);
  }

  // ---------------------------------------------------------------- order

  /** The ids in the order of their first create. */
  function FirstCreated(known: seq<string>, ms: seq<Mutation>): seq<string>
    decreases |ms|
  {
    if ms == [] then known
    else FirstCreated(if ms[0].op.Create? && ms[0].cardId !in known then known + [ms[0].cardId] else known, ms[1..])
  }

  /** A ledger lists its cards in the order in which they were first created, however often later. */
  lemma {:induction false} OrderOfFirstCreates(cards: CardMap, ms: seq<Mutation>, d: Defaults)
    requires cards.Valid() && FoldCards(cards, ms, d).Ok?
    ensures FoldCards(cards, ms, d).value.Keys() == FirstCreated(cards.Keys(), ms)
    decreases |ms|
  {
    hide FromWire;
    hide Patched;
    if ms != [] {
      KeysAfter(cards, ms[0], d);
      hide ApplyCards;
      OrderOfFirstCreates(ApplyCards(cards, ms[0], d).value, ms[1..], d);
    }
  }

  lemma KeysAfter(cards: CardMap, m: Mutation, d: Defaults)
    requires cards.Valid() && ApplyCards(cards, m, d).Ok?
    ensures ApplyCards(cards, m, d).value.Keys()
         == if m.op.Create? && m.cardId !in cards.Keys() then cards.Keys() + [m.cardId] else cards.Keys()
  {
    hide FromWire;
    hide Patched;
    KeyListed(cards, m.cardId);
    if m.op.Create? {
      cards.PutEffect(m.cardId, FromWire(m.data, d).value);
    } else if m.op.Update? || m.op.Finalize? {
      cards.PutEffect(m.cardId, Patched(cards.Get(m.cardId), m.data));
    }
    assert cards.Keys() + [] == cards.Keys();
    hide Dict.Put;
    hide Dict.Keys;
  }

  lemma KeyListed(cards: CardMap, k: string)
    ensures cards.Has(k) <==> k in cards.Keys()
  {
    if cards.Has(k) {
      assert cards.Keys()[IndexOf(cards.entries, k)] == k;
    }
  }

  // ---------------------------------------------------------------- refusals

  /** Which records are refused, and why: only a header may lack a card id; a create needs a payload that
      makes a card; a patch needs a card that is there; and any other operation is unknown. */
  lemma RefusedExactlyWhen(cards: CardMap, m: Mutation, d: Defaults)
    requires cards.Valid()
    ensures var r := ApplyCards(cards, m, d);
      && (r == Err(MissingCardId) <==> !m.op.Header? && m.cardId == "")
      && (r == Err(UnknownCard) <==> (m.op.Update? || m.op.Finalize?) && m.cardId != "" && !cards.Has(m.cardId))
      && (r == Err(UnknownOp) <==> m.op.OtherOp? && m.cardId != "")
      && (r == Err(BadPayload) <==>
            || (m.op.Header? && Other("card_schema_version") in m.data
                && IntOf(m.data[Other("card_schema_version")]).None?)
            || (m.op.Create? && m.cardId != "" && FromWire(m.data, d).Err?))
  {
    PayloadErrors(m.data, d);
    hide FromWire;
    hide Patched;
    hide Dict.Put;
    hide Dict.Has;
    hide IntOf;
  }

  lemma PayloadErrors(w: Wire, d: Defaults)
    ensures FromWire(w, d).Err? ==> FromWire(w, d) == Err(BadPayload)
  {
    hide TypeNamed;
  }

  /** A payload makes a card exactly when it holds known keys only, a known type and a content, an id that
      is a string if any, a known status, and the name that a tool or a skill needs; fields it leaves
      out have their defaults, and so have its id and its timestamp. */
  lemma MakesACardExactlyWhen(w: Wire, d: Defaults)
    ensures FromWire(w, d).Ok?
       <==> (&& (forall k :: k in w ==> !k.Other?)
             && TypeKey in w && w[TypeKey].Str? && TypeNamed(w[TypeKey].s).Some? && At(Content) in w
             && (IdKey in w ==> w[IdKey].Str?)
             && (At(ToolStatus) in w && w[At(ToolStatus)].Str? ==>
                   w[At(ToolStatus)].s in {"pending", "running", "success", "error", "rejected", "skipped"})
             && (w[TypeKey].s == "tool" ==> At(ToolName) in w && Truthy(w[At(ToolName)]))
             && (w[TypeKey].s == "skill" ==> At(SkillName) in w && Truthy(w[At(SkillName)])))
    ensures FromWire(w, d).Ok? ==>
      var c := FromWire(w, d).value;
      && c.id == (if IdKey in w then w[IdKey].s else d.id)
      && c.timestamp == (if TimestampKey in w then w[TimestampKey] else d.timestamp)
      && TypeName(c.typ) == w[TypeKey].s
      && (forall f: Field :: f in c.fields && c.fields[f] ==
            if At(f) in w then w[At(f)]
            else if f == ToolExpanded || f == SkillExpanded || f == IsStreaming then Bool(false) else Null)
  {
    if TypeKey in w && w[TypeKey].Str? {
      NameOfNamed(w[TypeKey].s);
    }
    hide TypeNamed;
    hide TypeName;
    hide Truthy;
    FieldsOfReads(w);
    hide FieldsOf;
  }

  lemma FieldsOfReads(w: Wire)
    ensures forall f: Field :: f in FieldsOf(w) && FieldsOf(w)[f] == FieldOf(w, f)
  {
  }

  lemma NameOfNamed(name: string)
    ensures TypeNamed(name).Some? ==> TypeName(TypeNamed(name).value) == name
    ensures TypeNamed(name) == Some(Tool) <==> name == "tool"
    ensures TypeNamed(name) == Some(Skill) <==> name == "skill"
  {
  }

  // ---------------------------------------------------------------- numbers and the loop

  /** The next number is above every record folded, and above nothing else. */
  lemma {:induction false} NextIsAboveEveryRecord(l: Ledger, ms: seq<Mutation>, d: Defaults)
    requires l.Valid() && Fold(l, ms, d).Ok?
    ensures var next := Fold(l, ms, d).value.nextSeq;
      && l.nextSeq <= next && (forall i :: 0 <= i < |ms| ==> ms[i].seqNo < next)
      && (next == l.nextSeq || exists i :: 0 <= i < |ms| && next == ms[i].seqNo + 1)
    decreases |ms|
  {
    hide ApplyCards;
    if ms != [] {
      var l' := Apply(l, ms[0], d).value;
      NextIsAboveEveryRecord(l', ms[1..], d);
      hide Apply;
      var next := Fold(l, ms, d).value.nextSeq;
      assert forall i :: 0 < i < |ms| ==> ms[i] == ms[1..][i - 1];
      if next != l'.nextSeq {
        var i :| 0 <= i < |ms[1..]| && next == ms[1..][i].seqNo + 1;
        assert next == ms[i + 1].seqNo + 1;
      }
    }
  }

  /** A ledger keeps the loop it was made for; made for none, it takes the first loop a header names. */
  lemma {:induction false} LoopIsTheFirstNamed(l: Ledger, ms: seq<Mutation>, d: Defaults)
    requires l.Valid() && Fold(l, ms, d).Ok?
    ensures Fold(l, ms, d).value.loopId == if l.loopId != "" then l.loopId else FirstLoop(ms)
    decreases |ms|
  {
    hide FromWire;
    hide PatchCards;
    hide IntOf;
    hide PyStr;
    if ms != [] {
      LoopIsTheFirstNamed(Apply(l, ms[0], d).value, ms[1..], d);
    }
  }

  function FirstLoop(ms: seq<Mutation>): string {
    if ms == [] then ""
    else if ms[0].op.Header? && Other("loop_id") in ms[0].data && PyStr(ms[0].data[Other("loop_id")]) != ""
    then PyStr(ms[0].data[Other("loop_id")])
    else FirstLoop(ms[1..])
  }

  /** The last header record read, if the log has one. */
  function LastHeader(ms: seq<Mutation>): Option<Mutation> {
    if ms == [] then None
    else if ms[|ms| - 1].op.Header? then Some(ms[|ms| - 1])
    else LastHeader(ms[..|ms| - 1])
  }

  /** A header says what its record says: version one, no loop and no author by default. */
  predicate SaysHeader(h: HeaderInfo, w: Wire) {
    && (Other("card_schema_version") in w ==> IntOf(w[Other("card_schema_version")]) == Some(h.version))
    && (Other("card_schema_version") !in w ==> h.version == 1)
    && h.loopId == (if Other("loop_id") in w then PyStr(w[Other("loop_id")]) else "")
    && h.createdBy == (if Other("created_by") in w then PyStr(w[Other("created_by")]) else "")
  }

  lemma {:induction false} FoldMore(l: Ledger, ms: seq<Mutation>, m: Mutation, d: Defaults)
    requires l.Valid()
    ensures Fold(l, ms + [m], d) == (var r := Fold(l, ms, d); if r.Err? then r else Apply(r.value, m, d))
    decreases |ms|
  {
    hide Apply;
    if ms == [] {
      assert [] + [m] == [m] && [m][1..] == [];
    } else {
      assert (ms + [m])[0] == ms[0] && (ms + [m])[1..] == ms[1..] + [m];
      if Apply(l, ms[0], d).Ok? {
        FoldMore(Apply(l, ms[0], d).value, ms[1..], m, d);
      }
    }
  }

  /** A ledger has the header of the last header record, or the one it had. */
  lemma {:induction false} HeaderIsTheLast(l: Ledger, ms: seq<Mutation>, d: Defaults)
    requires l.Valid() && Fold(l, ms, d).Ok?
    ensures match LastHeader(ms)
      case None => Fold(l, ms, d).value.header == l.header
      case Some(m) => SaysHeader(Fold(l, ms, d).value.header, m.data)
    decreases |ms|
  {
    if ms != [] {
      var n := |ms| - 1;
      assert ms == ms[..n] + [ms[n]];
      FoldMore(l, ms[..n], ms[n], d);
      HeaderIsTheLast(l, ms[..n], d);
      HeaderAfter(Fold(l, ms[..n], d).value, ms[n], d);
      hide Fold;
      hide Apply;
      hide SaysHeader;
    }
  }

  lemma HeaderAfter(l: Ledger, m: Mutation, d: Defaults)
    requires l.Valid() && Apply(l, m, d).Ok?
    ensures if m.op.Header? then SaysHeader(Apply(l, m, d).value.header, m.data)
            else Apply(l, m, d).value.header == l.header
  {
    hide FromWire;
    hide PatchCards;
    hide IntOf;
    hide PyStr;
  }
}
