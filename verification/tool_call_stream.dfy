/** Streaming tool-call arguments, gathered by call id over any number of messages
    (`display/message_processing.py`). */
module ToolCallStream {
  import opened PythonText
  import opened JsonValues

  datatype PendingCall = PendingCall(name: Json, argsText: string, complete: bool, emitted: bool, isMain: bool)

  /** The pending calls and the id that orphan fragments go to. */
  datatype Stream = Stream(pending: map<string, PendingCall>, active: string)

  function IdOf(tc: JsonMap): string {
    var raw := Get(tc, "id");
    if raw == Null || raw == Str("") then "" else PyStr(raw)
  }

  function ArgsOf(tc: JsonMap): Json {
    if "args" in tc then tc["args"] else Str("")
  }

  predicate IsDict(args: Json) { args.Obj? && args.fields != map[] }

  predicate IsText(args: Json) { args.Str? && args.s != "" }

  /** One dict chunk; `dumps` renders complete arguments. */
  function Took(dumps: JsonMap -> string, isMain: bool, s: Stream, tc: JsonMap): Stream {
    var id, name, args := IdOf(tc), Get(tc, "name"), ArgsOf(tc);
    if Truthy(name) && id != "" && id !in s.pending then
      var text := if args.Str? then args.s else if IsDict(args) then dumps(args.fields) else "";
      Stream(s.pending[id := PendingCall(name, text, IsDict(args), false, isMain)], id)
    else if id != "" && id in s.pending && IsDict(args) then
      Stream(s.pending[id := s.pending[id].(argsText := dumps(args.fields), complete := true)], id)
    else if id != "" && id in s.pending && IsText(args) then
      var call := s.pending[id];
      Stream(s.pending[id := call.(argsText := if call.complete then args.s else call.argsText + args.s,
                                   complete := false)], id)
    else if IsText(args) && s.active != "" && s.active in s.pending && !s.pending[s.active].emitted then
      s.(pending := s.pending[s.active := s.pending[s.active].(argsText := s.pending[s.active].argsText + args.s)])
    else s
  }

  function Step(dumps: JsonMap -> string, isMain: bool, s: Stream, tc: Json): Stream {
    if tc.Obj? then Took(dumps, isMain, s, tc.fields) else s
  }

  function Run(dumps: JsonMap -> string, isMain: bool, s: Stream, chunks: seq<Json>): Stream
    decreases |chunks|
  {
    if chunks == [] then s else Run(dumps, isMain, Step(dumps, isMain, s, chunks[0]), chunks[1..])
  }

  /** The dictionary of pending calls, changed in place. */
  class PendingCalls {
    var pending: map<string, PendingCall>

    constructor ()
      ensures pending == map[]
    {
      pending := map[];
    }

    /** `accumulate_tool_call_chunks`. */
    method Accumulate(dumps: JsonMap -> string, chunks: seq<Json>, isMain: bool, lastActive: string)
      returns (active: string)
      modifies this
      ensures Stream(pending, active) == Run(dumps, isMain, Stream(old(pending), lastActive), chunks)
    {
      hide PyStr;
      active := lastActive;
      var i := 0;
      while i < |chunks|
        invariant i <= |chunks|
        invariant Run(dumps, isMain, Stream(pending, active), chunks[i..])
               == Run(dumps, isMain, Stream(old(pending), lastActive), chunks)
      {
        assert chunks[i..][0] == chunks[i] && chunks[i..][1..] == chunks[i + 1..];
        if chunks[i].Obj? {
          active := Take(dumps, chunks[i].fields, isMain, active);
        }
        i := i + 1;
      }
    }

    method Take(dumps: JsonMap -> string, tc: JsonMap, isMain: bool, lastActive: string) returns (active: string)
      modifies this
      ensures Stream(pending, active) == Took(dumps, isMain, Stream(old(pending), lastActive), tc)
    {
      hide PyStr;
      active := lastActive;
      var id, name, args := IdOf(tc), Get(tc, "name"), ArgsOf(tc);
      if Truthy(name) && id != "" && id !in pending {
        var text, complete := "", false;
        if args.Str? {
          text := args.s;
        } else if IsDict(args) {
          text, complete := dumps(args.fields), true;
        }
        pending := pending[id := PendingCall(name, text, complete, false, isMain)];
        active := id;
      } else if id != "" && id in pending && IsDict(args) {
        pending := pending[id := pending[id].(argsText := dumps(args.fields), complete := true)];
        active := id;
      } else if id != "" && id in pending && IsText(args) {
        if pending[id].complete {
          pending := pending[id := pending[id].(argsText := args.s, complete := false)];
        } else {
          pending := pending[id := pending[id].(argsText := pending[id].argsText + args.s)];
        }
        active := id;
      } else if IsText(args) && active != "" && active in pending && !pending[active].emitted {
        pending := pending[active := pending[active].(argsText := pending[active].argsText + args.s)];
      }
    }
  }

  // ---------------------------------------------------------------- non-interference

  /** Every chunk has an id, and the first one of an id carries its name. */
  predicate Named(known: set<string>, chunks: seq<Json>)
    decreases |chunks|
  {
    chunks != [] ==>
      if !chunks[0].Obj? then Named(known, chunks[1..])
      else
        var id := IdOf(chunks[0].fields);
        id != "" && (id in known || Truthy(Get(chunks[0].fields, "name"))) && Named(known + {id}, chunks[1..])
  }

  /** The chunks of one id, in order. */
  function Only(id: string, chunks: seq<Json>): seq<Json> {
    if chunks == [] then []
    else (if chunks[0].Obj? && IdOf(chunks[0].fields) == id then [chunks[0]] else []) + Only(id, chunks[1..])
  }

  function Entry(s: Stream, id: string): Option<PendingCall> {
    if id in s.pending then Some(s.pending[id]) else None
  }

  /** A named chunk changes only the entry of its own id, and by that entry alone. */
  lemma StepIsLocal(dumps: JsonMap -> string, isMain: bool, s: Stream, t: Stream, tc: JsonMap, id: string)
    requires IdOf(tc) != "" && (IdOf(tc) in s.pending || Truthy(Get(tc, "name")))
    ensures var s' := Took(dumps, isMain, s, tc);
      && s'.pending.Keys == s.pending.Keys + {IdOf(tc)}
      && (id != IdOf(tc) ==> Entry(s', id) == Entry(s, id))
      && (id == IdOf(tc) && Entry(s, id) == Entry(t, id) ==> Entry(s', id) == Entry(Took(dumps, isMain, t, tc), id))
  {
    hide IdOf;
  }

  /** Whatever the interleaving, the entry of an id is what the chunks of that id alone give. */
  lemma {:induction false} StreamsDoNotInterfere(dumps: JsonMap -> string, isMain: bool, s: Stream, t: Stream,
                                                 chunks: seq<Json>, id: string)
    requires Named(s.pending.Keys, chunks) && Entry(s, id) == Entry(t, id)
    ensures Entry(Run(dumps, isMain, s, chunks), id) == Entry(Run(dumps, isMain, t, Only(id, chunks)), id)
    decreases |chunks|
  {
    hide Took;
    hide IdOf;
    hide Entry;
    if chunks != [] {
      var rest := chunks[1..];
      if !chunks[0].Obj? {
        assert [] + Only(id, rest) == Only(id, rest);
        StreamsDoNotInterfere(dumps, isMain, s, t, rest, id);
      } else {
        var tc := chunks[0].fields;
        var s' := Took(dumps, isMain, s, tc);
        StepIsLocal(dumps, isMain, s, t, tc, id);
        if IdOf(tc) == id {
          assert ([chunks[0]] + Only(id, rest))[1..] == Only(id, rest);
          StreamsDoNotInterfere(dumps, isMain, s', Took(dumps, isMain, t, tc), rest, id);
        } else {
          assert [] + Only(id, rest) == Only(id, rest);
          StreamsDoNotInterfere(dumps, isMain, s', t, rest, id);
        }
      }
    }
  }

  /** Two interleavings of the same per-id streams end with the same pending calls, whatever id was
      active before each. */
  lemma InterleavingDoesNotMatter(dumps: JsonMap -> string, isMain: bool, s: Stream, t: Stream,
                                  a: seq<Json>, b: seq<Json>)
    requires s.pending == t.pending && Named(s.pending.Keys, a) && Named(t.pending.Keys, b)
    requires forall id :: Only(id, a) == Only(id, b)
    ensures Run(dumps, isMain, s, a).pending == Run(dumps, isMain, t, b).pending
  {
    var l, r := Run(dumps, isMain, s, a), Run(dumps, isMain, t, b);
    forall id
      ensures Entry(l, id) == Entry(r, id)
    {
      StreamsDoNotInterfere(dumps, isMain, s, s, a, id);
      StreamsDoNotInterfere(dumps, isMain, t, s, b, id);
      assert Only(id, a) == Only(id, b);
    }
    assert forall id :: id in l.pending <==> Entry(l, id).Some?;
    assert forall id :: id in r.pending <==> Entry(r, id).Some?;
    assert forall id :: id in l.pending ==> l.pending[id] == Entry(l, id).value;
    assert forall id :: id in r.pending ==> r.pending[id] == Entry(r, id).value;
  }

  /** Successive calls, each told any id as the last active one. */
  function RunCalls(dumps: JsonMap -> string, isMain: bool, pending: map<string, PendingCall>,
                    calls: seq<(seq<Json>, string)>): map<string, PendingCall>
    decreases |calls|
  {
    if calls == [] then pending
    else RunCalls(dumps, isMain, Run(dumps, isMain, Stream(pending, calls[0].1), calls[0].0).pending, calls[1..])
  }

  function Joined(calls: seq<(seq<Json>, string)>): seq<Json> {
    if calls == [] then [] else calls[0].0 + Joined(calls[1..])
  }

  lemma {:induction false} NamedSplits(dumps: JsonMap -> string, isMain: bool, s: Stream, a: seq<Json>, b: seq<Json>)
    requires Named(s.pending.Keys, a + b)
    ensures Named(s.pending.Keys, a) && Named(Run(dumps, isMain, s, a).pending.Keys, b)
    ensures Run(dumps, isMain, s, a + b) == Run(dumps, isMain, Run(dumps, isMain, s, a), b)
    decreases |a|
  {
    hide Took;
    hide IdOf;
    if a == [] {
      assert a + b == b;
    } else {
      assert (a + b)[0] == a[0] && (a + b)[1..] == a[1..] + b;
      if a[0].Obj? {
        StepIsLocal(dumps, isMain, s, s, a[0].fields, "");
      }
      NamedSplits(dumps, isMain, Step(dumps, isMain, s, a[0]), a[1..], b);
    }
  }

  /** Splitting a stream into successive calls changes nothing. */
  lemma {:induction false} SplittingDoesNotMatter(dumps: JsonMap -> string, isMain: bool, s: Stream,
                                                  calls: seq<(seq<Json>, string)>)
    requires Named(s.pending.Keys, Joined(calls))
    ensures RunCalls(dumps, isMain, s.pending, calls) == Run(dumps, isMain, s, Joined(calls)).pending
    decreases |calls|
  {
    hide Named;
    hide Run;
    if calls == [] {
      EmptyRun(dumps, isMain, s);
    } else {
      var head, rest := calls[0].0, Joined(calls[1..]);
      var first := Run(dumps, isMain, Stream(s.pending, calls[0].1), head);
      NamedSplits(dumps, isMain, s, head, rest);
      InterleavingDoesNotMatter(dumps, isMain, s, Stream(s.pending, calls[0].1), head, head);
      NamedSplits(dumps, isMain, Stream(s.pending, calls[0].1), head, rest);
      SplittingDoesNotMatter(dumps, isMain, first, calls[1..]);
      InterleavingDoesNotMatter(dumps, isMain, first, Run(dumps, isMain, s, head), rest, rest);
    }
  }

  lemma EmptyRun(dumps: JsonMap -> string, isMain: bool, s: Stream)
    ensures Run(dumps, isMain, s, []) == s
  {
  }

  /** Exactly when a chunk changes the entry of a call other than its own: it names no pending call and
      registers none, it carries text, and another call is active, pending and not yet emitted. */
  lemma ChangesAnotherExactlyWhen(dumps: JsonMap -> string, isMain: bool, s: Stream, tc: JsonMap)
    ensures var s', id := Took(dumps, isMain, s, tc), IdOf(tc);
      (exists other :: other != id && Entry(s', other) != Entry(s, other))
      <==> (id == "" || (id !in s.pending && !Truthy(Get(tc, "name"))))
           && IsText(ArgsOf(tc))
           && s.active != "" && s.active != id && s.active in s.pending && !s.pending[s.active].emitted
  {
    hide IdOf;
    var s', id := Took(dumps, isMain, s, tc), IdOf(tc);
    if s.active in s.pending && s.active in s'.pending && s.active != id {
      assert |s'.pending[s.active].argsText| != |s.pending[s.active].argsText| ==>
        Entry(s', s.active) != Entry(s, s.active);
    }
  }

  // ---------------------------------------------------------------- fragments

  function Fragment(id: string, text: string): Json {
    Obj(map["id" := Str(id), "args" := Str(text)])
  }

  function Text(fragments: seq<string>): string {
    if fragments == [] then "" else fragments[0] + Text(fragments[1..])
  }

  function Fragments(id: string, texts: seq<string>): seq<Json> {
    if texts == [] then [] else [Fragment(id, texts[0])] + Fragments(id, texts[1..])
  }

  lemma Concatenated(a: string, texts: seq<string>)
    requires texts != []
    ensures a + Text(texts) == a + texts[0] + Text(texts[1..])
  {
  }

  lemma FragmentAdds(dumps: JsonMap -> string, isMain: bool, s: Stream, id: string, text: string)
    requires id != "" && id in s.pending && !s.pending[id].complete
    ensures var s' := Step(dumps, isMain, s, Fragment(id, text));
      id in s'.pending && s'.pending[id] == s.pending[id].(argsText := s.pending[id].argsText + text)
  {
  }

  /** Fragments of one call are concatenated. */
  lemma {:induction false} FragmentsConcatenate(dumps: JsonMap -> string, isMain: bool, s: Stream, id: string,
                                                texts: seq<string>)
    requires id != "" && id in s.pending && !s.pending[id].complete
    ensures var s' := Run(dumps, isMain, s, Fragments(id, texts));
      id in s'.pending && s'.pending[id] == s.pending[id].(argsText := s.pending[id].argsText + Text(texts))
    decreases |texts|
  {
    if texts == [] {
      assert s.pending[id].argsText + "" == s.pending[id].argsText;
    } else {
      var one := Fragment(id, texts[0]);
      FragmentAdds(dumps, isMain, s, id, texts[0]);
      hide Step;
      hide Fragment;
      var s' := Step(dumps, isMain, s, one);
      assert Fragments(id, texts) == [one] + Fragments(id, texts[1..]);
      assert Fragments(id, texts)[1..] == Fragments(id, texts[1..]) && Fragments(id, texts)[0] == one;
      FragmentsConcatenate(dumps, isMain, s', id, texts[1..]);
      Concatenated(s.pending[id].argsText, texts);
    }
  }

  // ---------------------------------------------------------------- what a call's arguments come to

  /** A chunk of the call. */
  predicate Own(id: string, tc: Json) { tc.Obj? && IdOf(tc.fields) == id }

  /** A chunk with complete arguments, a dictionary that is not empty. */
  predicate WholeArgs(tc: Json) {
    tc.Obj? && "args" in tc.fields && tc.fields["args"].Obj? && tc.fields["args"].fields != map[]
  }

  /** The text of arguments a chunk carries. */
  function ArgsFragment(tc: Json): string {
    if tc.Obj? && "args" in tc.fields && tc.fields["args"].Str? then tc.fields["args"].s else ""
  }

  function Fragmented(own: seq<Json>): string {
    if own == [] then "" else Fragmented(own[..|own| - 1]) + ArgsFragment(own[|own| - 1])
  }

  /** The last chunk with complete arguments, or the number of chunks. */
  function LastWhole(own: seq<Json>): (n: nat)
    ensures n <= |own| && (n < |own| ==> WholeArgs(own[n])) && forall k :: n < k < |own| ==> !WholeArgs(own[k])
    ensures n == |own| ==> forall k :: 0 <= k < |own| ==> !WholeArgs(own[k])
  {
    if own == [] then 0
    else
      var last := |own| - 1;
      if WholeArgs(own[last]) then last
      else
        var n := LastWhole(own[..last]);
        if n == last then |own| else n
  }

  /** The text since the last complete arguments. */
  function TextSince(own: seq<Json>): string {
    var n := LastWhole(own);
    if n == |own| then Fragmented(own) else Fragmented(own[n + 1..])
  }

  /** What the chunks of a call come to: the text since the last complete arguments, or those arguments
      themselves when no text followed. */
  function ArgumentsOf(dumps: JsonMap -> string, own: seq<Json>): string {
    var n := LastWhole(own);
    if n < |own| && TextSince(own) == "" then dumps(own[n].fields["args"].fields) else TextSince(own)
  }

  predicate Complete(own: seq<Json>) {
    LastWhole(own) < |own| && TextSince(own) == ""
  }

  lemma {:induction false} RunMore(dumps: JsonMap -> string, isMain: bool, s: Stream, chunks: seq<Json>, tc: Json)
    ensures Run(dumps, isMain, s, chunks + [tc]) == Step(dumps, isMain, Run(dumps, isMain, s, chunks), tc)
    decreases |chunks|
  {
    hide Step;
    if chunks == [] {
      assert [] + [tc] == [tc] && [tc][1..] == [];
    } else {
      assert (chunks + [tc])[1..] == chunks[1..] + [tc];
      RunMore(dumps, isMain, Step(dumps, isMain, s, chunks[0]), chunks[1..], tc);
    }
  }

  lemma LastWholeMore(own: seq<Json>, tc: Json)
    ensures LastWhole(own + [tc]) ==
      if WholeArgs(tc) then |own| else if LastWhole(own) == |own| then |own| + 1 else LastWhole(own)
  {
    hide WholeArgs;
    assert (own + [tc])[..|own|] == own && (own + [tc])[|own|] == tc;
  }

  lemma FragmentedMore(own: seq<Json>, tc: Json)
    ensures Fragmented(own + [tc]) == Fragmented(own) + ArgsFragment(tc)
  {
    hide ArgsFragment;
    assert (own + [tc])[..|own|] == own;
  }

  lemma TextSinceMore(own: seq<Json>, tc: Json)
    ensures WholeArgs(tc) ==> TextSince(own + [tc]) == ""
    ensures !WholeArgs(tc) ==> TextSince(own + [tc]) == TextSince(own) + ArgsFragment(tc)
  {
    hide WholeArgs;
    hide ArgsFragment;
    hide LastWhole;
    hide Fragmented;
    LastWholeMore(own, tc);
    var n := LastWhole(own);
    if WholeArgs(tc) {
      assert (own + [tc])[|own| + 1..] == [];
      NoFragments();
    } else if n < |own| {
      assert (own + [tc])[n + 1..] == own[n + 1..] + [tc];
      FragmentedMore(own[n + 1..], tc);
    } else {
      FragmentedMore(own, tc);
    }
  }

  lemma NoFragments()
    ensures Fragmented([]) == ""
  {
  }

  lemma Registers(dumps: JsonMap -> string, isMain: bool, s: Stream, id: string, tc: Json)
    requires id != "" && id !in s.pending && Own(id, tc) && Truthy(Get(tc.fields, "name"))
    ensures Entry(Step(dumps, isMain, s, tc), id)
         == Some(PendingCall(Get(tc.fields, "name"), ArgumentsOf(dumps, [tc]), Complete([tc]), false, isMain))
  {
    hide IdOf;
    TextSinceMore([], tc);
    LastWholeMore([], tc);
    assert [] + [tc] == [tc];
    assert TextSince([]) == "" by { assert Fragmented([]) == ""; }
    assert "" + ArgsFragment(tc) == ArgsFragment(tc);
    hide TextSince;
    hide LastWhole;
  }

  /** What a chunk of a pending call does to its entry. */
  lemma TakesItsOwn(dumps: JsonMap -> string, isMain: bool, s: Stream, id: string, tc: Json)
    requires id != "" && id in s.pending && Own(id, tc)
    ensures var s', call := Step(dumps, isMain, s, tc), s.pending[id];
      && id in s'.pending
      && s'.pending[id] ==
           if WholeArgs(tc) then call.(argsText := dumps(tc.fields["args"].fields), complete := true)
           else if ArgsFragment(tc) == "" then call
           else call.(argsText := (if call.complete then "" else call.argsText) + ArgsFragment(tc), complete := false)
  {
    hide IdOf;
    assert "" + ArgsFragment(tc) == ArgsFragment(tc);
  }

  lemma GathersMore(dumps: JsonMap -> string, isMain: bool, s: Stream, id: string, own: seq<Json>, tc: Json)
    requires id != "" && id in s.pending && own != [] && Own(id, tc)
    requires s.pending[id].argsText == ArgumentsOf(dumps, own) && s.pending[id].complete == Complete(own)
    ensures var s', call := Step(dumps, isMain, s, tc), s.pending[id];
      && id in s'.pending
      && s'.pending[id] == call.(argsText := ArgumentsOf(dumps, own + [tc]), complete := Complete(own + [tc]))
  {
    hide IdOf;
    hide Step;
    TakesItsOwn(dumps, isMain, s, id, tc);
    TextSinceMore(own, tc);
    LastWholeMore(own, tc);
    var more, n := own + [tc], LastWhole(own);
    assert more[|own|] == tc && (n < |own| ==> more[n] == own[n]);
    assert TextSince(own) + "" == TextSince(own);
    hide WholeArgs;
    hide ArgsFragment;
    hide TextSince;
    hide LastWhole;
  }

  /** The chunks of a call, the first of which names it: the entry keeps that name, and its arguments are the
      text since the last complete ones, or those themselves when no text followed. */
  lemma {:induction false} ArgumentsAreGathered(dumps: JsonMap -> string, isMain: bool, s: Stream, id: string,
                                                own: seq<Json>)
    requires id != "" && id !in s.pending && own != [] && (forall k :: 0 <= k < |own| ==> Own(id, own[k]))
    requires own[0].Obj? && Truthy(Get(own[0].fields, "name"))
    ensures Entry(Run(dumps, isMain, s, own), id)
         == Some(PendingCall(Get(own[0].fields, "name"), ArgumentsOf(dumps, own), Complete(own), false, isMain))
    decreases |own|
  {
    var n := |own| - 1;
    assert own == own[..n] + [own[n]];
    RunMore(dumps, isMain, s, own[..n], own[n]);
    hide Step;
    hide ArgumentsOf;
    hide Complete;
    hide IdOf;
    if n == 0 {
      assert own[..0] == [] && own == [own[0]];
      Registers(dumps, isMain, s, id, own[0]);
    } else {
      ArgumentsAreGathered(dumps, isMain, s, id, own[..n]);
      GathersMore(dumps, isMain, Run(dumps, isMain, s, own[..n]), id, own[..n], own[n]);
    }
  }

  /** So, whatever other calls are interleaved, the entry of a call is what its own chunks come to. */
  lemma EveryCallIsGathered(dumps: JsonMap -> string, isMain: bool, s: Stream, chunks: seq<Json>, id: string)
    requires Named(s.pending.Keys, chunks) && id != "" && id !in s.pending
    requires Only(id, chunks) != [] && Only(id, chunks)[0].Obj?
    requires Truthy(Get(Only(id, chunks)[0].fields, "name"))
    ensures var own := Only(id, chunks);
      Entry(Run(dumps, isMain, s, chunks), id)
      == Some(PendingCall(Get(own[0].fields, "name"), ArgumentsOf(dumps, own), Complete(own), false, isMain))
  {
    hide Step;
    hide ArgumentsOf;
    hide Complete;
    hide IdOf;
    OnlyOwn(id, chunks);
    StreamsDoNotInterfere(dumps, isMain, s, s, chunks, id);
    ArgumentsAreGathered(dumps, isMain, s, id, Only(id, chunks));
  }

  lemma {:induction false} OnlyOwn(id: string, chunks: seq<Json>)
    ensures forall k :: 0 <= k < |Only(id, chunks)| ==> Own(id, Only(id, chunks)[k])
  {
    hide IdOf;
    if chunks != [] {
      OnlyOwn(id, chunks[1..]);
    }
  }
}
