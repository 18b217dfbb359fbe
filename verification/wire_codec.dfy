/** The message normal form on the wire (`wire/codec.py`): type tags, envelopes, stringified chunk
    arguments, and arguments copied from chunks onto empty calls. */
module WireCodec {
  import opened PythonText
  import opened JsonValues

  /** The JSON library, as far as it is relied on. */
  datatype JsonText = JsonText(dumps: JsonMap -> string, loads: string -> Option<Json>)

  /** Loading undoes dumping, and blank text does not load. */
  ghost predicate Lawful(lib: JsonText) {
    && (forall d :: lib.loads(lib.dumps(d)) == Some(Obj(d)))
    && (forall s :: Strip(s) == "" ==> lib.loads(s) == None)
  }

  // ---------------------------------------------------------------- type tags and envelopes

  function ShortTag(t: string): string {
    match t
    case "AIMessage" => "ai"
    case "HumanMessage" => "human"
    case "SystemMessage" => "system"
    case "ToolMessage" => "tool"
    case "FunctionMessage" => "function"
    case "ChatMessage" => "chat"
    case "RemoveMessage" => "remove"
    case _ => t
  }

  function WireTag(t: Json): Json {
    if t.Str? then Str(ShortTag(t.s)) else t
  }

  function Tagged(m: JsonMap): JsonMap {
    if "type" in m then m["type" := WireTag(m["type"])] else m
  }

  function Envelope(m: JsonMap): JsonMap {
    if "data" in m then m
    else
      var body := Tagged(m);
      if !Get(body, "type").Str? then m
      else if "content" !in body && "tool_calls" !in body && "tool_call_id" !in body && "tool_call_chunks" !in body
      then m
      else map["type" := body["type"], "data" := Obj(body)]
  }

  // ---------------------------------------------------------------- chunk arguments

  function CoercedChunk(lib: JsonText, tc: Json): Json {
    if tc.Obj? && Get(tc.fields, "args").Obj? then
      Obj(tc.fields["args" := Str(lib.dumps(Get(tc.fields, "args").fields))])
    else tc
  }

  function CoercedChunks(lib: JsonText, chunks: seq<Json>): (r: seq<Json>)
    ensures |r| == |chunks|
    ensures forall i :: 0 <= i < |chunks| ==> r[i] == CoercedChunk(lib, chunks[i])
  {
    seq(|chunks|, i requires 0 <= i < |chunks| => CoercedChunk(lib, chunks[i]))
  }

  function CoercedBody(lib: JsonText, body: JsonMap): JsonMap {
    match Get(body, "tool_call_chunks")
    case Arr(chunks) => body["tool_call_chunks" := Arr(CoercedChunks(lib, chunks))]
    case _ => body
  }

  /** `coerce_tool_call_chunk_args_for_wire`. */
  function Coerced(lib: JsonText, m: JsonMap): JsonMap {
    match Get(m, "data")
    case Obj(body) => m["data" := Obj(CoercedBody(lib, body))]
    case _ => CoercedBody(lib, m)
  }

  // ---------------------------------------------------------------- backfill

  datatype Tables = Tables(byId: map<string, JsonMap>, byIndex: map<int, JsonMap>)

  /** The complete arguments a chunk carries, or the empty dict. */
  function ArgsIn(lib: JsonText, tc: JsonMap): JsonMap {
    match Get(tc, "args")
    case Obj(d) => d
    case Str(s) =>
      (if Strip(s) == "" then map[]
       else match lib.loads(s) case Some(Obj(d)) => d case _ => map[])
    case _ => map[]
  }

  function IdOf(tc: JsonMap): string {
    Strip(TextOf(Get(tc, "id")))
  }

  function WithChunk(lib: JsonText, t: Tables, tc: Json): Tables {
    if !tc.Obj? || ArgsIn(lib, tc.fields) == map[] then t
    else
      var args, id, index := ArgsIn(lib, tc.fields), IdOf(tc.fields), IntOf(Get(tc.fields, "index"));
      Tables(if id != "" then t.byId[id := args] else t.byId,
             if index.Some? then t.byIndex[index.value := args] else t.byIndex)
  }

  function TablesOf(lib: JsonText, chunks: seq<Json>): Tables {
    if chunks == [] then Tables(map[], map[])
    else WithChunk(lib, TablesOf(lib, chunks[..|chunks| - 1]), chunks[|chunks| - 1])
  }

  predicate NoArgs(args: Json) {
    args == Null || args == Obj(map[]) || args == Str("")
  }

  function Fill(t: Tables, call: JsonMap, at: int): Option<JsonMap> {
    if !NoArgs(Get(call, "args")) then None
    else if IdOf(call) != "" && IdOf(call) in t.byId then Some(t.byId[IdOf(call)])
    else if at in t.byIndex then Some(t.byIndex[at])
    else None
  }

  function FilledCall(t: Tables, call: Json, at: int): Json {
    if call.Obj? && Fill(t, call.fields, at).Some?
    then Obj(call.fields["args" := Obj(Fill(t, call.fields, at).value)])
    else call
  }

  function FilledCalls(t: Tables, calls: seq<Json>): (r: seq<Json>)
    ensures |r| == |calls|
    ensures forall i :: 0 <= i < |calls| ==> r[i] == FilledCall(t, calls[i], i)
  {
    seq(|calls|, i requires 0 <= i < |calls| => FilledCall(t, calls[i], i))
  }

  /** `_backfill_tool_calls_on_wire_body`. */
  function Backfilled(lib: JsonText, body: JsonMap): JsonMap {
    var chunks, calls := Get(body, "tool_call_chunks"), Get(body, "tool_calls");
    if chunks.Arr? && calls.Arr? then
      body["tool_calls" := Arr(FilledCalls(TablesOf(lib, chunks.items), calls.items))]
    else body
  }

  /** `flatten_enveloped_message_dict`. */
  function Flatten(lib: JsonText, m: JsonMap): JsonMap {
    match Get(m, "data")
    case Obj(data) =>
      var tag := WireTag(Get(m, "type"));
      var body := Backfilled(lib, Coerced(lib, data - {"type"}));
      if tag.Str? then body["type" := tag] else body
    case _ => Backfilled(lib, Coerced(lib, Tagged(m)))
  }

  // ---------------------------------------------------------------- the loops

  /** `_stringify_tool_call_chunk_args_in_body`. */
  method StringifyToolCallChunkArgs(lib: JsonText, body: JsonMap) returns (out: JsonMap, changed: bool)
    ensures out == CoercedBody(lib, body)
    ensures !changed ==> out == body
  {
    var field := Get(body, "tool_call_chunks");
    if !field.Arr? {
      return body, false;
    }
    changed := false;
    var chunks := [];
    var i := 0;
    while i < |field.items|
      invariant i <= |field.items| && chunks == CoercedChunks(lib, field.items)[..i]
      invariant !changed ==> chunks == field.items[..i]
    {
      var tc := field.items[i];
      if tc.Obj? && Get(tc.fields, "args").Obj? {
        tc := Obj(tc.fields["args" := Str(lib.dumps(Get(tc.fields, "args").fields))]);
        changed := true;
      }
      chunks := chunks + [tc];
      i := i + 1;
    }
    assert chunks == CoercedChunks(lib, field.items);
    out := if changed then body["tool_call_chunks" := Arr(chunks)] else body;
    if !changed {
      assert field.items[..i] == field.items;
      assert body["tool_call_chunks" := body["tool_call_chunks"]] == body;
    }
  }

  method BackfillToolCalls(lib: JsonText, body: JsonMap) returns (out: JsonMap)
    ensures out == Backfilled(lib, body)
  {
    hide WithChunk;
    hide Fill;
    var chunks, calls := Get(body, "tool_call_chunks"), Get(body, "tool_calls");
    if !chunks.Arr? || !calls.Arr? {
      return body;
    }
    var tables := Tables(map[], map[]);
    var i := 0;
    while i < |chunks.items|
      invariant i <= |chunks.items| && tables == TablesOf(lib, chunks.items[..i])
    {
      assert chunks.items[..i + 1][..i] == chunks.items[..i];
      tables := WithChunk(lib, tables, chunks.items[i]);
      i := i + 1;
    }
    assert chunks.items[..i] == chunks.items;
    if tables.byId == map[] && tables.byIndex == map[] {
      NothingToFill(tables, calls.items);
      return body;
    }
    var filled := [];
    i := 0;
    while i < |calls.items|
      invariant i <= |calls.items| && filled == FilledCalls(tables, calls.items)[..i]
    {
      filled := filled + [FilledCall(tables, calls.items[i], i)];
      i := i + 1;
    }
    assert filled == FilledCalls(tables, calls.items);
    out := body["tool_calls" := Arr(filled)];
  }

  lemma NothingToFill(t: Tables, calls: seq<Json>)
    requires t.byId == map[] && t.byIndex == map[]
    ensures FilledCalls(t, calls) == calls
  {
  }

  // ---------------------------------------------------------------- coercion and backfill

  lemma CoercionKeepsArgs(lib: JsonText, t: Tables, tc: Json)
    requires Lawful(lib)
    ensures WithChunk(lib, t, CoercedChunk(lib, tc)) == WithChunk(lib, t, tc)
  {
    if tc.Obj? && Get(tc.fields, "args").Obj? {
      var d := Get(tc.fields, "args").fields;
      assert lib.loads(lib.dumps(d)) == Some(Obj(d)) && Strip(lib.dumps(d)) != "";
      var coerced := CoercedChunk(lib, tc);
      assert Get(coerced.fields, "args") == Str(lib.dumps(d));
      hide Lawful;
      hide IntOf;
      hide Strip;
      hide TextOf;
      assert ArgsIn(lib, coerced.fields) == d;
    }
  }

  /** Stringifying chunk arguments does not change what a backfill writes. */
  lemma {:induction false} CoercionKeepsTables(lib: JsonText, chunks: seq<Json>)
    requires Lawful(lib)
    ensures TablesOf(lib, CoercedChunks(lib, chunks)) == TablesOf(lib, chunks)
  {
    hide Lawful;
    hide WithChunk;
    hide CoercedChunk;
    if chunks != [] {
      var n := |chunks| - 1;
      assert CoercedChunks(lib, chunks)[..n] == CoercedChunks(lib, chunks[..n]);
      CoercionKeepsTables(lib, chunks[..n]);
      CoercionKeepsArgs(lib, TablesOf(lib, chunks[..n]), chunks[n]);
    }
  }

  lemma CoercionDoesNotChangeBackfill(lib: JsonText, body: JsonMap)
    requires Lawful(lib)
    ensures Get(Backfilled(lib, CoercedBody(lib, body)), "tool_calls") == Get(Backfilled(lib, body), "tool_calls")
  {
    hide Lawful;
    hide CoercedChunks;
    hide TablesOf;
    hide FilledCalls;
    if Get(body, "tool_call_chunks").Arr? {
      CoercionKeepsTables(lib, Get(body, "tool_call_chunks").items);
    }
  }

  /** A backfill leaves calls that have arguments alone, and gives the others only arguments that a
      chunk with the same id, or of the same position, carries. */
  lemma BackfillNeverOverwrites(lib: JsonText, body: JsonMap, i: nat)
    requires Get(body, "tool_calls").Arr? && i < |Get(body, "tool_calls").items|
    ensures var out := Get(Backfilled(lib, body), "tool_calls");
      && out.Arr? && |out.items| == |Get(body, "tool_calls").items|
      && var before, after := Get(body, "tool_calls").items[i], out.items[i];
         after == before
         || (before.Obj? && NoArgs(Get(before.fields, "args")) && Get(body, "tool_call_chunks").Arr?
             && exists k :: 0 <= k < |Get(body, "tool_call_chunks").items|
                  && Supplies(lib, Get(body, "tool_call_chunks").items[k], before.fields, i)
                  && after == Obj(before.fields[
                       "args" := Obj(ArgsIn(lib, Get(body, "tool_call_chunks").items[k].fields))]))
  {
    hide ArgsIn;
    hide IdOf;
    hide IntOf;
    var calls := Get(body, "tool_calls").items;
    if Get(body, "tool_call_chunks").Arr? {
      var chunks := Get(body, "tool_call_chunks").items;
      var t := TablesOf(lib, chunks);
      if calls[i].Obj? && Fill(t, calls[i].fields, i).Some? {
        var k := Supplier(lib, chunks, calls[i].fields, i);
      }
    }
  }

  predicate Supplies(lib: JsonText, tc: Json, call: JsonMap, at: int) {
    tc.Obj? && ArgsIn(lib, tc.fields) != map[]
    && ((IdOf(call) != "" && IdOf(tc.fields) == IdOf(call)) || IntOf(Get(tc.fields, "index")) == Some(at))
  }

  lemma {:induction false} Supplier(lib: JsonText, chunks: seq<Json>, call: JsonMap, at: int) returns (k: nat)
    requires Fill(TablesOf(lib, chunks), call, at).Some?
    ensures k < |chunks| && Supplies(lib, chunks[k], call, at)
    ensures Fill(TablesOf(lib, chunks), call, at) == Some(ArgsIn(lib, chunks[k].fields))
  {
    hide ArgsIn;
    hide IdOf;
    hide IntOf;
    k := |chunks| - 1;
    var last := chunks[k];
    if !Supplies(lib, last, call, at) {
      k := Supplier(lib, chunks[..k], call, at);
    } else if IdOf(call) != "" && IdOf(last.fields) != IdOf(call) && IdOf(call) in TablesOf(lib, chunks).byId {
      k := Supplier(lib, chunks[..k], call, at);
    }
  }

  // ---------------------------------------------------------------- normal form

  lemma CoerceTwice(lib: JsonText, body: JsonMap)
    ensures CoercedBody(lib, CoercedBody(lib, body)) == CoercedBody(lib, body)
  {
    var once := CoercedBody(lib, body);
    if Get(body, "tool_call_chunks").Arr? {
      var chunks := Get(body, "tool_call_chunks").items;
      assert CoercedChunks(lib, CoercedChunks(lib, chunks)) == CoercedChunks(lib, chunks);
      assert once["tool_call_chunks" := once["tool_call_chunks"]] == once;
    }
  }

  /** No chunk arguments are empty once they are in the tables. */
  lemma {:induction false} TablesHoldArgs(lib: JsonText, chunks: seq<Json>)
    ensures forall id :: id in TablesOf(lib, chunks).byId ==> TablesOf(lib, chunks).byId[id] != map[]
    ensures forall n :: n in TablesOf(lib, chunks).byIndex ==> TablesOf(lib, chunks).byIndex[n] != map[]
  {
    hide ArgsIn;
    hide IdOf;
    hide IntOf;
    if chunks != [] {
      TablesHoldArgs(lib, chunks[..|chunks| - 1]);
    }
  }

  lemma FillTwice(lib: JsonText, chunks: seq<Json>, calls: seq<Json>)
    ensures var t := TablesOf(lib, chunks); FilledCalls(t, FilledCalls(t, calls)) == FilledCalls(t, calls)
  {
    TablesHoldArgs(lib, chunks);
    hide TablesOf;
    hide IdOf;
  }

  lemma BackfillTwice(lib: JsonText, body: JsonMap)
    ensures Backfilled(lib, Backfilled(lib, body)) == Backfilled(lib, body)
  {
    var once := Backfilled(lib, body);
    if Get(body, "tool_call_chunks").Arr? && Get(body, "tool_calls").Arr? {
      FillTwice(lib, Get(body, "tool_call_chunks").items, Get(body, "tool_calls").items);
      hide TablesOf;
      hide FilledCalls;
      assert once["tool_calls" := once["tool_calls"]] == once;
    }
  }

  /** A backfill touches no chunk. */
  lemma CoercedStaysCoerced(lib: JsonText, body: JsonMap)
    requires CoercedBody(lib, body) == body
    ensures CoercedBody(lib, Backfilled(lib, body)) == Backfilled(lib, body)
  {
  }

  /** Neither pass reads or writes the type. */
  lemma TypeIsIndependent(lib: JsonText, body: JsonMap, tag: Json)
    ensures Backfilled(lib, CoercedBody(lib, body["type" := tag]))
         == Backfilled(lib, CoercedBody(lib, body))["type" := tag]
    ensures Backfilled(lib, CoercedBody(lib, body - {"type"})) == Backfilled(lib, CoercedBody(lib, body)) - {"type"}
  {
    hide CoercedChunks;
    hide FilledCalls;
    hide TablesOf;
  }

  lemma KeysStay(lib: JsonText, body: JsonMap)
    ensures Backfilled(lib, CoercedBody(lib, body)).Keys == body.Keys
    ensures Get(Backfilled(lib, CoercedBody(lib, body)), "type") == Get(body, "type")
  {
  }

  /** A body without a `data` key flattens to the two passes over the tagged body. */
  lemma FlattenPlain(lib: JsonText, m: JsonMap)
    requires "data" !in m
    ensures Flatten(lib, m) == Backfilled(lib, CoercedBody(lib, Tagged(m)))
    ensures Flatten(lib, m).Keys == m.Keys && Tagged(Flatten(lib, m)) == Flatten(lib, m)
  {
    KeysStay(lib, Tagged(m));
    hide CoercedBody;
    hide Backfilled;
    var out := Flatten(lib, m);
    if "type" in m {
      assert Get(out, "type") == out["type"] == WireTag(m["type"]);
      assert WireTag(out["type"]) == out["type"];
      assert out["type" := out["type"]] == out;
    }
  }

  /** Flattening is idempotent on bodies without a `data` key. */
  lemma FlattenTwice(lib: JsonText, m: JsonMap)
    requires "data" !in m
    ensures Flatten(lib, Flatten(lib, m)) == Flatten(lib, m)
  {
    hide Flatten;
    hide CoercedBody;
    hide Backfilled;
    hide Tagged;
    FlattenPlain(lib, m);
    var once := CoercedBody(lib, Tagged(m));
    CoerceTwice(lib, Tagged(m));
    CoercedStaysCoerced(lib, once);
    BackfillTwice(lib, once);
    FlattenPlain(lib, Flatten(lib, m));
  }

  /** Enveloping a body does not change its flat form. */
  lemma FlattenAfterEnvelope(lib: JsonText, m: JsonMap)
    requires "data" !in m
    ensures Flatten(lib, Envelope(m)) == Flatten(lib, m)
  {
    hide CoercedBody;
    hide Backfilled;
    FlattenPlain(lib, m);
    if "data" in Envelope(m) {
      var body := Tagged(m);
      var tag := body["type"];
      TypeIsIndependent(lib, body, tag);
      KeysStay(lib, body);
      var flat := Backfilled(lib, CoercedBody(lib, body));
      assert flat["type"] == tag;
      assert (flat - {"type"})["type" := tag] == flat;
      assert WireTag(tag) == tag;
      assert Coerced(lib, body - {"type"}) == CoercedBody(lib, body - {"type"});
    }
  }

  /** An enveloped message whose body has no `data` key is flat after one flattening. */
  lemma FlattenEnvelopedTwice(lib: JsonText, m: JsonMap)
    requires Get(m, "data").Obj? && "data" !in Get(m, "data").fields
    ensures Flatten(lib, Flatten(lib, m)) == Flatten(lib, m)
  {
    hide CoercedBody;
    hide Backfilled;
    var data := Get(m, "data").fields - {"type"};
    var tag := WireTag(Get(m, "type"));
    var plain := if tag.Str? then data["type" := tag] else data;
    assert Coerced(lib, data) == CoercedBody(lib, data);
    TypeIsIndependent(lib, data, tag);
    assert Tagged(plain) == plain;
    FlattenPlain(lib, plain);
    assert Flatten(lib, m) == Flatten(lib, plain);
    FlattenTwice(lib, plain);
  }

  // ---------------------------------------------------------------- what each pass does

  /** A message is wrapped exactly when it has no data, a type that is a string, and something a message
      has; the wrapped body is the message under its short type. */
  lemma WrapsExactlyWhen(m: JsonMap)
    ensures var wraps := "data" !in m && Get(m, "type").Str?
        && ("content" in m || "tool_calls" in m || "tool_call_id" in m || "tool_call_chunks" in m);
      Envelope(m) == if !wraps then m
        else (var tag := Str(ShortTag(Get(m, "type").s)); map["type" := tag, "data" := Obj(m["type" := tag])])
  {
    hide ShortTag;
  }

  /** The long names of message types have short tags, which stand for themselves. */
  lemma ShortTagsAreFixed(t: string)
    ensures ShortTag(ShortTag(t)) == ShortTag(t)
    ensures ShortTag("AIMessage") == "ai" && ShortTag("HumanMessage") == "human"
    ensures ShortTag("SystemMessage") == "system"
    ensures ShortTag("ToolMessage") == "tool" && ShortTag("FunctionMessage") == "function"
    ensures ShortTag("ChatMessage") == "chat" && ShortTag("RemoveMessage") == "remove"
    ensures ShortTag(t) != t ==>
      t in {"AIMessage", "HumanMessage", "SystemMessage", "ToolMessage", "FunctionMessage", "ChatMessage",
            "RemoveMessage"}
  {
  }

  /** After the coercion no chunk has a dictionary for arguments: such arguments became their JSON text, and
      everything else is as it was. */
  lemma ArgumentsBecomeText(lib: JsonText, body: JsonMap, i: nat)
    requires Get(body, "tool_call_chunks").Arr? && i < |Get(body, "tool_call_chunks").items|
    ensures var out := Get(CoercedBody(lib, body), "tool_call_chunks");
      && out.Arr? && |out.items| == |Get(body, "tool_call_chunks").items|
      && var before, after := Get(body, "tool_call_chunks").items[i], out.items[i];
         && (after.Obj? ==> !Get(after.fields, "args").Obj?)
         && (before.Obj? && Get(before.fields, "args").Obj? ==>
               after == Obj(before.fields["args" := Str(lib.dumps(Get(before.fields, "args").fields))]))
         && (!(before.Obj? && Get(before.fields, "args").Obj?) ==> after == before)
    ensures forall k :: k != "tool_call_chunks" ==> Get(CoercedBody(lib, body), k) == Get(body, k)
  {
  }

  /** The last of the chunks with arguments that carries this id, or the number of chunks. */
  function LastById(lib: JsonText, chunks: seq<Json>, id: string): (n: nat)
    ensures n <= |chunks|
  {
    if chunks == [] then 0
    else
      var last := |chunks| - 1;
      if HasArgs(lib, chunks[last]) && IdOf(chunks[last].fields) == id then last
      else
        var n := LastById(lib, chunks[..last], id);
        if n == last then |chunks| else n
  }

  /** The same by position. */
  function LastByIndex(lib: JsonText, chunks: seq<Json>, at: int): (n: nat)
    ensures n <= |chunks|
  {
    if chunks == [] then 0
    else
      var last := |chunks| - 1;
      if HasArgs(lib, chunks[last]) && IntOf(Get(chunks[last].fields, "index")) == Some(at) then last
      else
        var n := LastByIndex(lib, chunks[..last], at);
        if n == last then |chunks| else n
  }

  /** A chunk whose arguments are a non-empty dictionary, or the text of one. */
  predicate HasArgs(lib: JsonText, tc: Json) {
    && tc.Obj?
    && var args := Get(tc.fields, "args");
       || (args.Obj? && args.fields != map[])
       || (args.Str? && Strip(args.s) != "" && lib.loads(args.s).Some? && lib.loads(args.s).value.Obj?
           && lib.loads(args.s).value.fields != map[])
  }

  lemma ArgsWhen(lib: JsonText, tc: Json)
    ensures HasArgs(lib, tc) <==> tc.Obj? && ArgsIn(lib, tc.fields) != map[]
  {
    hide Strip;
  }

  lemma {:induction false} TableById(lib: JsonText, chunks: seq<Json>, id: string)
    requires id != ""
    ensures var n, t := LastById(lib, chunks, id), TablesOf(lib, chunks);
      && (id in t.byId <==> n < |chunks|)
      && (n < |chunks| ==> chunks[n].Obj? && t.byId[id] == ArgsIn(lib, chunks[n].fields))
  {
    hide ArgsIn;
    hide IdOf;
    hide IntOf;
    hide HasArgs;
    if chunks != [] {
      TableById(lib, chunks[..|chunks| - 1], id);
      ArgsWhen(lib, chunks[|chunks| - 1]);
    }
  }

  lemma {:induction false} TableByIndex(lib: JsonText, chunks: seq<Json>, at: int)
    ensures var n, t := LastByIndex(lib, chunks, at), TablesOf(lib, chunks);
      && (at in t.byIndex <==> n < |chunks|)
      && (n < |chunks| ==> chunks[n].Obj? && t.byIndex[at] == ArgsIn(lib, chunks[n].fields))
  {
    hide ArgsIn;
    hide IdOf;
    hide IntOf;
    hide HasArgs;
    if chunks != [] {
      TableByIndex(lib, chunks[..|chunks| - 1], at);
      ArgsWhen(lib, chunks[|chunks| - 1]);
    }
  }

  /** A call without arguments takes those of the last chunk with its id; failing that, of the last chunk
      with its position; failing that, none. A call with arguments takes none. */
  lemma FillsByIdThenByPosition(lib: JsonText, chunks: seq<Json>, call: JsonMap, at: int)
    ensures var byId, byIndex := LastById(lib, chunks, IdOf(call)), LastByIndex(lib, chunks, at);
      var args := Get(call, "args");
      var fill := Fill(TablesOf(lib, chunks), call, at);
      && (fill.None? <==>
            || (args != Null && args != Obj(map[]) && args != Str(""))
            || (byIndex == |chunks| && (IdOf(call) == "" || byId == |chunks|)))
      && (fill.Some? && IdOf(call) != "" && byId < |chunks| ==>
            chunks[byId].Obj? && fill == Some(ArgsIn(lib, chunks[byId].fields)))
      && (fill.Some? && (IdOf(call) == "" || byId == |chunks|) ==>
            byIndex < |chunks| && chunks[byIndex].Obj? && fill == Some(ArgsIn(lib, chunks[byIndex].fields)))
  {
    if IdOf(call) != "" {
      TableById(lib, chunks, IdOf(call));
    }
    TableByIndex(lib, chunks, at);
    hide TablesOf;
    hide ArgsIn;
    hide LastById;
    hide LastByIndex;
    hide IdOf;
  }

  /** Flattening keeps every field of the body but the arguments it fills in and turns into text; of an
      envelope it keeps the short form of its type and drops the rest. */
  lemma FlatteningKeepsTheBody(lib: JsonText, m: JsonMap, k: string)
    requires k != "type" && k != "tool_calls" && k != "tool_call_chunks" && k != "data"
    ensures "data" !in m ==> Get(Flatten(lib, m), k) == Get(m, k)
    ensures "data" !in m ==> Get(Flatten(lib, m), "type") == if "type" in m then WireTag(m["type"]) else Null
    ensures Get(m, "data").Obj? && "data" !in Get(m, "data").fields ==>
      Get(Flatten(lib, m), k) == Get(Get(m, "data").fields, k)
    ensures Get(m, "data").Obj? && "data" !in Get(m, "data").fields && Get(m, "type").Str? ==>
      Get(Flatten(lib, m), "type") == WireTag(Get(m, "type"))
  {
    hide CoercedChunks;
    hide FilledCalls;
    hide TablesOf;
    hide ShortTag;
  }
}
