/** The fast path of the chunk translation refines the slow one on every event the handler prints. */
module ChunkRefinement {
  import opened Bytes
  import opened JsonString
  import opened JsonTree
  import opened MarkerSearch
  import opened SseEvent
  import opened OpenAIChunk

  // ---------------------------------------------------------------- the names of the protocol

  predicate Plain(k: Bytes) { forall i :: 0 <= i < |k| ==> 'a' <= k[i] <= 'z' || k[i] == '_' || k[i] == '.' }

  lemma {:induction false} PlainIsUtf8(k: Bytes)
    requires Plain(k)
    ensures ValidUtf8(k)
  {
    if k != [] { PlainIsUtf8(k[1..]); }
  }

  lemma {:induction false} PlainEncodes(k: Bytes)
    requires Plain(k) && ValidUtf8(k)
    ensures Encode(k) == k
  {
    if k != [] {
      PlainIsUtf8(k[1..]);
      PlainEncodes(k[1..]);
      assert k == [k[0]] + k[1..];
    }
  }

  lemma {:induction false} PlainDecodes(k: Bytes)
    requires Plain(k)
    ensures Decode(k) == Some(k)
  {
    if k != [] {
      PlainDecodes(k[1..]);
      assert k == [k[0]] + k[1..];
    }
  }

  lemma NameEncodesToItself(k: Bytes)
    requires Plain(k)
    ensures ValidUtf8(k) && Encode(k) == k && Decode(k) == Some(k)
  {
    PlainIsUtf8(k);
    PlainEncodes(k);
    PlainDecodes(k);
  }

  lemma NamesEncodeToThemselves()
    ensures forall k :: Name(k) ==> IsBody(k) && Decode(k) == Some(k)
  {
    forall k | Name(k) ensures IsBody(k) && Decode(k) == Some(k) {
      NameEncodesToItself(k);
      NamesAreBodies(k);
    }
  }

  lemma PayloadNames()
    ensures Name("type") && Name("message") && Name("role") && Name("content") && Name("usage")
    ensures Name("input_tokens") && Name("output_tokens") && Name("index") && Name("content_block") && Name("signature")
    ensures Name("input") && Name("delta") && Name("message_start") && Name("assistant") && Name("content_block_start")
    ensures Name("content_block_delta") && Name("content_block_stop") && Name("message_delta") && Name("message_stop")
  {
  }

  lemma SearchedNames()
    ensures Name("id") && Name("name") && Name("model") && Name("text") && Name("thinking") && Name("partial_json")
    ensures Name("stop_reason") && Name("tool_use") && Name("text_delta") && Name("input_json_delta") && Name("thinking_delta")
  {
  }

  lemma ChunkNames()
    ensures Name("object") && Name("created") && Name("choices") && Name("reasoning_content") && Name("tool_calls")
    ensures Name("function") && Name("arguments") && Name("finish_reason")
  {
  }

  // -------------------------------------------------------------------------- the payloads

  /** `src` is a well-formed document with simple keys, and spells the value `val`. */
  ghost predicate Spells(src: Json, val: Json) {
    Source(src) && Named(src) && DecodeTree(src) == Some(val)
  }

  ghost predicate SpellsFields(src: Fields, val: Fields) {
    SourceFields(src) && NamedFields(src) && DecodeFields(src) == Some(val)
  }

  lemma SpellsText(v: Bytes)
    requires ValidUtf8(v)
    ensures Spells(Str(Encode(v)), Str(v))
  {
    EncodeIsBody(v);
    RoundTrip(v);
  }

  lemma SpellsName(k: Bytes)
    requires Name(k) || k == ""
    ensures Spells(Str(k), Str(k))
  {
    NameEncodesToItself(k);
    PlainBytesAreBody(k);
  }

  lemma SpellsField(k: Bytes, v: Json, v': Json, rest: Fields, rest': Fields)
    requires Name(k) && Spells(v, v') && SpellsFields(rest, rest')
    ensures SpellsFields(Field(k, v, rest), Field(k, v', rest'))
    ensures Spells(Obj(Field(k, v, rest)), Obj(Field(k, v', rest')))
  {
    NamesEncodeToThemselves();
  }

  lemma SpellsTyped(name: Bytes, rest: Fields, rest': Fields)
    requires Name(name) && SpellsFields(rest, rest')
    ensures Spells(Typed(name, rest), Typed(name, rest'))
  {
    PayloadNames();
    SpellsName(name);
    SpellsField("type", Str(name), Str(name), rest, rest');
  }

  lemma SpellsIndexed(name: Bytes, index: int, rest: Fields, rest': Fields)
    requires Name(name) && SpellsFields(rest, rest')
    ensures Spells(Indexed(name, index, rest), Indexed(name, index, rest'))
  {
    PayloadNames();
    var n := Num(Decimal(index));
    SpellsField("index", n, n, rest, rest');
    SpellsTyped(name, Field("index", n, rest), Field("index", n, rest'));
  }

  lemma SpellsBlock(index: int, kind: Bytes, rest: Fields, rest': Fields)
    requires Name(kind) && SpellsFields(rest, rest')
    ensures Spells(Block(index, kind, rest), Block(index, kind, rest'))
    ensures Spells(Delta(index, kind, rest), Delta(index, kind, rest'))
  {
    PayloadNames();
    SpellsTyped(kind, rest, rest');
    SpellsField("content_block", Typed(kind, rest), Typed(kind, rest'), NoField, NoField);
    SpellsField("delta", Typed(kind, rest), Typed(kind, rest'), NoField, NoField);
    SpellsIndexed("content_block_start", index, Field("content_block", Typed(kind, rest), NoField),
                  Field("content_block", Typed(kind, rest'), NoField));
    SpellsIndexed("content_block_delta", index, Field("delta", Typed(kind, rest), NoField),
                  Field("delta", Typed(kind, rest'), NoField));
  }

  lemma SpellsRoleOn(model: Bytes, rest: Fields, role: Bytes)
    requires ValidUtf8(model) && SpellsFields(rest, rest) && role == "assistant"
    ensures SpellsFields(
      Field("role", Str(role), Field("content", Arr(NoItem), Field("model", Str(Encode(model)), rest))),
      Field("role", Str(role), Field("content", Arr(NoItem), Field("model", Str(model), rest))))
  {
    PayloadNames();
    SearchedNames();
    SpellsMember("model", model, rest, rest);
    var f5, g5 := Field("model", Str(Encode(model)), rest), Field("model", Str(model), rest);
    SpellsField("content", Arr(NoItem), Arr(NoItem), f5, g5);
    SpellsName(role);
    SpellsField("role", Str(role), Str(role), Field("content", Arr(NoItem), f5), Field("content", Arr(NoItem), g5));
  }

  lemma SpellsMessage(msgID: Bytes, f: Fields, g: Fields, kind: Bytes)
    requires ValidUtf8(msgID) && SpellsFields(f, g) && kind == "message"
    ensures Spells(Obj(Field("id", Str(Encode(msgID)), Field("type", Str(kind), f))), Obj(Field("id", Str(msgID), Field("type", Str(kind), g))))
  {
    PayloadNames();
    SearchedNames();
    SpellsName(kind);
    SpellsText(msgID);
    SpellsField("type", Str(kind), Str(kind), f, g);
    SpellsField("id", Str(Encode(msgID)), Str(msgID), Field("type", Str(kind), f), Field("type", Str(kind), g));
  }

  lemma SpellsMessageHead(msgID: Bytes, model: Bytes, rest: Fields)
    requires ValidUtf8(msgID) && ValidUtf8(model) && SpellsFields(rest, rest)
    ensures Spells(MessageHead(Encode(msgID), Encode(model), rest), MessageHead(msgID, model, rest))
  {
    PayloadNames();
    var role, kind := "assistant", "message";
    SpellsRoleOn(model, rest, role);
    var f := Field("role", Str(role), Field("content", Arr(NoItem), Field("model", Str(Encode(model)), rest)));
    var g := Field("role", Str(role), Field("content", Arr(NoItem), Field("model", Str(model), rest)));
    SpellsMessage(msgID, f, g, kind);
    var m, n := Obj(Field("id", Str(Encode(msgID)), Field("type", Str(kind), f))), Obj(Field("id", Str(msgID), Field("type", Str(kind), g)));
    SpellsField("message", m, n, NoField, NoField);
    SpellsTyped("message_start", Field("message", m, NoField), Field("message", n, NoField));
  }

  lemma SpellsTokens(x: int, y: int)
    ensures SpellsFields(Tokens(x, y), Tokens(x, y))
    ensures SpellsFields(Field("usage", One("output_tokens", Num(Decimal(y))), NoField),
                         Field("usage", One("output_tokens", Num(Decimal(y))), NoField))
  {
    PayloadNames();
    var i, o := Num(Decimal(x)), Num(Decimal(y));
    SpellsField("output_tokens", o, o, NoField, NoField);
    SpellsField("input_tokens", i, i, Field("output_tokens", o, NoField), Field("output_tokens", o, NoField));
    SpellsField("usage", Two("input_tokens", i, "output_tokens", o), Two("input_tokens", i, "output_tokens", o), NoField, NoField);
    SpellsField("usage", One("output_tokens", o), One("output_tokens", o), NoField, NoField);
  }

  /** One member whose string is the event's own. */
  lemma SpellsMember(k: Bytes, v: Bytes, rest: Fields, rest': Fields)
    requires Name(k) && ValidUtf8(v) && SpellsFields(rest, rest')
    ensures SpellsFields(Field(k, Str(Encode(v)), rest), Field(k, Str(v), rest'))
  {
    SpellsText(v);
    SpellsField(k, Str(Encode(v)), Str(v), rest, rest');
  }

  /** The printed payload is a well-formed document with simple keys, and spells the event's own strings. */
  lemma PayloadSpells(e: Event)
    requires Valid(e)
    ensures Spells(Payload(Encoded(e)), Payload(e))
  {
    PayloadNames();
    SearchedNames();
    match e
    case MessageStart(i, m, x, y) => SpellsTokens(x, y); SpellsMessageHead(i, m, Tokens(x, y));
    case MessageStartNoUsage(i, m) => SpellsMessageHead(i, m, NoField);
    case StartText(x) =>
      SpellsName("");
      SpellsField("text", Str(""), Str(""), NoField, NoField);
      SpellsBlock(x, "text", Field("text", Str(""), NoField), Field("text", Str(""), NoField));
    case StartThinking(x, s) =>
      SpellsMember("signature", s, NoField, NoField);
      SpellsName("");
      SpellsField("thinking", Str(""), Str(""), Field("signature", Str(Encode(s)), NoField), Field("signature", Str(s), NoField));
      SpellsBlock(x, "thinking", Field("thinking", Str(""), Field("signature", Str(Encode(s)), NoField)),
                  Field("thinking", Str(""), Field("signature", Str(s), NoField)));
    case StartToolUse(x, i, n) =>
      var input := Field("input", Obj(NoField), NoField);
      SpellsField("input", Obj(NoField), Obj(NoField), NoField, NoField);
      SpellsMember("name", n, input, input);
      SpellsMember("id", i, Field("name", Str(Encode(n)), input), Field("name", Str(n), input));
      SpellsBlock(x, "tool_use", Field("id", Str(Encode(i)), Field("name", Str(Encode(n)), input)),
                  Field("id", Str(i), Field("name", Str(n), input)));
    case DeltaText(x, t) =>
      SpellsMember("text", t, NoField, NoField);
      SpellsBlock(x, "text_delta", Field("text", Str(Encode(t)), NoField), Field("text", Str(t), NoField));
    case DeltaThinking(x, t) =>
      SpellsMember("thinking", t, NoField, NoField);
      SpellsBlock(x, "thinking_delta", Field("thinking", Str(Encode(t)), NoField), Field("thinking", Str(t), NoField));
    case DeltaInput(x, p) =>
      SpellsMember("partial_json", p, NoField, NoField);
      SpellsBlock(x, "input_json_delta", Field("partial_json", Str(Encode(p)), NoField), Field("partial_json", Str(p), NoField));
    case Stop(x) => SpellsIndexed("content_block_stop", x, NoField, NoField);
    case MessageDelta(s, x) =>
      SpellsTokens(0, x);
      SpellsMember("stop_reason", s, NoField, NoField);
      var usage := Field("usage", One("output_tokens", Num(Decimal(x))), NoField);
      SpellsField("stop_reason", Str(Encode(s)), Str(s), NoField, NoField);
      SpellsField("delta", One("stop_reason", Str(Encode(s))), One("stop_reason", Str(s)), usage, usage);
      SpellsTyped("message_delta", Field("delta", One("stop_reason", Str(Encode(s))), usage),
                  Field("delta", One("stop_reason", Str(s)), usage));
    case MessageStop => SpellsTyped("message_stop", NoField, NoField);
  }

  /** Unmarshalling a printed payload gives the event's own strings back. */
  lemma DataUnmarshals(e: Event)
    requires Valid(e)
    ensures Unmarshal(Data(e)) == Some(Payload(e))
  {
    PayloadSpells(e);
    ParsePrinted(Payload(Encoded(e)));
  }

  // --------------------------------------------------------- what the markers find in them

  ghost predicate Finds(f: Fields, m: Marker, v: Json) {
    forall rest :: FindField(f, rest, m).Some? && FindField(f, rest, m).value.0 == v
  }

  ghost predicate Misses(f: Fields, m: Marker) {
    forall rest :: FindField(f, rest, m).None?
  }

  /** Members that hold nothing the marker names are passed over. */
  lemma Past(k: Bytes, v: Json, f: Fields, m: Marker)
    requires !Matches(m, k, v) && (v.Str? || v.Num? || v == Arr(NoItem) || (v.Obj? && Misses(v.fields, m)))
    ensures forall x :: Finds(f, m, x) ==> Finds(Field(k, v, f), m, x)
    ensures Misses(f, m) ==> Misses(Field(k, v, f), m)
  {
    forall rest ensures FindField(Field(k, v, f), rest, m) == FindField(f, rest, m) {
      assert Find(v, AfterField(f, rest), m) == None;
    }
  }

  /** A member inside an object is reached when nothing before it matches. */
  lemma Into(k: Bytes, v: Fields, f: Fields, m: Marker, x: Json)
    requires !Matches(m, k, Obj(v)) && Finds(v, m, x)
    ensures Finds(Field(k, Obj(v), f), m, x)
  {
    forall rest ensures FindField(Field(k, Obj(v), f), rest, m).Some? && FindField(Field(k, Obj(v), f), rest, m).value.0 == x {
      assert Find(Obj(v), AfterField(f, rest), m) == FindField(v, AfterField(f, rest), m);
    }
  }

  lemma FindsModel(msgID: Bytes, model: Bytes, usage: Fields)
    ensures Finds(MessageHead(msgID, model, usage).fields, Marker("model", None), Str(model))
  {
    var m := Marker("model", None);
    var f5 := Field("model", Str(model), usage);
    var f4 := Field("content", Arr(NoItem), f5);
    var f3 := Field("role", Str("assistant"), f4);
    var f2 := Field("type", Str("message"), f3);
    var f1 := Field("id", Str(msgID), f2);
    assert Finds(f5, m, Str(model));
    Past("content", Arr(NoItem), f5, m);
    Past("role", Str("assistant"), f4, m);
    Past("type", Str("message"), f3, m);
    Past("id", Str(msgID), f2, m);
    Into("message", f1, NoField, m, Str(model));
    Past("type", Str("message_start"), Field("message", Obj(f1), NoField), m);
  }

  /** In a block or delta payload the search goes through the index into the inner object. */
  lemma Inner(name: Bytes, index: int, outer: Bytes, kind: Bytes, rest: Fields, m: Marker)
    requires outer in ["content_block", "delta"] && m.key != "index" && m.key != outer
    requires m.key == "type" ==> m.val.Some? && m.val.value != name
    ensures var f := Indexed(name, index, Field(outer, Typed(kind, rest), NoField)).fields;
            && (forall x :: Finds(Typed(kind, rest).fields, m, x) ==> Finds(f, m, x))
            && (Misses(Typed(kind, rest).fields, m) ==> Misses(f, m))
  {
    var g := Typed(kind, rest).fields;
    var f2 := Field(outer, Obj(g), NoField);
    var n := Num(Decimal(index));
    forall x | Finds(g, m, x) ensures Finds(Field("type", Str(name), Field("index", n, f2)), m, x) {
      Into(outer, g, NoField, m, x);
      Past("index", n, f2, m);
      Past("type", Str(name), Field("index", n, f2), m);
    }
    if Misses(g, m) {
      Past(outer, Obj(g), NoField, m);
      Past("index", n, f2, m);
      Past("type", Str(name), Field("index", n, f2), m);
    }
  }

  /** The type marker of an inner object is found exactly when it names the object's type. */
  lemma InnerType(name: Bytes, index: int, outer: Bytes, kind: Bytes, k: Bytes, v: Json, tail: Fields, want: Bytes)
    requires outer in ["content_block", "delta"] && want != name && k != "type"
    requires (v.Str? || v == Obj(NoField)) && (tail == NoField || Misses(tail, Marker("type", Some(want))))
    ensures var f := Indexed(name, index, Field(outer, Typed(kind, Field(k, v, tail)), NoField)).fields;
            var m := Marker("type", Some(want));
            if kind == want then Finds(f, m, Str(want)) else Misses(f, m)
  {
    var m := Marker("type", Some(want));
    var rest := Field(k, v, tail);
    Inner(name, index, outer, kind, rest, m);
    if kind == want {
      assert Finds(Typed(kind, rest).fields, m, Str(want));
    } else {
      Past(k, v, tail, m);
      Past("type", Str(kind), rest, m);
    }
  }

  // ----------------------------------------------------------------------------- the fast path

  /** The choice the fast path prints, with raw texts. */
  function RawChoice(e: Event, c: Context): Option<Fields>
    requires Valid(e)
  {
    match Encoded(e)
    case MessageStart(_, _, _, _) => Some(RoleChoice())
    case MessageStartNoUsage(_, _) => Some(RoleChoice())
    case StartToolUse(_, id, name) => Some(ToolStartChoice(ToolIndex(c), Some(id), name))
    case DeltaText(_, t) => Some(ContentChoice(t))
    case DeltaThinking(_, t) => Some(ReasoningChoice(t))
    case DeltaInput(_, p) => Some(ToolArgsChoice(ToolIndex(c), p))
    case MessageDelta(s, _) => Some(FinishChoice(Unquoted(StopReasonQuoted(['\"'] + (s + ['\"'])))))
    case _ => None
  }

  function RawModel(e: Event, c: Context): Bytes
    requires Valid(e)
  {
    if IsMessageStart(e) then Encode(e.model) else c.model
  }

  lemma ReadsFrom(j: Json, key: Bytes, v: Bytes)
    requires Source(j) && Named(j) && j.Obj? && Name(key) && Finds(j.fields, Marker(key, None), Str(v))
    ensures Extracted(Print(j, []), Key(key)) == Some(['\"'] + (v + ['\"']))
  {
    ExtractPrinted(j, key);
  }

  /** `extractJSONStringValueAfter` on a printed event returns exactly the quoted field the printer wrote. */
  lemma Reads(e: Event, key: Bytes, v: Bytes)
    requires Valid(e) && Name(key) && Finds(Payload(Encoded(e)).fields, Marker(key, None), Str(v))
    ensures Extracted(Data(e), Key(key)) == Some(['\"'] + (v + ['\"']))
  {
    PayloadSpells(e);
    ReadsFrom(Payload(Encoded(e)), key, v);
  }

  /** A type marker is found in a printed event exactly when the payload has that type. */
  lemma ReadsType(e: Event, want: Bytes)
    requires Valid(e) && Name(want)
    ensures var f := Payload(Encoded(e)).fields; var m := Marker("type", Some(want));
            && (Finds(f, m, Str(want)) ==> Contains(Data(e), TypeIs(want)))
            && (Misses(f, m) ==> !Contains(Data(e), TypeIs(want)))
  {
    PayloadNames();
    PayloadSpells(e);
    ContainsPrinted(Payload(Encoded(e)), Marker("type", Some(want)));
  }

  lemma QuotesStrip(v: Bytes)
    ensures Unquoted(['\"'] + (v + ['\"'])) == v
  {
  }

  lemma FastMessageStartIs(e: Event, c: Context)
    requires Valid(e) && IsMessageStart(e)
    ensures FastMessageStart(Data(e), c) == Some(FastChunk(c, Encode(e.model), RoleChoice()))
  {
    SearchedNames();
    var usage := if e.MessageStart? then Tokens(e.inputTokens, e.outputTokens) else NoField;
    FindsModel(Encode(e.msgID), Encode(e.model), usage);
    Reads(e, "model", Encode(e.model));
    QuotesStrip(Encode(e.model));
  }

  lemma ToolUseReads(e: Event)
    requires Valid(e) && e.StartToolUse?
    ensures Contains(Data(e), TypeIs("tool_use"))
    ensures Extracted(Data(e), Key("id")) == Some(['\"'] + (Encode(e.id) + ['\"']))
    ensures Extracted(Data(e), Key("name")) == Some(['\"'] + (Encode(e.name) + ['\"']))
  {
    SearchedNames();
    var i, n := Encode(e.id), Encode(e.name);
    var input := Field("input", Obj(NoField), NoField);
    var f := Field("id", Str(i), Field("name", Str(n), input));
    var tool, id, name := Marker("type", Some("tool_use")), Marker("id", None), Marker("name", None);
    assert Finds(Typed("tool_use", f).fields, tool, Str("tool_use"));
    Inner("content_block_start", e.index, "content_block", "tool_use", f, tool);
    ReadsType(e, "tool_use");
    Past("type", Str("tool_use"), f, id);
    Inner("content_block_start", e.index, "content_block", "tool_use", f, id);
    assert Finds(f, id, Str(i));
    Reads(e, "id", i);
    assert Finds(f.rest, name, Str(n));
    Past("id", Str(i), f.rest, name);
    Past("type", Str("tool_use"), f, name);
    Inner("content_block_start", e.index, "content_block", "tool_use", f, name);
    Reads(e, "name", n);
  }

  lemma StartTextReads(e: Event)
    requires Valid(e) && e.StartText?
    ensures !Contains(Data(e), TypeIs("tool_use"))
    ensures Extracted(Data(e), Key("text")) == Some("\"\"")
  {
    SearchedNames();
    StartTextIsNoTool(e, "tool_use");
    InnerText("content_block_start", e.index, "content_block", "text", "text", "");
    Reads(e, "text", "");
    assert ['\"'] + ("" + ['\"']) == "\"\"";
  }

  lemma StartTextIsNoTool(e: Event, want: Bytes)
    requires Valid(e) && e.StartText? && want == "tool_use"
    ensures !Contains(Data(e), TypeIs(want))
  {
    SearchedNames();
    InnerType("content_block_start", e.index, "content_block", "text", "text", Str(""), NoField, want);
    ReadsType(e, want);
  }

  /** The first member after the type of an inner object is found by its key. */
  lemma InnerText(name: Bytes, index: int, outer: Bytes, kind: Bytes, key: Bytes, v: Bytes)
    requires outer in ["content_block", "delta"] && key != "index" && key != outer && key != "type"
    ensures Finds(Indexed(name, index, Field(outer, Typed(kind, Field(key, Str(v), NoField)), NoField)).fields,
                  Marker(key, None), Str(v))
  {
    var f, m := Field(key, Str(v), NoField), Marker(key, None);
    assert Finds(f, m, Str(v));
    Past("type", Str(kind), f, m);
    Inner(name, index, outer, kind, f, m);
  }

  lemma StartThinkingReads(e: Event, want: Bytes)
    requires Valid(e) && e.StartThinking? && want in ["tool_use", "text"]
    ensures !Contains(Data(e), TypeIs(want))
  {
    SearchedNames();
    var g := Field("signature", Str(Encode(e.signature)), NoField);
    Past("signature", Str(Encode(e.signature)), NoField, Marker("type", Some(want)));
    InnerType("content_block_start", e.index, "content_block", "thinking", "thinking", Str(""), g, want);
    ReadsType(e, want);
  }

  /** A started tool block becomes a tool call; a started text or thinking block has no counterpart. */
  lemma FastBlockStartIs(e: Event, c: Context)
    requires Valid(e) && (e.StartText? || e.StartThinking? || e.StartToolUse?)
    ensures FastBlockStart(Data(e), c) ==
            if e.StartToolUse? then
              Some(FastChunk(c, c.model, ToolStartChoice(ToolIndex(c), Some(Encode(e.id)), Encode(e.name))))
            else None
  {
    match e
    case StartToolUse(_, i, n) => ToolUseReads(e); QuotesStrip(Encode(i)); QuotesStrip(Encode(n));
    case StartText(_) => StartTextReads(e);
    case StartThinking(_, _) => StartThinkingReads(e, "tool_use"); StartThinkingReads(e, "text");
  }

  /** A delta payload is recognised by its own type only, and its text is read back. */
  lemma DeltaReads(index: int, kind: Bytes, key: Bytes, v: Bytes)
    requires var j := Delta(index, kind, Field(key, Str(v), NoField)); Source(j) && Named(j)
    requires Name(key) && key != "type" && key != "index" && key != "delta"
    ensures var s := Print(Delta(index, kind, Field(key, Str(v), NoField)), []);
            && (Contains(s, TypeIs("text_delta")) <==> kind == "text_delta")
            && (Contains(s, TypeIs("input_json_delta")) <==> kind == "input_json_delta")
            && (Contains(s, TypeIs("thinking_delta")) <==> kind == "thinking_delta")
            && Extracted(s, Key(key)) == Some(['\"'] + (v + ['\"']))
  {
    var j := Delta(index, kind, Field(key, Str(v), NoField));
    SearchedNames();
    DeltaType(index, kind, key, v, "text_delta");
    DeltaType(index, kind, key, v, "input_json_delta");
    DeltaType(index, kind, key, v, "thinking_delta");
    InnerText("content_block_delta", index, "delta", kind, key, v);
    ReadsFrom(j, key, v);
  }

  lemma DeltaType(index: int, kind: Bytes, key: Bytes, v: Bytes, want: Bytes)
    requires var j := Delta(index, kind, Field(key, Str(v), NoField)); Source(j) && Named(j)
    requires Name(want) && key != "type" && want != "content_block_delta"
    ensures Contains(Print(Delta(index, kind, Field(key, Str(v), NoField)), []), TypeIs(want)) <==> want == kind
  {
    PayloadNames();
    InnerType("content_block_delta", index, "delta", kind, key, Str(v), NoField, want);
    ContainsPrinted(Delta(index, kind, Field(key, Str(v), NoField)), Marker("type", Some(want)));
  }

  lemma FastBlockDeltaIs(e: Event, c: Context)
    requires Valid(e) && (e.DeltaText? || e.DeltaThinking? || e.DeltaInput?)
    ensures RawChoice(e, c).Some? && FastBlockDelta(Data(e), c) == Some(FastChunk(c, c.model, RawChoice(e, c).value))
  {
    PayloadSpells(e);
    match e
    case DeltaText(x, t) => FastTextIs(x, "text_delta", "text", Encode(t), c);
    case DeltaThinking(x, t) => FastThinkingIs(x, "thinking_delta", "thinking", Encode(t), c);
    case DeltaInput(x, p) => FastInputIs(x, "input_json_delta", "partial_json", Encode(p), c);
  }

  lemma KindsDiffer()
    ensures "text_delta" != "input_json_delta" && "text_delta" != "thinking_delta" && "input_json_delta" != "thinking_delta"
  {
    assert "thinking_delta"[1] != "text_delta"[1] && "thinking_delta"[0] != "input_json_delta"[0];
    assert "input_json_delta"[0] != "text_delta"[0];
  }

  /** What the branch does once it knows the type and the text. */
  lemma FastDeltaTakes(c: Context, kind: Bytes, v: Bytes, text: Option<Bytes>, args: Option<Bytes>, thinking: Option<Bytes>)
    ensures var q := Some(['\"'] + (v + ['\"']));
      var r := FastDelta(c, kind == "text_delta", kind == "input_json_delta", kind == "thinking_delta", text, args, thinking);
      && (kind == "text_delta" && text == q ==> r == Some(FastChunk(c, c.model, ContentChoice(v))))
      && (kind == "input_json_delta" && args == q ==> r == Some(FastChunk(c, c.model, ToolArgsChoice(ToolIndex(c), v))))
      && (kind == "thinking_delta" && thinking == q ==> r == Some(FastChunk(c, c.model, ReasoningChoice(v))))
  {
    KindsDiffer();
    QuotesStrip(v);
  }

  lemma FastDeltaIs(index: int, kind: Bytes, key: Bytes, v: Bytes, c: Context)
    requires var j := Delta(index, kind, Field(key, Str(v), NoField)); Source(j) && Named(j)
    requires Name(key) && key != "type" && key != "index" && key != "delta"
    ensures var s := Print(Delta(index, kind, Field(key, Str(v), NoField)), []);
      && FastBlockDelta(s, c) == FastDelta(c, kind == "text_delta", kind == "input_json_delta", kind == "thinking_delta",
           Extracted(s, Key("text")), Extracted(s, Key("partial_json")), Extracted(s, Key("thinking")))
      && Extracted(s, Key(key)) == Some(['\"'] + (v + ['\"']))
  {
    DeltaReads(index, kind, key, v);
  }

  lemma FastTextIs(index: int, kind: Bytes, key: Bytes, v: Bytes, c: Context)
    requires var j := Delta(index, kind, Field(key, Str(v), NoField)); Source(j) && Named(j)
    requires kind == "text_delta" && key == "text"
    ensures FastBlockDelta(Print(Delta(index, kind, Field(key, Str(v), NoField)), []), c) == Some(FastChunk(c, c.model, ContentChoice(v)))
  {
    SearchedNames();
    FastDeltaIs(index, kind, key, v, c);
    var s := Print(Delta(index, kind, Field(key, Str(v), NoField)), []);
    FastDeltaTakes(c, kind, v, Extracted(s, Key("text")), Extracted(s, Key("partial_json")), Extracted(s, Key("thinking")));
  }

  lemma FastInputIs(index: int, kind: Bytes, key: Bytes, v: Bytes, c: Context)
    requires var j := Delta(index, kind, Field(key, Str(v), NoField)); Source(j) && Named(j)
    requires kind == "input_json_delta" && key == "partial_json"
    ensures FastBlockDelta(Print(Delta(index, kind, Field(key, Str(v), NoField)), []), c) ==
            Some(FastChunk(c, c.model, ToolArgsChoice(ToolIndex(c), v)))
  {
    SearchedNames();
    FastDeltaIs(index, kind, key, v, c);
    var s := Print(Delta(index, kind, Field(key, Str(v), NoField)), []);
    FastDeltaTakes(c, kind, v, Extracted(s, Key("text")), Extracted(s, Key("partial_json")), Extracted(s, Key("thinking")));
  }

  lemma FastThinkingIs(index: int, kind: Bytes, key: Bytes, v: Bytes, c: Context)
    requires var j := Delta(index, kind, Field(key, Str(v), NoField)); Source(j) && Named(j)
    requires kind == "thinking_delta" && key == "thinking"
    ensures FastBlockDelta(Print(Delta(index, kind, Field(key, Str(v), NoField)), []), c) ==
            Some(FastChunk(c, c.model, ReasoningChoice(v)))
  {
    SearchedNames();
    FastDeltaIs(index, kind, key, v, c);
    var s := Print(Delta(index, kind, Field(key, Str(v), NoField)), []);
    FastDeltaTakes(c, kind, v, Extracted(s, Key("text")), Extracted(s, Key("partial_json")), Extracted(s, Key("thinking")));
  }

  lemma FastMessageDeltaIs(e: Event, c: Context)
    requires Valid(e) && e.MessageDelta?
    ensures RawChoice(e, c).Some? && FastMessageDelta(Data(e), c) == Some(FastChunk(c, c.model, RawChoice(e, c).value))
  {
    SearchedNames();
    var s, m := Encode(e.stopReason), Marker("stop_reason", None);
    var f := Field("stop_reason", Str(s), NoField);
    var usage := Field("usage", One("output_tokens", Num(Decimal(e.outputTokens))), NoField);
    assert Finds(f, m, Str(s));
    Into("delta", f, usage, m, Str(s));
    Past("type", Str("message_delta"), Field("delta", Obj(f), usage), m);
    Reads(e, "stop_reason", s);
  }

  lemma EventNamesDiffer()
    ensures "message_start" != "content_block_start" && "message_start" != "content_block_delta"
    ensures "message_start" != "message_delta" && "message_start" != "content_block_stop" && "message_start" != "message_stop"
    ensures "content_block_start" != "content_block_delta" && "content_block_start" != "message_delta"
    ensures "content_block_start" != "content_block_stop" && "content_block_start" != "message_stop"
    ensures "content_block_delta" != "message_delta" && "content_block_delta" != "content_block_stop"
    ensures "content_block_delta" != "message_stop" && "message_delta" != "content_block_stop" && "message_delta" != "message_stop"
  {
    assert "content_block_start"[14] != "content_block_delta"[14];
    assert "content_block_start"[16] != "content_block_stop"[16];
    assert "message_start"[8] != "message_delta"[8];
  }

  predicate IsBlockStart(e: Event) { e.StartText? || e.StartThinking? || e.StartToolUse? }

  predicate IsBlockDelta(e: Event) { e.DeltaText? || e.DeltaThinking? || e.DeltaInput? }

  /** The branch on the event's name. */
  lemma FastBranch(e: Event, data: Bytes, c: Context)
    ensures Fast(EventName(e), data, c) ==
      if IsMessageStart(e) then FastMessageStart(data, c)
      else if IsBlockStart(e) then FastBlockStart(data, c)
      else if IsBlockDelta(e) then FastBlockDelta(data, c)
      else if e.MessageDelta? then FastMessageDelta(data, c)
      else None
  {
    EventNamesDiffer();
  }

  /** What the fast path does on each printed event: payload text never misleads it. */
  lemma FastIs(e: Event, c: Context)
    requires Valid(e)
    ensures Fast(EventName(e), Data(e), c) ==
            if RawChoice(e, c).Some? then Some(FastChunk(c, RawModel(e, c), RawChoice(e, c).value)) else None
  {
    FastBranch(e, Data(e), c);
    if IsMessageStart(e) { FastMessageStartIs(e, c); }
    else if IsBlockStart(e) { FastBlockStartIs(e, c); }
    else if IsBlockDelta(e) { FastBlockDeltaIs(e, c); }
    else if e.MessageDelta? { FastMessageDeltaIs(e, c); }
  }

  // ----------------------------------------------------------------------------- the slow path

  lemma LookupStep(k: Bytes, v: Json, rest: Fields, want: Bytes)
    ensures Lookup(Field(k, v, rest), want) ==
            if Lookup(rest, want).Some? then Lookup(rest, want) else if k == want then Some(v) else None
  {
  }

  /** The named inner object of a payload `{"type":…, "index":…, outer:{…}}`. */
  lemma InnerObject(e: Event, name: Bytes, index: int, outer: Bytes, f: Fields)
    requires Valid(e) && Payload(e) == Indexed(name, index, Field(outer, Obj(f), NoField))
    ensures ObjectMember(Data(e), outer) == Some(f)
  {
    DataUnmarshals(e);
    LookupStep(outer, Obj(f), NoField, outer);
    LookupStep("index", Num(Decimal(index)), Field(outer, Obj(f), NoField), outer);
    LookupStep("type", Str(name), Field("index", Num(Decimal(index)), Field(outer, Obj(f), NoField)), outer);
  }

  lemma HeadLookup(msgID: Bytes, model: Bytes, usage: Fields, head: Fields)
    requires Lookup(usage, "model") == None
    requires head == Field("id", Str(msgID), Field("type", Str("message"), Field("role", Str("assistant"),
                     Field("content", Arr(NoItem), Field("model", Str(model), usage)))))
    ensures Lookup(head, "model") == Some(Str(model))
  {
    LookupStep("model", Str(model), usage, "model");
    LookupStep("content", Arr(NoItem), head.rest.rest.rest.rest, "model");
    LookupStep("role", Str("assistant"), head.rest.rest.rest, "model");
    LookupStep("type", Str("message"), head.rest.rest, "model");
    LookupStep("id", Str(msgID), head.rest, "model");
  }

  lemma MessageObject(e: Event, head: Fields)
    requires Valid(e) && Payload(e) == Typed("message_start", Field("message", Obj(head), NoField))
    ensures ObjectMember(Data(e), "message") == Some(head)
  {
    DataUnmarshals(e);
    LookupStep("message", Obj(head), NoField, "message");
    LookupStep("type", Str("message_start"), Field("message", Obj(head), NoField), "message");
  }

  lemma SlowHeadIs(e: Event, msgID: Bytes, model: Bytes, usage: Fields)
    requires Valid(e) && Payload(e) == MessageHead(msgID, model, usage) && Lookup(usage, "model") == None
    ensures SlowMessageStart(Data(e)) == Some((model, RoleChoice()))
  {
    var head := Field("id", Str(msgID), Field("type", Str("message"), Field("role", Str("assistant"),
                Field("content", Arr(NoItem), Field("model", Str(model), usage)))));
    MessageObject(e, head);
    HeadLookup(msgID, model, usage, head);
  }

  lemma SlowMessageStartIs(e: Event)
    requires Valid(e) && IsMessageStart(e)
    ensures SlowMessageStart(Data(e)) == Some((e.model, RoleChoice()))
  {
    match e
    case MessageStart(i, m, x, y) =>
      LookupStep("usage", Tokens(x, y).value, NoField, "model");
      SlowHeadIs(e, i, m, Tokens(x, y));
    case MessageStartNoUsage(i, m) => SlowHeadIs(e, i, m, NoField);
  }

  lemma ToolUseLookup(id: Bytes, name: Bytes, f: Fields, want: Bytes)
    requires f == Field("type", Str("tool_use"), Field("id", Str(id), Field("name", Str(name), Field("input", Obj(NoField), NoField))))
    requires want != "input"
    ensures StringMember(f, want) == Some(if want == "type" then Some("tool_use") else if want == "id" then Some(id)
                                          else if want == "name" then Some(name) else None)
  {
    LookupStep("input", Obj(NoField), NoField, want);
    LookupStep("name", Str(name), f.rest.rest.rest, want);
    LookupStep("id", Str(id), f.rest.rest, want);
    LookupStep("type", Str("tool_use"), f.rest, want);
  }

  lemma SlowToolUseIs(e: Event, c: Context)
    requires Valid(e) && e.StartToolUse?
    ensures SlowBlockStart(Data(e), c) ==
            Some((c.model, ToolStartChoice(ToolIndex(c), if e.id != "" then Some(e.id) else None, e.name)))
  {
    var f := Field("type", Str("tool_use"), Field("id", Str(e.id), Field("name", Str(e.name), Field("input", Obj(NoField), NoField))));
    InnerObject(e, "content_block_start", e.index, "content_block", f);
    ToolUseLookup(e.id, e.name, f, "type");
    ToolUseLookup(e.id, e.name, f, "text");
    ToolUseLookup(e.id, e.name, f, "id");
    ToolUseLookup(e.id, e.name, f, "name");
    ToolKind(c, e.id, e.name);
  }

  lemma ToolKind(c: Context, id: Bytes, name: Bytes)
    ensures StartChoice(c, "tool_use", None, Some(id), Some(name)) ==
            Some((c.model, ToolStartChoice(ToolIndex(c), if id != "" then Some(id) else None, name)))
  {
    assert "tool_use"[1] != "text"[1];
  }

  lemma SlowPlainStartIs(e: Event, c: Context)
    requires Valid(e) && (e.StartText? || e.StartThinking?)
    ensures SlowBlockStart(Data(e), c) == None
  {
    match e
    case StartText(x) =>
      var f1 := Field("text", Str(""), NoField);
      InnerObject(e, "content_block_start", x, "content_block", Field("type", Str("text"), f1));
      LookupStep("text", Str(""), NoField, "text");
      LookupStep("type", Str("text"), f1, "text");
      LookupStep("text", Str(""), NoField, "type");
      LookupStep("type", Str("text"), f1, "type");
    case StartThinking(x, s) =>
      var f2 := Field("signature", Str(s), NoField);
      var f1 := Field("thinking", Str(""), f2);
      InnerObject(e, "content_block_start", x, "content_block", Field("type", Str("thinking"), f1));
      LookupStep("signature", Str(s), NoField, "type");
      LookupStep("thinking", Str(""), f2, "type");
      LookupStep("type", Str("thinking"), f1, "type");
  }

  lemma SlowDeltaLookups(kind: Bytes, key: Bytes, v: Bytes, want: Bytes)
    requires key != "type"
    ensures StringMember(Typed(kind, Field(key, Str(v), NoField)).fields, want) ==
              Some(if want == key then Some(v) else if want == "type" then Some(kind) else None)
  {
    LookupStep(key, Str(v), NoField, want);
    LookupStep("type", Str(kind), Field(key, Str(v), NoField), want);
  }

  /** The string under `want` when only `key` is there. */
  function At(key: Bytes, v: Bytes, want: Bytes): Option<Bytes> { if want == key then Some(v) else None }

  lemma SlowDeltaIs(e: Event, c: Context, index: int, kind: Bytes, key: Bytes, v: Bytes)
    requires Valid(e) && Payload(e) == Delta(index, kind, Field(key, Str(v), NoField)) && key != "type"
    ensures SlowBlockDelta(Data(e), c) == DeltaChoice(c, kind, At(key, v, "text"), At(key, v, "partial_json"), At(key, v, "thinking"))
  {
    InnerObject(e, "content_block_delta", index, "delta", Typed(kind, Field(key, Str(v), NoField)).fields);
    SlowDeltaLookups(kind, key, v, "type");
    SlowDeltaLookups(kind, key, v, "text");
    SlowDeltaLookups(kind, key, v, "partial_json");
    SlowDeltaLookups(kind, key, v, "thinking");
  }

  lemma DeltaKinds(c: Context, v: Bytes)
    ensures DeltaChoice(c, "text_delta", Some(v), None, None) == Some((c.model, ContentChoice(v)))
    ensures DeltaChoice(c, "input_json_delta", None, Some(v), None) == Some((c.model, ToolArgsChoice(ToolIndex(c), v)))
    ensures DeltaChoice(c, "thinking_delta", None, None, Some(v)) == Some((c.model, ReasoningChoice(v)))
  {
  }

  lemma SlowBlockDeltaIs(e: Event, c: Context)
    requires Valid(e) && (e.DeltaText? || e.DeltaThinking? || e.DeltaInput?)
    ensures ChoiceOf(e, c).Some? && SlowBlockDelta(Data(e), c) == Some((c.model, ChoiceOf(e, c).value))
  {
    assert "text"[0] != "partial_json"[0] && "text"[1] == 'e' && "thinking"[1] == 'h' && "partial_json"[1] == 'a';
    match e
    case DeltaText(x, t) => SlowDeltaIs(e, c, x, "text_delta", "text", t); DeltaKinds(c, t);
    case DeltaThinking(x, t) => SlowDeltaIs(e, c, x, "thinking_delta", "thinking", t); DeltaKinds(c, t);
    case DeltaInput(x, p) => SlowDeltaIs(e, c, x, "input_json_delta", "partial_json", p); DeltaKinds(c, p);
  }

  lemma SlowMessageDeltaIs(e: Event, c: Context)
    requires Valid(e) && e.MessageDelta?
    ensures SlowMessageDelta(Data(e), c) == Some((c.model, FinishChoice(StopReason(e.stopReason))))
  {
    DataUnmarshals(e);
    var f := Field("stop_reason", Str(e.stopReason), NoField);
    var usage := Field("usage", One("output_tokens", Num(Decimal(e.outputTokens))), NoField);
    LookupStep("usage", One("output_tokens", Num(Decimal(e.outputTokens))), NoField, "delta");
    LookupStep("delta", Obj(f), usage, "delta");
    LookupStep("type", Str("message_delta"), Field("delta", Obj(f), usage), "delta");
    LookupStep("stop_reason", Str(e.stopReason), NoField, "stop_reason");
  }

  lemma SlowBranch(e: Event, data: Bytes, c: Context)
    ensures SlowChoice(EventName(e), data, c) ==
      if IsMessageStart(e) then SlowMessageStart(data)
      else if IsBlockStart(e) then SlowBlockStart(data, c)
      else if IsBlockDelta(e) then SlowBlockDelta(data, c)
      else if e.MessageDelta? then SlowMessageDelta(data, c)
      else None
  {
    EventNamesDiffer();
  }

  /** What the slow path builds from each printed event. */
  lemma SlowIs(e: Event, c: Context)
    requires Valid(e)
    ensures Slow(EventName(e), Data(e), c) ==
            if e.StartToolUse? && e.id == "" then
              Some(Chunk(c.msgID, c.created, c.model, ToolStartChoice(ToolIndex(c), None, e.name)))
            else ChunkOf(e, c)
  {
    SlowBranch(e, Data(e), c);
    if IsMessageStart(e) { SlowMessageStartIs(e); }
    else if e.StartToolUse? { SlowToolUseIs(e, c); }
    else if IsBlockStart(e) { SlowPlainStartIs(e, c); }
    else if IsBlockDelta(e) { SlowBlockDeltaIs(e, c); }
    else if e.MessageDelta? { SlowMessageDeltaIs(e, c); }
  }

  // ----------------------------------------------------------------- what the fast text spells

  /** Bytes that mean themselves between quotes. */
  predicate Clean(b: Bytes) {
    forall i :: 0 <= i < |b| ==> b[i] >= ' ' && b[i] != '\\' && b[i] != '\"'
  }

  lemma {:induction false} CleanDecodes(b: Bytes)
    requires Clean(b)
    ensures Decode(b) == Some(b)
  {
    if b != [] {
      CleanDecodes(b[1..]);
      assert b == [b[0]] + b[1..];
    }
  }

  lemma SpellsClean(b: Bytes)
    requires Clean(b)
    ensures Spells(Str(b), Str(b))
  {
    CleanDecodes(b);
    PlainBytesAreBody(b);
  }

  lemma SpellsID(msgID: Bytes)
    requires ValidUtf8(msgID)
    ensures Spells(Str(IDBody(msgID)), Str(msgID))
  {
    if Clean(msgID) { SpellsClean(msgID); }
    SpellsText(msgID);
  }

  lemma SpellsObject(f: Fields, f': Fields)
    requires SpellsFields(f, f')
    ensures Spells(Obj(f), Obj(f'))
  {
  }

  lemma SpellsSingleton(v: Json, v': Json)
    requires Spells(v, v')
    ensures Spells(Arr(Item(v, NoItem)), Arr(Item(v', NoItem)))
  {
    assert DecodeItems(NoItem) == Some(NoItem);
    assert DecodeItems(Item(v, NoItem)) == Some(Item(v', NoItem));
    assert SourceItems(Item(v, NoItem)) && NamedItems(Item(v, NoItem));
  }

  /** An array of one object `{"index":n, f}`. */
  lemma SpellsEntry(n: Json, f: Fields, f': Fields)
    requires n.Num? && IsNumber(n.digits) && SpellsFields(f, f')
    ensures Spells(Arr(Item(Obj(Field("index", n, f)), NoItem)), Arr(Item(Obj(Field("index", n, f')), NoItem)))
  {
    PayloadNames();
    SpellsField("index", n, n, f, f');
    SpellsSingleton(Obj(Field("index", n, f)), Obj(Field("index", n, f')));
  }

  lemma SpellsTag(tag: Bytes)
    requires tag == "chat.completion.chunk"
    ensures Spells(Str(tag), Str(tag))
  {
    SpellsClean(tag);
  }

  lemma SpellsChunk(id: Bytes, id': Bytes, created: int, model: Bytes, model': Bytes, f: Fields, f': Fields)
    requires Spells(Str(id), Str(id')) && Spells(Str(model), Str(model')) && SpellsFields(f, f')
    ensures Spells(Chunk(id, created, model, f), Chunk(id', created, model', f'))
  {
    SearchedNames();
    ChunkNames();
    var zero, n := Num("0"), Num(Decimal(created));
    SpellsEntry(zero, f, f');
    var a, b := Arr(Item(Obj(Field("index", zero, f)), NoItem)), Arr(Item(Obj(Field("index", zero, f')), NoItem));
    SpellsField("choices", a, b, NoField, NoField);
    var f4, g4 := Field("choices", a, NoField), Field("choices", b, NoField);
    SpellsField("model", Str(model), Str(model'), f4, g4);
    var f3, g3 := Field("model", Str(model), f4), Field("model", Str(model'), g4);
    SpellsField("created", n, n, f3, g3);
    var kind := "chat.completion.chunk";
    SpellsTag(kind);
    var tag := Str(kind);
    SpellsField("object", tag, tag, Field("created", n, f3), Field("created", n, g3));
    SpellsField("id", Str(id), Str(id'), Field("object", tag, Field("created", n, f3)),
                Field("object", tag, Field("created", n, g3)));
  }

  lemma SpellsDelta(f: Fields, f': Fields)
    requires SpellsFields(f, f')
    ensures SpellsFields(DeltaOnly(f), DeltaOnly(f'))
  {
    PayloadNames();
    SpellsObject(f, f');
    SpellsField("delta", Obj(f), Obj(f'), NoField, NoField);
  }

  lemma SpellsRole()
    ensures SpellsFields(RoleChoice(), RoleChoice())
  {
    PayloadNames();
    SpellsName("assistant");
    SpellsField("role", Str("assistant"), Str("assistant"), NoField, NoField);
    SpellsDelta(Field("role", Str("assistant"), NoField), Field("role", Str("assistant"), NoField));
  }

  lemma SpellsContent(key: Bytes, v: Bytes)
    requires ValidUtf8(v) && Name(key)
    ensures SpellsFields(DeltaOnly(Field(key, Str(Encode(v)), NoField)), DeltaOnly(Field(key, Str(v), NoField)))
  {
    SpellsMember(key, v, NoField, NoField);
    SpellsDelta(Field(key, Str(Encode(v)), NoField), Field(key, Str(v), NoField));
  }

  lemma SpellsToolChoice(index: int, f: Fields, f': Fields)
    requires SpellsFields(f, f')
    ensures SpellsFields(ToolChoice(index, f), ToolChoice(index, f'))
  {
    ChunkNames();
    var n := Num(Decimal(index));
    SpellsEntry(n, f, f');
    var a, b := Arr(Item(Obj(Field("index", n, f)), NoItem)), Arr(Item(Obj(Field("index", n, f')), NoItem));
    SpellsField("tool_calls", a, b, NoField, NoField);
    SpellsDelta(Field("tool_calls", a, NoField), Field("tool_calls", b, NoField));
  }

  lemma SpellsToolArgs(index: int, p: Bytes)
    requires ValidUtf8(p)
    ensures SpellsFields(ToolArgsChoice(index, Encode(p)), ToolArgsChoice(index, p))
  {
    ChunkNames();
    SpellsText(p);
    SpellsField("arguments", Str(Encode(p)), Str(p), NoField, NoField);
    SpellsField("function", One("arguments", Str(Encode(p))), One("arguments", Str(p)), NoField, NoField);
    SpellsToolChoice(index, Field("function", One("arguments", Str(Encode(p))), NoField),
                     Field("function", One("arguments", Str(p)), NoField));
  }

  lemma SpellsToolStart(index: int, id: Bytes, name: Bytes)
    requires ValidUtf8(id) && ValidUtf8(name)
    ensures SpellsFields(ToolStartChoice(index, Some(Encode(id)), Encode(name)), ToolStartChoice(index, Some(id), name))
  {
    PayloadNames();
    SearchedNames();
    ChunkNames();
    SpellsName("");
    SpellsField("arguments", Str(""), Str(""), NoField, NoField);
    var rest := Field("arguments", Str(""), NoField);
    SpellsText(name);
    SpellsField("name", Str(Encode(name)), Str(name), rest, rest);
    var fn, gn := Two("name", Str(Encode(name)), "arguments", Str("")), Two("name", Str(name), "arguments", Str(""));
    SpellsField("function", fn, gn, NoField, NoField);
    SpellsName("function");
    var f2, g2 := Field("function", fn, NoField), Field("function", gn, NoField);
    SpellsField("type", Str("function"), Str("function"), f2, g2);
    SpellsMember("id", id, Field("type", Str("function"), f2), Field("type", Str("function"), g2));
    SpellsToolChoice(index, Field("id", Str(Encode(id)), Field("type", Str("function"), f2)),
                     Field("id", Str(id), Field("type", Str("function"), g2)));
  }

  lemma SpellsFinish(r: Bytes, r': Bytes)
    requires Spells(Str(r), Str(r'))
    ensures SpellsFields(FinishChoice(r), FinishChoice(r'))
  {
    PayloadNames();
    ChunkNames();
    SpellsField("finish_reason", Str(r), Str(r'), NoField, NoField);
    SpellsField("delta", Obj(NoField), Obj(NoField), Field("finish_reason", Str(r), NoField), Field("finish_reason", Str(r'), NoField));
  }

  /** The stop reason the fast path maps to: the same table, without trimming. */
  function ExactStopReason(s: Bytes): Bytes {
    if s == "" || s == "stop" || s == "end_turn" then "stop"
    else if s == "tool_use" then "tool_calls"
    else if s == "max_tokens" then "length"
    else if s == "refusal" then "content_filter"
    else s
  }

  /** A quoted constant is recognised exactly when the value is that constant. */
  lemma QuotedIs(s: Bytes, k: Bytes)
    requires ValidUtf8(s) && (Name(k) || k == "")
    ensures ['\"'] + (Encode(s) + ['\"']) == ['\"'] + (k + ['\"']) <==> s == k
  {
    NameEncodesToItself(k);
    QuotesStrip(Encode(s));
    QuotesStrip(k);
    if Encode(s) == k { EncodeInjective(s, k); }
  }

  lemma StopReasonNames()
    ensures Name("stop") && Name("end_turn") && Name("tool_use") && Name("max_tokens") && Name("refusal")
    ensures Name("tool_calls") && Name("length") && Name("content_filter")
  {
  }

  lemma StopReasonLiterals()
    ensures "\"\"" == ['\"'] + ("" + ['\"']) && "\"stop\"" == ['\"'] + ("stop" + ['\"'])
    ensures "\"end_turn\"" == ['\"'] + ("end_turn" + ['\"']) && "\"tool_use\"" == ['\"'] + ("tool_use" + ['\"'])
    ensures "\"max_tokens\"" == ['\"'] + ("max_tokens" + ['\"']) && "\"refusal\"" == ['\"'] + ("refusal" + ['\"'])
    ensures "\"tool_calls\"" == ['\"'] + ("tool_calls" + ['\"']) && "\"length\"" == ['\"'] + ("length" + ['\"'])
    ensures "\"content_filter\"" == ['\"'] + ("content_filter" + ['\"'])
  {
  }

  /** The normaliser on quoted text is the table on the text itself. */
  lemma StopReasonQuotedIs(s: Bytes)
    requires ValidUtf8(s)
    ensures var r := ExactStopReason(s);
            StopReasonQuoted(['\"'] + (Encode(s) + ['\"'])) == ['\"'] + ((if r == s then Encode(s) else r) + ['\"'])
    ensures ExactStopReason(s) != s ==> Name(ExactStopReason(s))
  {
    StopReasonNames();
    StopReasonLiterals();
    QuotedIs(s, "");
    QuotedIs(s, "stop");
    QuotedIs(s, "end_turn");
    QuotedIs(s, "tool_use");
    QuotedIs(s, "max_tokens");
    QuotedIs(s, "refusal");
  }

  lemma SpellsStopReason(s: Bytes)
    requires ValidUtf8(s)
    ensures Spells(Str(Unquoted(StopReasonQuoted(['\"'] + (Encode(s) + ['\"'])))), Str(ExactStopReason(s)))
  {
    var r := ExactStopReason(s);
    StopReasonQuotedIs(s);
    QuotesStrip(if r == s then Encode(s) else r);
    if r == s { SpellsText(s); } else { SpellsName(r); }
  }

  /** The choice the fast text spells. */
  function ExactChoice(e: Event, c: Context): Option<Fields> {
    if e.MessageDelta? then Some(FinishChoice(ExactStopReason(e.stopReason))) else ChoiceOf(e, c)
  }

  lemma SpellsChoice(e: Event, c: Context)
    requires Valid(e) && RawChoice(e, c).Some?
    ensures ExactChoice(e, c).Some? && SpellsFields(RawChoice(e, c).value, ExactChoice(e, c).value)
  {
    SearchedNames();
    PayloadNames();
    ChunkNames();
    match e
    case MessageStart(_, _, _, _) => SpellsRole();
    case MessageStartNoUsage(_, _) => SpellsRole();
    case StartToolUse(_, i, n) => SpellsToolStart(ToolIndex(c), i, n);
    case DeltaText(_, t) => SpellsContent("content", t);
    case DeltaThinking(_, t) => SpellsContent("reasoning_content", t);
    case DeltaInput(_, p) => SpellsToolArgs(ToolIndex(c), p);
    case MessageDelta(s, _) => SpellsStopReason(s); SpellsFinish(Unquoted(StopReasonQuoted(['\"'] + (Encode(s) + ['\"']))), ExactStopReason(s));
  }
}
