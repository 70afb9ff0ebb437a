/** What an OpenAI client reads in a chunk, member by member. */
module ChunkReading {
  import opened Bytes
  import opened JsonString
  import opened JsonTree
  import opened SseEvent
  import opened OpenAIChunk
  import ChunkRefinement
  import ChunkAgreement

  /** The head of a chunk: its id, kind, time of creation and model. */
  datatype Head = Head(id: Bytes, kind: Bytes, created: Bytes, model: Bytes)

  /** One entry of `tool_calls`. */
  datatype ToolPart = ToolPart(index: Bytes, id: Option<Bytes>, kind: Option<Bytes>, name: Option<Bytes>, arguments: Option<Bytes>)

  /** The first choice: the members of its delta, and the reason why it ends. */
  datatype Part = Part(role: Option<Bytes>, content: Option<Bytes>, reasoning: Option<Bytes>, tool: Option<ToolPart>, finish: Option<Bytes>)

  function TextOf(f: Fields, k: Bytes): Option<Bytes> {
    match Lookup(f, k)
    case Some(Str(t)) => Some(t)
    case _ => None
  }

  function DigitsOf(f: Fields, k: Bytes): Bytes {
    match Lookup(f, k)
    case Some(Num(d)) => d
    case _ => ""
  }

  function ObjectOf(f: Fields, k: Bytes): Fields {
    match Lookup(f, k)
    case Some(Obj(g)) => g
    case _ => NoField
  }

  /** The first element of an array member, which is an object. */
  function FirstOf(f: Fields, k: Bytes): Option<Fields> {
    match Lookup(f, k)
    case Some(Arr(Item(Obj(g), _))) => Some(g)
    case _ => None
  }

  function ReadTool(f: Fields): ToolPart {
    var fn := ObjectOf(f, "function");
    ToolPart(DigitsOf(f, "index"), TextOf(f, "id"), TextOf(f, "type"), TextOf(fn, "name"), TextOf(fn, "arguments"))
  }

  function ReadChoice(f: Fields): Part {
    var d := ObjectOf(f, "delta");
    var calls := FirstOf(d, "tool_calls");
    Part(TextOf(d, "role"), TextOf(d, "content"), TextOf(d, "reasoning_content"),
         if calls.Some? then Some(ReadTool(calls.value)) else None, TextOf(f, "finish_reason"))
  }

  /** The head and the first choice, at index 0. */
  function ReadChunk(j: Json): Option<(Head, Part)> {
    if !j.Obj? then None
    else
      var f := j.fields;
      var id, kind, model, choice := TextOf(f, "id"), TextOf(f, "object"), TextOf(f, "model"), FirstOf(f, "choices");
      if id.None? || kind.None? || model.None? || choice.None? || DigitsOf(choice.value, "index") != "0" then None
      else Some((Head(id.value, kind.value, DigitsOf(f, "created"), model.value), ReadChoice(choice.value)))
  }

  const NOTHING := Part(None, None, None, None, None)

  /** The stop reasons that OpenAI names differently; any other goes through. */
  const REASONS: map<Bytes, Bytes> := map[
    "" := "stop", "stop" := "stop", "end_turn" := "stop", "tool_use" := "tool_calls", "max_tokens" := "length",
    "refusal" := "content_filter"]

  /** What the client is to read for an event. */
  function PartOf(e: Event, c: Context): Option<Part> {
    var index := Decimal(if c.toolIndex < 0 then 0 else c.toolIndex);
    match e
    case MessageStart(_, _, _, _) => Some(NOTHING.(role := Some("assistant")))
    case MessageStartNoUsage(_, _) => Some(NOTHING.(role := Some("assistant")))
    case DeltaText(_, t) => Some(NOTHING.(content := Some(t)))
    case DeltaThinking(_, t) => Some(NOTHING.(reasoning := Some(t)))
    case StartToolUse(_, id, name) =>
      Some(NOTHING.(tool := Some(ToolPart(index, if id == "" then None else Some(id), Some("function"), Some(name), Some("")))))
    case DeltaInput(_, p) => Some(NOTHING.(tool := Some(ToolPart(index, None, None, None, Some(p)))))
    case MessageDelta(s, _) =>
      var r := TrimSpace(s);
      Some(NOTHING.(finish := Some(if r in REASONS then REASONS[r] else r)))
    case _ => None
  }

  lemma Look(k: Bytes, v: Json, rest: Fields, want: Bytes)
    ensures Lookup(Field(k, v, rest), want) ==
      if Lookup(rest, want).Some? then Lookup(rest, want) else if k == want then Some(v) else None
  {
  }

  /** The head is read, and the choice handed on. */
  lemma ReadsHead(id: Bytes, created: int, model: Bytes, choice: Fields)
    requires Lookup(choice, "index").None?
    ensures ReadChunk(Chunk(id, created, model, choice))
      == Some((Head(id, "chat.completion.chunk", Decimal(created), model), ReadChoice(Field("index", Num("0"), choice))))
  {
    var entry := Arr(Item(Obj(Field("index", Num("0"), choice)), NoItem));
    var f1 := Field("choices", entry, NoField);
    var f2 := Field("model", Str(model), f1);
    var f3 := Field("created", Num(Decimal(created)), f2);
    var f4 := Field("object", Str("chat.completion.chunk"), f3);
    var f5 := Field("id", Str(id), f4);
    assert Chunk(id, created, model, choice) == Obj(f5);
    forall want: Bytes
      ensures Lookup(f5, want) ==
        if want == "choices" then Some(entry) else if want == "model" then Some(Str(model))
        else if want == "created" then Some(Num(Decimal(created)))
        else if want == "object" then Some(Str("chat.completion.chunk"))
        else if want == "id" then Some(Str(id)) else None
    {
      Look("choices", entry, NoField, want);
      Look("model", Str(model), f1, want);
      Look("created", Num(Decimal(created)), f2, want);
      Look("object", Str("chat.completion.chunk"), f3, want);
      Look("id", Str(id), f4, want);
    }
    Look("index", Num("0"), choice, "index");
  }

  /** A choice that has only a delta, with one member. */
  lemma ReadsDelta(k: Bytes, v: Json)
    ensures var f := DeltaOnly(Field(k, v, NoField));
      && Lookup(f, "index").None? && TextOf(Field("index", Num("0"), f), "finish_reason").None?
      && ObjectOf(Field("index", Num("0"), f), "delta") == Field(k, v, NoField)
  {
    var d := Obj(Field(k, v, NoField));
    forall want: Bytes ensures Lookup(Field("index", Num("0"), DeltaOnly(Field(k, v, NoField))), want) ==
        if want == "delta" then Some(d) else if want == "index" then Some(Num("0")) else None
    {
      Look("delta", d, NoField, want);
      Look("index", Num("0"), Field("delta", d, NoField), want);
    }
  }

  lemma Single(k: Bytes, v: Json, want: Bytes)
    ensures Lookup(Field(k, v, NoField), want) == if k == want then Some(v) else None
  {
  }

  /** A delta of one text: it is read under its own name and nothing under another. */
  lemma ReadsText(k: Bytes, t: Bytes)
    ensures var r := ReadChoice(Field("index", Num("0"), DeltaOnly(Field(k, Str(t), NoField))));
      && r.tool.None? && r.finish.None?
      && r.role == (if k == "role" then Some(t) else None) && r.content == (if k == "content" then Some(t) else None)
      && r.reasoning == (if k == "reasoning_content" then Some(t) else None)
  {
    ReadsDelta(k, Str(t));
    Single(k, Str(t), "role");
    Single(k, Str(t), "content");
    Single(k, Str(t), "reasoning_content");
    Single(k, Str(t), "tool_calls");
  }

  lemma ReadsTool(index: int, rest: Fields)
    ensures var r := ReadChoice(Field("index", Num("0"), ToolChoice(index, rest)));
      r == NOTHING.(tool := Some(ReadTool(Field("index", Num(Decimal(index)), rest))))
  {
    var v := Arr(Item(Obj(Field("index", Num(Decimal(index)), rest)), NoItem));
    ReadsDelta("tool_calls", v);
    Single("tool_calls", v, "role");
    Single("tool_calls", v, "content");
    Single("tool_calls", v, "reasoning_content");
    Single("tool_calls", v, "tool_calls");
  }

  lemma ReadsArgs(index: int, args: Bytes)
    ensures ReadChoice(Field("index", Num("0"), ToolArgsChoice(index, args)))
      == NOTHING.(tool := Some(ToolPart(Decimal(index), None, None, None, Some(args))))
  {
    var fn := One("arguments", Str(args));
    var n := Num(Decimal(index));
    ReadsTool(index, Field("function", fn, NoField));
    forall want: Bytes ensures Lookup(Field("index", n, Field("function", fn, NoField)), want) ==
        if want == "function" then Some(fn) else if want == "index" then Some(n) else None
    {
      Look("function", fn, NoField, want);
      Look("index", n, Field("function", fn, NoField), want);
    }
    Single("arguments", Str(args), "name");
    Single("arguments", Str(args), "arguments");
  }

  lemma ReadsFunction(name: Bytes)
    ensures TextOf(Two("name", Str(name), "arguments", Str("")).fields, "name") == Some(name)
    ensures TextOf(Two("name", Str(name), "arguments", Str("")).fields, "arguments") == Some("")
  {
    Look("name", Str(name), Field("arguments", Str(""), NoField), "name");
    Look("name", Str(name), Field("arguments", Str(""), NoField), "arguments");
    Single("arguments", Str(""), "name");
    Single("arguments", Str(""), "arguments");
  }

  lemma ReadsStart(index: int, id: Option<Bytes>, name: Bytes)
    ensures ReadChoice(Field("index", Num("0"), ToolStartChoice(index, id, name)))
      == NOTHING.(tool := Some(ToolPart(Decimal(index), id, Some("function"), Some(name), Some(""))))
  {
    var fn := Two("name", Str(name), "arguments", Str(""));
    var n := Num(Decimal(index));
    var f1 := Field("function", fn, NoField);
    var f2 := Field("type", Str("function"), f1);
    var f3 := if id.Some? then Field("id", Str(id.value), f2) else f2;
    ReadsTool(index, f3);
    forall want: Bytes ensures Lookup(Field("index", n, f3), want) ==
        if want == "function" then Some(fn) else if want == "type" then Some(Str("function"))
        else if want == "id" && id.Some? then Some(Str(id.value)) else if want == "index" then Some(n) else None
    {
      Look("function", fn, NoField, want);
      Look("type", Str("function"), f1, want);
      if id.Some? { Look("id", Str(id.value), f2, want); }
      Look("index", n, f3, want);
    }
    ReadsFunction(name);
  }

  lemma ReadsFinish(reason: Bytes)
    ensures ReadChoice(Field("index", Num("0"), FinishChoice(reason))) == NOTHING.(finish := Some(reason))
    ensures Lookup(FinishChoice(reason), "index").None?
  {
    var f1 := Field("finish_reason", Str(reason), NoField);
    forall want: Bytes ensures Lookup(Field("index", Num("0"), FinishChoice(reason)), want) ==
        if want == "finish_reason" then Some(Str(reason)) else if want == "delta" then Some(Obj(NoField))
        else if want == "index" then Some(Num("0")) else None
    {
      Look("finish_reason", Str(reason), NoField, want);
      Look("delta", Obj(NoField), f1, want);
      Look("index", Num("0"), Field("delta", Obj(NoField), f1), want);
    }
    Look("finish_reason", Str(reason), NoField, "index");
    Look("delta", Obj(NoField), f1, "index");
  }

  lemma ReasonIs(s: Bytes)
    ensures StopReason(s) == if TrimSpace(s) in REASONS then REASONS[TrimSpace(s)] else TrimSpace(s)
  {
    ChunkAgreement.StopReasonTrimsFirst(s);
    TableIs(TrimSpace(s));
  }

  lemma TableIs(r: Bytes)
    ensures ChunkRefinement.ExactStopReason(r) == if r in REASONS then REASONS[r] else r
  {
  }

  /** The choice of an event as the slow path fills it in. */
  lemma ChoiceReads(e: Event, c: Context)
    ensures ChoiceOf(e, c).Some? <==> PartOf(e, c).Some?
    ensures ChoiceOf(e, c).Some? ==>
      var f := ChunkAgreement.SlowChoiceOf(e, c);
      Lookup(f, "index").None? && ReadChoice(Field("index", Num("0"), f)) == PartOf(e, c).value
  {
    match e
    case MessageStart(_, _, _, _) => ReadsDelta("role", Str("assistant")); ReadsText("role", "assistant");
    case MessageStartNoUsage(_, _) => ReadsDelta("role", Str("assistant")); ReadsText("role", "assistant");
    case DeltaText(_, t) => ReadsDelta("content", Str(t)); ReadsText("content", t);
    case DeltaThinking(_, t) => ReadsDelta("reasoning_content", Str(t)); ReadsText("reasoning_content", t);
    case StartToolUse(_, id, name) =>
      ReadsStart(ToolIndex(c), if id == "" then None else Some(id), name);
      ToolHasNoIndex(e, c);
    case DeltaInput(_, p) =>
      ReadsArgs(ToolIndex(c), p);
      ToolHasNoIndex(e, c);
    case MessageDelta(s, _) =>
      ReadsFinish(StopReason(s));
      ReasonIs(s);
    case _ =>
  }

  lemma ToolHasNoIndex(e: Event, c: Context)
    requires e.StartToolUse? || e.DeltaInput?
    ensures Lookup(ChunkAgreement.SlowChoiceOf(e, c), "index").None?
  {
    forall index: int, rest: Fields ensures Lookup(ToolChoice(index, rest), "index").None? {
      ReadsDelta("tool_calls", Arr(Item(Obj(Field("index", Num(Decimal(index)), rest)), NoItem)));
    }
  }

  /** For every printed event there is a chunk exactly when the event has something to say to an OpenAI client, and the
      client reads just that in it, under the response's id, time and model. */
  lemma ClientReads(e: Event, c: Context)
    requires Valid(e)
    ensures var chunk := Slow(EventName(e), Data(e), c);
      && (chunk.Some? <==> PartOf(e, c).Some?)
      && (chunk.Some? ==> ReadChunk(chunk.value) == Some((
            Head(c.msgID, "chat.completion.chunk", Decimal(c.created), if IsMessageStart(e) then e.model else c.model),
            PartOf(e, c).value)))
  {
    ChunkAgreement.SlowIsChunk(e, c);
    ChoiceReads(e, c);
    if ChoiceOf(e, c).Some? {
      ReadsHead(c.msgID, c.created, if IsMessageStart(e) then e.model else c.model, ChunkAgreement.SlowChoiceOf(e, c));
    }
  }
}
