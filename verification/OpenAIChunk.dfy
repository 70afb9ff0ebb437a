/** Translation of stream events to OpenAI chunks: the byte-scanning fast path and the unmarshalling slow path. */
module OpenAIChunk {
  import opened Bytes
  import opened JsonString
  import opened JsonTree
  import opened MarkerSearch
  import opened SseEvent

  /** What the handler passes along with each event. `setModelHint` puts `model` between quotes as it is,
      and passes no hint when it is empty; either way the chunk text gets `"model"`. */
  datatype Context = Context(msgID: Bytes, created: int, model: Bytes, toolIndex: int)

  function ToolIndex(c: Context): int { if c.toolIndex < 0 then 0 else c.toolIndex }

  // ------------------------------------------------------------------------- chunk trees

  /** The chunk with the given raw texts; `choice` holds the members after `"index":0`. */
  function Chunk(id: Bytes, created: int, model: Bytes, choice: Fields): Json {
    Obj(Field("id", Str(id), Field("object", Str("chat.completion.chunk"), Field("created", Num(Decimal(created)),
    Field("model", Str(model), Field("choices", Arr(Item(Obj(Field("index", Num("0"), choice)), NoItem)), NoField))))))
  }

  function DeltaOnly(f: Fields): Fields { Field("delta", Obj(f), NoField) }

  function RoleChoice(): Fields { DeltaOnly(Field("role", Str("assistant"), NoField)) }

  function ContentChoice(text: Bytes): Fields { DeltaOnly(Field("content", Str(text), NoField)) }

  function ReasoningChoice(text: Bytes): Fields { DeltaOnly(Field("reasoning_content", Str(text), NoField)) }

  function ToolChoice(index: int, rest: Fields): Fields {
    DeltaOnly(Field("tool_calls", Arr(Item(Obj(Field("index", Num(Decimal(index)), rest)), NoItem)), NoField))
  }

  function ToolArgsChoice(index: int, args: Bytes): Fields {
    ToolChoice(index, Field("function", One("arguments", Str(args)), NoField))
  }

  /** The members of a started tool call; `id` is left out when empty only by the marshaller. */
  function ToolStartChoice(index: int, id: Option<Bytes>, name: Bytes): Fields {
    var tail := Field("type", Str("function"), Field("function", Two("name", Str(name), "arguments", Str("")), NoField));
    ToolChoice(index, if id.Some? then Field("id", Str(id.value), tail) else tail)
  }

  function FinishChoice(reason: Bytes): Fields {
    Field("delta", Obj(NoField), Field("finish_reason", Str(reason), NoField))
  }

  // ---------------------------------------------------------------------------- fast path

  function Unquoted(q: Bytes): Bytes { if |q| >= 2 then q[1..|q| - 1] else [] }

  /** `appendOpenAIJSONString`: the text between the quotes. */
  function IDBody(msgID: Bytes): Bytes {
    if forall i :: 0 <= i < |msgID| ==> ' ' <= msgID[i] < '\U{80}' && msgID[i] != '\\' && msgID[i] != '\"' then msgID
    else if ValidUtf8(msgID) then Encode(msgID) else []
  }

  function StopReasonQuoted(q: Bytes): Bytes {
    if q == "" || q == "\"\"" || q == "\"stop\"" || q == "\"end_turn\"" then "\"stop\""
    else if q == "\"tool_use\"" then "\"tool_calls\""
    else if q == "\"max_tokens\"" then "\"length\""
    else if q == "\"refusal\"" then "\"content_filter\""
    else q
  }

  function Key(k: Bytes): Bytes { Text(Marker(k, None)) }

  function TypeIs(name: Bytes): Bytes { Text(Marker("type", Some(name))) }

  function FastChunk(c: Context, model: Bytes, choice: Fields): Bytes {
    Print(Chunk(IDBody(c.msgID), c.created, model, choice), [])
  }

  function FastMessageStart(data: Bytes, c: Context): Option<Bytes> {
    match Extracted(data, Key("model"))
    case Some(model) => Some(FastChunk(c, Unquoted(model), RoleChoice()))
    case None => None
  }

  function FastBlockStart(data: Bytes, c: Context): Option<Bytes> {
    var id, name := Extracted(data, Key("id")), Extracted(data, Key("name"));
    var text := Extracted(data, Key("text"));
    if Contains(data, TypeIs("tool_use")) && id.Some? && name.Some? then
      Some(FastChunk(c, c.model, ToolStartChoice(ToolIndex(c), Some(Unquoted(id.value)), Unquoted(name.value))))
    else if Contains(data, TypeIs("text")) && text.Some? && |text.value| > 2 then
      Some(FastChunk(c, c.model, ContentChoice(Unquoted(text.value))))
    else None
  }

  /** The branch on the delta's type, and the text found under that type's key. */
  function FastDelta(c: Context, isText: bool, isInput: bool, isThinking: bool,
                     text: Option<Bytes>, args: Option<Bytes>, thinking: Option<Bytes>): Option<Bytes> {
    if isText then
      (if text.Some? then Some(FastChunk(c, c.model, ContentChoice(Unquoted(text.value)))) else None)
    else if isInput then
      (if args.Some? then Some(FastChunk(c, c.model, ToolArgsChoice(ToolIndex(c), Unquoted(args.value)))) else None)
    else if isThinking then
      (if thinking.Some? then Some(FastChunk(c, c.model, ReasoningChoice(Unquoted(thinking.value)))) else None)
    else None
  }

  function FastBlockDelta(data: Bytes, c: Context): Option<Bytes> {
    FastDelta(c, Contains(data, TypeIs("text_delta")), Contains(data, TypeIs("input_json_delta")),
              Contains(data, TypeIs("thinking_delta")),
              Extracted(data, Key("text")), Extracted(data, Key("partial_json")), Extracted(data, Key("thinking")))
  }

  function FastMessageDelta(data: Bytes, c: Context): Option<Bytes> {
    match Extracted(data, Key("stop_reason"))
    case Some(q) => Some(FastChunk(c, c.model, FinishChoice(Unquoted(StopReasonQuoted(q)))))
    case None => None
  }

  /** `appendOpenAIChunkFastWithHint`, on bytes. */
  function Fast(event: Bytes, data: Bytes, c: Context): Option<Bytes> {
    if event == "message_start" then FastMessageStart(data, c)
    else if event == "content_block_start" then FastBlockStart(data, c)
    else if event == "content_block_delta" then FastBlockDelta(data, c)
    else if event == "message_delta" then FastMessageDelta(data, c)
    else None
  }

  // ---------------------------------------------------------------------------- slow path

  /** The member a struct field is filled from; the last one wins. */
  function Lookup(f: Fields, k: Bytes): Option<Json> {
    match f
    case NoField => None
    case Field(key, v, rest) =>
      var later := Lookup(rest, k);
      if later.Some? then later else if key == k then Some(v) else None
  }

  /** A string member: None when it has another type (unmarshalling fails), Some(None) when absent. */
  function StringMember(f: Fields, k: Bytes): Option<Option<Bytes>> {
    match Lookup(f, k)
    case None => Some(None)
    case Some(Str(t)) => Some(Some(t))
    case _ => None
  }

  /** The object member `k` of a payload. */
  function ObjectMember(data: Bytes, k: Bytes): Option<Fields> {
    match Unmarshal(data)
    case Some(Obj(f)) => (match Lookup(f, k) case Some(Obj(g)) => Some(g) case _ => None)
    case _ => None
  }

  function StopReason(reason: Bytes): Bytes {
    var r := TrimSpace(reason);
    if r == "" || r == "stop" || r == "end_turn" then "stop"
    else if r == "tool_use" then "tool_calls"
    else if r == "max_tokens" then "length"
    else if r == "refusal" then "content_filter"
    else r
  }

  function SlowMessageStart(data: Bytes): Option<(Bytes, Fields)> {
    match ObjectMember(data, "message")
    case None => None
    case Some(f) =>
      match StringMember(f, "model")
      case None => None
      case Some(m) => Some((if m.Some? then m.value else "", RoleChoice()))
  }

  function StartChoice(c: Context, kind: Bytes, text: Option<Bytes>, id: Option<Bytes>, name: Option<Bytes>): Option<(Bytes, Fields)> {
    if kind == "text" then
      if text.Some? && text.value != "" then Some((c.model, ContentChoice(text.value))) else None
    else if kind == "tool_use" then
      Some((c.model, ToolStartChoice(ToolIndex(c), if id.Some? && id.value != "" then id else None,
                                     if name.Some? then name.value else "")))
    else None
  }

  function SlowBlockStart(data: Bytes, c: Context): Option<(Bytes, Fields)> {
    match ObjectMember(data, "content_block")
    case None => None
    case Some(f) =>
      match (StringMember(f, "type"), StringMember(f, "text"), StringMember(f, "id"), StringMember(f, "name"))
      case (Some(Some(kind)), Some(text), Some(id), Some(name)) => StartChoice(c, kind, text, id, name)
      case _ => None
  }

  function DeltaChoice(c: Context, kind: Bytes, text: Option<Bytes>, args: Option<Bytes>, thinking: Option<Bytes>): Option<(Bytes, Fields)> {
    if kind == "text_delta" && text.Some? then Some((c.model, ContentChoice(text.value)))
    else if kind == "input_json_delta" && args.Some? then Some((c.model, ToolArgsChoice(ToolIndex(c), args.value)))
    else if kind == "thinking_delta" && thinking.Some? then Some((c.model, ReasoningChoice(thinking.value)))
    else None
  }

  function SlowBlockDelta(data: Bytes, c: Context): Option<(Bytes, Fields)> {
    match ObjectMember(data, "delta")
    case None => None
    case Some(f) =>
      match (StringMember(f, "type"), StringMember(f, "text"), StringMember(f, "partial_json"), StringMember(f, "thinking"))
      case (Some(Some(kind)), Some(text), Some(args), Some(thinking)) => DeltaChoice(c, kind, text, args, thinking)
      case _ => None
  }

  function SlowMessageDelta(data: Bytes, c: Context): Option<(Bytes, Fields)> {
    match ObjectMember(data, "delta")
    case None => None
    case Some(f) =>
      match StringMember(f, "stop_reason")
      case Some(Some(r)) => Some((c.model, FinishChoice(StopReason(r))))
      case _ => None
  }

  /** The model and the choice that `buildOpenAIChunkSlowWithHint` fills in. */
  function SlowChoice(event: Bytes, data: Bytes, c: Context): Option<(Bytes, Fields)> {
    if event == "message_start" then SlowMessageStart(data)
    else if event == "content_block_start" then SlowBlockStart(data, c)
    else if event == "content_block_delta" then SlowBlockDelta(data, c)
    else if event == "message_delta" then SlowMessageDelta(data, c)
    else None
  }

  /** The chunk `buildOpenAIChunkSlowWithHint` marshals. */
  function Slow(event: Bytes, data: Bytes, c: Context): Option<Json> {
    match SlowChoice(event, data, c)
    case None => None
    case Some((model, choice)) =>
      Some(Chunk(c.msgID, c.created, model, choice))
  }

  // ------------------------------------------------------------------------ specification

  /** The choice an event stands for; None when it has no OpenAI counterpart. */
  function ChoiceOf(e: Event, c: Context): Option<Fields> {
    match e
    case MessageStart(_, _, _, _) => Some(RoleChoice())
    case MessageStartNoUsage(_, _) => Some(RoleChoice())
    case StartToolUse(_, id, name) => Some(ToolStartChoice(ToolIndex(c), Some(id), name))
    case DeltaText(_, t) => Some(ContentChoice(t))
    case DeltaThinking(_, t) => Some(ReasoningChoice(t))
    case DeltaInput(_, p) => Some(ToolArgsChoice(ToolIndex(c), p))
    case MessageDelta(s, _) => Some(FinishChoice(StopReason(s)))
    case _ => None
  }

  predicate IsMessageStart(e: Event) { e.MessageStart? || e.MessageStartNoUsage? }

  /** The chunk an event stands for. */
  function ChunkOf(e: Event, c: Context): Option<Json> {
    match ChoiceOf(e, c)
    case None => None
    case Some(choice) =>
      Some(Chunk(c.msgID, c.created, if IsMessageStart(e) then e.model else c.model, choice))
  }
}
