/** The Anthropic-style stream events and the JSON payloads sse_frame.go prints for them. */
module SseEvent {
  import opened Bytes
  import opened JsonString
  import opened JsonTree
  import opened MarkerSearch

  datatype Event =
    | MessageStart(msgID: Bytes, model: Bytes, inputTokens: int, outputTokens: int)
    | MessageStartNoUsage(msgID: Bytes, model: Bytes)
    | StartText(index: int)
    | StartThinking(index: int, signature: Bytes)
    | StartToolUse(index: int, id: Bytes, name: Bytes)
    | DeltaText(index: int, text: Bytes)
    | DeltaThinking(index: int, thinking: Bytes)
    | DeltaInput(index: int, partialJSON: Bytes)
    | Stop(index: int)
    | MessageDelta(stopReason: Bytes, outputTokens: int)
    | MessageStop

  /** The event name of the frame. */
  function EventName(e: Event): Bytes {
    match e
    case MessageStart(_, _, _, _) => "message_start"
    case MessageStartNoUsage(_, _) => "message_start"
    case StartText(_) => "content_block_start"
    case StartThinking(_, _) => "content_block_start"
    case StartToolUse(_, _, _) => "content_block_start"
    case DeltaText(_, _) => "content_block_delta"
    case DeltaThinking(_, _) => "content_block_delta"
    case DeltaInput(_, _) => "content_block_delta"
    case Stop(_) => "content_block_stop"
    case MessageDelta(_, _) => "message_delta"
    case MessageStop => "message_stop"
  }

  /** Every string the event carries is UTF-8. */
  predicate Valid(e: Event) {
    match e
    case MessageStart(i, m, _, _) => ValidUtf8(i) && ValidUtf8(m)
    case MessageStartNoUsage(i, m) => ValidUtf8(i) && ValidUtf8(m)
    case StartThinking(_, s) => ValidUtf8(s)
    case StartToolUse(_, i, n) => ValidUtf8(i) && ValidUtf8(n)
    case DeltaText(_, t) => ValidUtf8(t)
    case DeltaThinking(_, t) => ValidUtf8(t)
    case DeltaInput(_, p) => ValidUtf8(p)
    case MessageDelta(s, _) => ValidUtf8(s)
    case _ => true
  }

  // --------------------------------------------------------------- small trees, by shape

  function One(k: Bytes, v: Json): Json { Obj(Field(k, v, NoField)) }

  function Two(k: Bytes, v: Json, k2: Bytes, v2: Json): Json { Obj(Field(k, v, Field(k2, v2, NoField))) }

  function Typed(name: Bytes, rest: Fields): Json { Obj(Field("type", Str(name), rest)) }

  function Indexed(name: Bytes, index: int, rest: Fields): Json {
    Typed(name, Field("index", Num(Decimal(index)), rest))
  }

  function MessageHead(msgID: Bytes, model: Bytes, rest: Fields): Json {
    Typed("message_start", Field("message", Obj(
      Field("id", Str(msgID), Field("type", Str("message"), Field("role", Str("assistant"),
      Field("content", Arr(NoItem), Field("model", Str(model), rest)))))), NoField))
  }

  function Tokens(inputTokens: int, outputTokens: int): Fields {
    Field("usage", Two("input_tokens", Num(Decimal(inputTokens)), "output_tokens", Num(Decimal(outputTokens))), NoField)
  }

  /** The payload: the printers' templates, member by member, in order. */
  function Payload(e: Event): Json {
    match e
    case MessageStart(i, m, inTok, outTok) => MessageHead(i, m, Tokens(inTok, outTok))
    case MessageStartNoUsage(i, m) => MessageHead(i, m, NoField)
    case StartText(x) => Block(x, "text", Field("text", Str(""), NoField))
    case StartThinking(x, s) => Block(x, "thinking", Field("thinking", Str(""), Field("signature", Str(s), NoField)))
    case StartToolUse(x, i, n) =>
      Block(x, "tool_use", Field("id", Str(i), Field("name", Str(n), Field("input", Obj(NoField), NoField))))
    case DeltaText(x, t) => Delta(x, "text_delta", Field("text", Str(t), NoField))
    case DeltaThinking(x, t) => Delta(x, "thinking_delta", Field("thinking", Str(t), NoField))
    case DeltaInput(x, p) => Delta(x, "input_json_delta", Field("partial_json", Str(p), NoField))
    case Stop(x) => Indexed("content_block_stop", x, NoField)
    case MessageDelta(s, outTok) =>
      Typed("message_delta", Field("delta", One("stop_reason", Str(s)),
        Field("usage", One("output_tokens", Num(Decimal(outTok))), NoField)))
    case MessageStop => Typed("message_stop", NoField)
  }

  function Block(index: int, kind: Bytes, rest: Fields): Json {
    Indexed("content_block_start", index, Field("content_block", Typed(kind, rest), NoField))
  }

  function Delta(index: int, kind: Bytes, rest: Fields): Json {
    Indexed("content_block_delta", index, Field("delta", Typed(kind, rest), NoField))
  }

  /** The event with the text between the quotes in place of each string. */
  function Encoded(e: Event): Event
    requires Valid(e)
  {
    match e
    case MessageStart(i, m, x, y) => MessageStart(Encode(i), Encode(m), x, y)
    case MessageStartNoUsage(i, m) => MessageStartNoUsage(Encode(i), Encode(m))
    case StartThinking(x, s) => StartThinking(x, Encode(s))
    case StartToolUse(x, i, n) => StartToolUse(x, Encode(i), Encode(n))
    case DeltaText(x, t) => DeltaText(x, Encode(t))
    case DeltaThinking(x, t) => DeltaThinking(x, Encode(t))
    case DeltaInput(x, p) => DeltaInput(x, Encode(p))
    case MessageDelta(s, x) => MessageDelta(Encode(s), x)
    case _ => e
  }

  /** The bytes printed for the event. */
  function Data(e: Event): Bytes
    requires Valid(e)
  {
    Print(Payload(Encoded(e)), [])
  }
}
