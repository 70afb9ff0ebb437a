/** What streamHandler does with upstream `model.*` events, as functions on its state. */
module HandlerSpec {
  import opened Bytes
  import opened SseEvent

  // ------------------------------------------------------------------------------ the state

  datatype Call = Call(id: Bytes, name: Bytes, input: Bytes)

  /** A JSON value, of which only the empty object is told apart from the others. */
  datatype Value = EmptyObject | OtherValue(identity: int)

  /** One entry of `contentBlocks`, with the text of its builder. */
  datatype Block =
    | TextBlock(text: Bytes)
    | ThinkingBlock(signature: Bytes, text: Bytes)
    | ToolBlock(id: Bytes, name: Bytes, input: Value)

  /** The open text or thinking block: its stream index and its position in `contentBlocks`. */
  datatype Active = NoBlock | ActiveText(index: int, block: nat) | ActiveThinking(index: int, block: nat)

  /** What a request fixes. The functions stand for text heuristics and JSON reading:
      `introKey` recognises greetings ("" for none), `collapse` removes a doubled one, `rewrite` renames tools and
      paths, `allowed` and `sandboxed` judge a call, `evaluate` rejects a malformed call or gives its dedup key
      ("" for none), `parse` is `json.Unmarshal`, `tokens` counts. */
  datatype Env = Env(
    isStream: bool, suppressThinking: bool, disallowTools: bool,
    introKey: Bytes -> Bytes, collapse: Bytes -> Bytes, rewrite: (Bytes, Bytes) -> (Bytes, Bytes),
    allowed: (Bytes, Bytes) -> bool, sandboxed: (Bytes, Bytes) -> bool, evaluate: (Bytes, Bytes) -> Option<Bytes>,
    parse: Bytes -> Option<Value>, tokens: Bytes -> int)

  /** What was written, and the block fields. */
  datatype Out = Out(
    trace: seq<Event>, hasReturn: bool, stopReason: Bytes,
    blockIndex: int, active: Active, pendingSig: Bytes, blocks: seq<Block>)

  /** What is remembered about text deltas. */
  datatype Memory = Memory(
    responseText: Bytes, hasTextOutput: bool, lastDelta: Bytes, lastSource: Bytes, lastAt: int, introSeen: set<Bytes>)

  /** The tool-call fields, and the dedup keys accepted over the whole response. */
  datatype Tools = Tools(
    names: map<Bytes, Bytes>, buffers: map<Bytes, Bytes>, handled: set<Bytes>, emitted: set<Bytes>,
    count: nat, pending: seq<Call>, dedup: set<Bytes>, seeds: set<Bytes>, acceptedKeys: seq<Bytes>)

  /** Token accounting: whether upstream reported usage, the estimator's text, and the output count. */
  datatype Usage = Usage(upstream: bool, text: Bytes, tokens: int)

  /** The handler's fields, by concern. */
  datatype State = State(out: Out, memory: Memory, tools: Tools, usage: Usage)

  /** An upstream event, with the members the handler reads. `source` is the event key of a text delta and
      `now` the clock in milliseconds. `usage` is the output token count, negative when only input was given. */
  datatype Input =
    | ReasoningStart(sig: Bytes)
    | ReasoningDelta(sig: Bytes, delta: Bytes)
    | ReasoningEnd
    | TextStart
    | TextDelta(delta: Bytes, source: Bytes, now: int)
    | TextEnd
    | ToolInputStart(id: Bytes, name: Bytes)
    | ToolInputDelta(id: Bytes, delta: Bytes)
    | ToolInputEnd(id: Bytes)
    | ToolCall(id: Bytes, name: Bytes, input: Bytes)
    | TokensUsed(usage: Option<int>)
    | Finish(reason: Bytes, usage: Option<int>)
    | Other

  /** `newStreamHandler`, after the dedup seeding. */
  function Initial(seeds: set<Bytes>): State {
    State(Out([], false, "", -1, NoBlock, "", []), Memory("", false, "", "", 0, {}),
          Tools(map[], map[], {}, {}, 0, [], seeds, seeds, []), Usage(false, "", 0))
  }

  // -------------------------------------------------------------------------------- writing

  /** A write that is dropped once the response is finished. */
  function Emit(env: Env, o: Out, e: Event): Out {
    if env.isStream && !o.hasReturn then o.(trace := o.trace + [e]) else o
  }

  /** A final write. */
  function EmitFinal(env: Env, o: Out, e: Event): Out {
    if env.isStream then o.(trace := o.trace + [e]) else o
  }

  /** `addOutputTokens`. */
  function AddOutput(u: Usage, text: Bytes): Usage {
    if u.upstream then u else u.(text := u.text + text)
  }

  // --------------------------------------------------------------------------------- blocks

  /** `closeActiveBlockLocked`. */
  function CloseActive(env: Env, o: Out): Out {
    if o.active.NoBlock? then o else Emit(env, o.(active := NoBlock), Stop(o.active.index))
  }

  function OpenText(env: Env, o: Out): Out {
    var i := o.blockIndex + 1;
    Emit(env, o.(blockIndex := i, active := ActiveText(i, |o.blocks|), blocks := o.blocks + [TextBlock("")]), StartText(i))
  }

  /** `ensureBlock("text")`. */
  function EnsureText(env: Env, o: Out): Out {
    if o.active.ActiveText? then o else OpenText(env, CloseActive(env, o))
  }

  function OpenThinking(env: Env, o: Out): Out {
    var i := o.blockIndex + 1;
    Emit(env, o.(blockIndex := i, pendingSig := "", active := ActiveThinking(i, |o.blocks|),
                 blocks := o.blocks + [ThinkingBlock(o.pendingSig, "")]), StartThinking(i, o.pendingSig))
  }

  /** `ensureBlock("thinking")`. */
  function EnsureThinking(env: Env, o: Out): Out {
    if env.suppressThinking || o.active.ActiveThinking? then o else OpenThinking(env, CloseActive(env, o))
  }

  /** Appending to the builder of block `k`. */
  function AppendText(o: Out, k: nat, text: Bytes): Out {
    if k < |o.blocks| && !o.blocks[k].ToolBlock? then
      o.(blocks := o.blocks[k := o.blocks[k].(text := o.blocks[k].text + text)])
    else o
  }

  /** A signature that arrives late fills the open thinking block's empty one. */
  function FillSignature(o: Out, sig: Bytes): Out {
    if o.active.ActiveThinking? && o.active.block < |o.blocks| && o.blocks[o.active.block].ThinkingBlock?
       && o.blocks[o.active.block].signature == "" then
      o.(blocks := o.blocks[o.active.block := o.blocks[o.active.block].(signature := sig)])
    else o
  }

  // ----------------------------------------------------------------------------------- text

  /** `shouldSkipIntroDelta`. */
  function SkipIntro(env: Env, m: Memory, delta: Bytes): (bool, Memory) {
    var key := env.introKey(delta);
    if key == "" then (false, m) else (key in m.introSeen, m.(introSeen := m.introSeen + {key}))
  }

  /** `shouldSkipCrossChannelDuplicateDelta`. */
  function SkipDuplicate(m: Memory, delta: Bytes, source: Bytes, now: int): (bool, Memory) {
    if TrimSpace(delta) == "" || source == "" then (false, m)
    else
      (m.lastDelta == delta && m.lastSource != "" && m.lastSource != source && now - m.lastAt <= 2000,
       m.(lastDelta := delta, lastSource := source, lastAt := now))
  }

  /** Whether a text delta is dropped, and what is remembered of it. */
  function SkipText(env: Env, m: Memory, delta: Bytes, source: Bytes, now: int): (bool, Memory) {
    var (intro, m1) := SkipIntro(env, m, delta);
    if intro then (true, m1) else SkipDuplicate(m1, delta, source, now)
  }

  /** The open text block gets the delta, in its builder and on the wire. */
  function WriteText(env: Env, o: Out, delta: Bytes): Out {
    var t := EnsureText(env, o);
    Emit(env, AppendText(t, t.active.block, delta), DeltaText(t.active.index, delta))
  }

  function OnTextDelta(env: Env, s: State, delta: Bytes, source: Bytes, now: int): State {
    if delta == "" then s
    else
      var d := env.collapse(delta);
      var (skip, m) := SkipText(env, s.memory, d, source, now);
      if skip then s.(memory := m)
      else
        s.(out := WriteText(env, s.out, d),
           memory := m.(hasTextOutput := true, responseText := if env.isStream then m.responseText else m.responseText + d),
           usage := AddOutput(s.usage, d))
  }

  // ------------------------------------------------------------------------------- thinking

  function OnReasoningStart(env: Env, o: Out, sig: Bytes): Out {
    if sig == "" then o.(pendingSig := "") else EnsureThinking(env, o.(pendingSig := sig))
  }

  function WriteThinking(env: Env, o: Out, delta: Bytes): Out {
    var t := EnsureThinking(env, o);
    if !t.active.ActiveThinking? then t
    else Emit(env, AppendText(t, t.active.block, delta), DeltaThinking(t.active.index, delta))
  }

  /** The signature in force for a reasoning delta. */
  function Signature(o: Out, sig: Bytes): Bytes { if o.pendingSig != "" then o.pendingSig else sig }

  function ReasoningDeltaOut(env: Env, o: Out, sig0: Bytes, delta: Bytes): Out {
    var sig := Signature(o, sig0);
    var t := o.(pendingSig := sig);
    if delta == "" then (if sig != "" then FillSignature(EnsureThinking(env, t), sig) else t)
    else WriteThinking(env, if sig != "" then FillSignature(t, sig) else t, delta)
  }

  function OnReasoningDelta(env: Env, s: State, sig: Bytes, delta: Bytes): State {
    s.(out := ReasoningDeltaOut(env, s.out, sig, delta),
       usage := if delta != "" && env.isStream && !s.usage.upstream then
                  s.usage.(tokens := s.usage.tokens + env.tokens(delta))
                else s.usage)
  }

  // ---------------------------------------------------------------------------------- tools

  /** `shouldAcceptToolCall`: the decision and the fields with the call's dedup key recorded. */
  function Accept(env: Env, t: Tools, name: Bytes, input: Bytes): (bool, Tools) {
    if env.disallowTools || !env.allowed(name, input) || env.sandboxed(name, input) then (false, t)
    else
      match env.evaluate(name, input)
      case None => (false, t)
      case Some(key) =>
        if key == "" then (true, t)
        else if key in t.dedup then (false, t)
        else (true, t.(dedup := t.dedup + {key}, seeds := t.seeds + {key}, acceptedKeys := t.acceptedKeys + [key]))
  }

  /** The input as written: trimmed, `{}` when blank. */
  function InputJSON(input: Bytes): Bytes {
    if TrimSpace(input) == "" then "{}" else TrimSpace(input)
  }

  /** The value stored for an input: the empty object when it does not parse. */
  function ValueOf(env: Env, text: Bytes): Value {
    match env.parse(text)
    case Some(v) => v
    case None => EmptyObject
  }

  /** A call as an entry of `contentBlocks`. */
  function AsBlock(env: Env, call: Call): Block { ToolBlock(call.id, call.name, ValueOf(env, InputJSON(call.input))) }

  /** The three events of a tool block. */
  function ToolEvents(i: int, call: Call): seq<Event> {
    [StartToolUse(i, call.id, call.name), DeltaInput(i, InputJSON(call.input)), Stop(i)]
  }

  /** A tool block under the next index. */
  function EmitTool(env: Env, o: Out, call: Call): Out {
    var i := o.blockIndex + 1;
    var n := o.(blockIndex := i);
    if env.isStream && !o.hasReturn then n.(trace := n.trace + ToolEvents(i, call)) else n
  }

  /** `emitToolUseFromInput`. */
  function EmitToolUse(env: Env, s: State, call: Call): State {
    if call.id == "" || call.name == "" || call.id in s.tools.emitted then s
    else
      s.(out := EmitTool(env, s.out, call),
         tools := s.tools.(emitted := s.tools.emitted + {call.id}, count := s.tools.count + 1),
         usage := AddOutput(s.usage, call.name))
  }

  /** An accepted call: written at once when streaming, queued otherwise. */
  function TakeCall(env: Env, s: State, call: Call): State {
    var t := s.tools.(handled := s.tools.handled + {call.id});
    if env.isStream then EmitToolUse(env, s.(tools := t), call)
    else s.(tools := t.(pending := t.pending + [call], count := t.count + 1))
  }

  function ForgetInput(t: Tools, id: Bytes): Tools {
    t.(buffers := t.buffers - {id}, names := t.names - {id})
  }

  function OnToolInputStart(env: Env, s: State, id: Bytes, name: Bytes): State {
    var n := TrimSpace(name);
    var t := s.tools;
    s.(out := CloseActive(env, s.out),
       tools := if id == "" || n == "" then t else t.(names := t.names[id := n], buffers := t.buffers[id := ""]))
  }

  function OnToolInputDelta(t: Tools, id: Bytes, delta: Bytes): Tools {
    if id != "" && id in t.buffers then t.(buffers := t.buffers[id := t.buffers[id] + delta]) else t
  }

  /** The buffered input of a tool call. */
  function Buffered(t: Tools, id: Bytes): Bytes { if id in t.buffers then TrimSpace(t.buffers[id]) else "" }

  function OnToolInputEnd(env: Env, s: State, id: Bytes): State {
    if id == "" then s
    else
      var t := ForgetInput(s.tools, id);
      if id !in s.tools.names || s.tools.names[id] == "" || id in s.tools.handled then s.(tools := t)
      else
        var (name, input) := env.rewrite(s.tools.names[id], Buffered(s.tools, id));
        var (ok, u) := Accept(env, t, name, input);
        if !ok then s.(tools := u)
        else TakeCall(env, s.(tools := u, usage := if env.isStream then AddOutput(s.usage, input) else s.usage), Call(id, name, input))
  }

  function OnToolCall(env: Env, s: State, id: Bytes, name0: Bytes, input0: Bytes): State {
    var (name, input) := env.rewrite(name0, input0);
    if id == "" || id in s.tools.handled then s
    else
      var (ok, t) := Accept(env, s.tools, name, input);
      if !ok then s.(tools := t) else TakeCall(env, s.(tools := ForgetInput(t, id)), Call(id, name, input))
  }

  // ------------------------------------------------------------------------------ finishing

  function HasToolCalls(t: Tools): bool { t.count > 0 || t.pending != [] || t.emitted != {} }

  /** One pending call, written or appended. */
  function FlushOne(env: Env, o: Out, call: Call): Out {
    if !env.isStream then o.(blocks := o.blocks + [AsBlock(env, call)])
    else if call.id == "" then o
    else o.(blockIndex := o.blockIndex + 1, trace := o.trace + ToolEvents(o.blockIndex + 1, call))
  }

  /** `flushPendingToolCalls`. */
  function FlushOut(env: Env, o: Out, calls: seq<Call>): Out
    decreases |calls|
  {
    if calls == [] then o else FlushOut(env, FlushOne(env, o, calls[0]), calls[1..])
  }

  function CountCall(env: Env, u: Usage, call: Call): Usage {
    if env.isStream && call.id == "" then u else AddOutput(AddOutput(u, call.name), call.input)
  }

  function FlushUsage(env: Env, u: Usage, calls: seq<Call>): Usage
    decreases |calls|
  {
    if calls == [] then u else FlushUsage(env, CountCall(env, u, calls[0]), calls[1..])
  }

  /** `finalizeOutputTokens`. */
  function CountTokens(env: Env, u: Usage): Usage {
    if u.upstream then u else u.(tokens := env.tokens(u.text))
  }

  /** The final stop of an open block. */
  function StopOpen(env: Env, o: Out): Out {
    if env.isStream && !o.active.NoBlock? then EmitFinal(env, o.(active := NoBlock), Stop(o.active.index)) else o
  }

  /** The closing pair of events. */
  function Close(env: Env, o: Out, reason: Bytes, tokens: int): Out {
    EmitFinal(env, EmitFinal(env, o, MessageDelta(reason, tokens)), MessageStop)
  }

  /** `finishResponse`. */
  function FinishResponse(env: Env, s: State, reason: Bytes): State {
    var stop := if reason == "tool_use" && !HasToolCalls(s.tools) then "end_turn" else reason;
    if s.out.hasReturn then s
    else
      var calls := s.tools.pending;
      var u := CountTokens(env, FlushUsage(env, s.usage, calls));
      s.(out := Close(env, FlushOut(env, StopOpen(env, s.out.(hasReturn := true, stopReason := stop)), calls), stop, u.tokens),
         tools := s.tools.(pending := []), usage := u)
  }

  /** `setUsageTokens`. */
  function SetUsage(u: Usage, count: Option<int>): Usage {
    if count.None? then u
    else u.(upstream := true, tokens := if count.value >= 0 then count.value else u.tokens)
  }

  /** The stop reason `model.finish` asks for. */
  function AskedReason(t: Tools, reason: Bytes): Bytes {
    var stop := if t.emitted != {} || reason == "tool-calls" || reason == "tool_use" then "tool_use" else "end_turn";
    if stop == "tool_use" && !HasToolCalls(t) then "end_turn" else stop
  }

  function OnFinish(env: Env, s: State, reason: Bytes, count: Option<int>): State {
    FinishResponse(env, s.(out := CloseActive(env, s.out), usage := SetUsage(s.usage, count)), AskedReason(s.tools, reason))
  }

  /** `forceFinishIfMissing`. */
  function ForceFinish(env: Env, s: State): State {
    if s.out.hasReturn then s else FinishResponse(env, s, if HasToolCalls(s.tools) then "tool_use" else "end_turn")
  }

  // -------------------------------------------------------------------------- whole attempts

  /** `handleMessage`. */
  function Handle(env: Env, s: State, m: Input): State {
    if s.out.hasReturn then s
    else if env.suppressThinking && (m.ReasoningStart? || m.ReasoningDelta? || m.ReasoningEnd?) then s
    else
      match m
      case ReasoningStart(sig) => s.(out := OnReasoningStart(env, s.out, sig))
      case ReasoningDelta(sig, delta) => OnReasoningDelta(env, s, sig, delta)
      case ReasoningEnd => s.(out := CloseActive(env, s.out))
      case TextStart => s.(out := EnsureText(env, s.out))
      case TextDelta(delta, source, now) => OnTextDelta(env, s, delta, source, now)
      case TextEnd => s.(out := CloseActive(env, s.out))
      case ToolInputStart(id, name) => OnToolInputStart(env, s, id, name)
      case ToolInputDelta(id, delta) => s.(tools := OnToolInputDelta(s.tools, id, delta))
      case ToolInputEnd(id) => OnToolInputEnd(env, s, id)
      case ToolCall(id, name, input) => OnToolCall(env, s, id, name, input)
      case TokensUsed(count) => s.(usage := SetUsage(s.usage, count))
      case Finish(reason, count) => OnFinish(env, s, reason, count)
      case Other => s
  }

  function Deliver(env: Env, s: State, ms: seq<Input>): State {
    if ms == [] then s else Handle(env, Deliver(env, s, ms[..|ms| - 1]), ms[|ms| - 1])
  }

  /** `resetRoundState`. */
  function Reset(env: Env, s: State): State {
    State(CloseActive(env, s.out).(active := NoBlock, hasReturn := false, stopReason := "", blocks := []),
          Memory("", false, "", "", 0, s.memory.introSeen),
          Tools(map[], map[], {}, {}, 0, [], s.tools.seeds, s.tools.seeds, s.tools.acceptedKeys),
          Usage(false, "", 0))
  }

  /** `hasAnyOutput`. */
  function HasAnyOutput(s: State): bool {
    || s.memory.hasTextOutput || HasToolCalls(s.tools) || s.out.blocks != []
    || s.memory.responseText != "" || s.usage.text != ""
  }

  /** `InjectErrorText`: the error goes to the client or to the builder, never both. */
  function InjectOut(env: Env, o: Out, text: Bytes): Out {
    var t := EnsureText(env, o);
    if env.isStream then Emit(env, t, DeltaText(t.active.index, text)) else AppendText(t, t.active.block, text)
  }

  function Inject(env: Env, s: State, text: Bytes): State {
    s.(out := InjectOut(env, s.out, text), memory := s.memory.(hasTextOutput := true))
  }

  // -------------------------------------------------------------------------------- the run

  /** What an upstream error means for the retry loop of `HandleMessages`: its class, the texts the loop would
      inject, whether the client has gone, what account switching found, and whether the delay was cut short. */
  datatype Failure = Failure(
    category: Bytes, retryable: bool, clientGone: bool, noAccount: Option<Bytes>, interrupted: bool,
    upstreamText: Bytes, authText: Bytes, exhaustedText: Bytes)

  datatype Result = Success | Failed(failure: Failure)

  /** One call of the upstream client: the events it delivered and what it returned. */
  datatype Attempt = Attempt(events: seq<Input>, result: Result)

  datatype Verdict = Retry | GiveUp(text: Option<Bytes>)

  predicate IsAuth(category: Bytes) { category == "auth" || category == "auth_blocked" }

  /** The branches after a failure without output (handler.go:1197-1295). */
  function Decide(f: Failure, retries: nat): Verdict {
    if !f.retryable then
      GiveUp(if IsAuth(f.category) then Some(f.authText) else if f.category != "canceled" then Some(f.upstreamText) else None)
    else if f.clientGone then GiveUp(None)
    else if retries == 0 then GiveUp(Some(if IsAuth(f.category) then f.authText else f.exhaustedText))
    else if f.noAccount.Some? then GiveUp(f.noAccount)
    else if f.interrupted then GiveUp(None)
    else Retry
  }

  function EndWith(env: Env, s: State, text: Option<Bytes>): State {
    FinishResponse(env, if text.Some? then Inject(env, s, text.value) else s, "end_turn")
  }

  /** The retry loop from one attempt on. */
  function RunFrom(env: Env, s: State, attempts: seq<Attempt>, retries: nat): State
    requires |attempts| > retries
    decreases retries
  {
    var t := Deliver(env, Reset(env, s), attempts[0].events);
    match attempts[0].result
    case Success => ForceFinish(env, t)
    case Failed(f) =>
      if HasAnyOutput(t) then EndWith(env, t, Some(f.upstreamText))
      else
        match Decide(f, retries)
        case GiveUp(text) => EndWith(env, t, text)
        case Retry => RunFrom(env, t, attempts[1..], retries - 1)
  }

  /** The handler once message_start is written. */
  function Opened(env: Env, start: Event, seeds: set<Bytes>): State {
    var s := Initial(seeds);
    s.(out := Emit(env, s.out, start))
  }

  /** The whole response: message_start, the retry loop, and the closing check. */
  function Run(env: Env, start: Event, seeds: set<Bytes>, attempts: seq<Attempt>, retries: nat): State
    requires |attempts| > retries
  {
    var s := RunFrom(env, Opened(env, start, seeds), attempts, retries);
    if s.out.hasReturn then s else FinishResponse(env, s, "end_turn")
  }
}
