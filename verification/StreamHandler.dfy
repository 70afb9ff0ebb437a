/** The stream handler as the object it is: fields updated in place, method by method, each method proved against
    the function of HandlerSpec it computes. The fields are grouped by concern into four objects. */
module StreamHandler {
  import opened Bytes
  import opened SseEvent
  import opened StreamTrace
  import opened HandlerSpec
  import opened HandlerRuns

  datatype BlockType = NoType | TextType | ThinkingType

  /** What was written, and the block fields. */
  class Blocks {
    const env: Env
    /** What was written to the client. */
    ghost var trace: seq<Event>
    var hasReturn: bool
    var finalStopReason: Bytes
    var blockIndex: int
    var activeBlockType: BlockType
    var activeTextBlockIndex: int
    var activeTextSSEIndex: int
    var activeThinkingBlockIndex: int
    var activeThinkingSSEIndex: int
    var pendingThinkingSig: Bytes
    var contentBlocks: seq<Block>

    ghost function ActiveOf(): Active
      reads this
    {
      if activeBlockType == TextType && activeTextBlockIndex >= 0 then ActiveText(activeTextSSEIndex, activeTextBlockIndex)
      else if activeBlockType == ThinkingType && activeThinkingBlockIndex >= 0 then ActiveThinking(activeThinkingSSEIndex, activeThinkingBlockIndex)
      else NoBlock
    }

    ghost function Abs(): Out
      reads this
    {
      Out(trace, hasReturn, finalStopReason, blockIndex, ActiveOf(), pendingThinkingSig, contentBlocks)
    }

    /** An index is set exactly while its block is the active one. */
    ghost predicate Valid()
      reads this
    {
      && blockIndex >= -1
      && (activeTextSSEIndex >= 0, activeTextBlockIndex >= 0) == (activeBlockType == TextType, activeBlockType == TextType)
      && (activeThinkingSSEIndex >= 0, activeThinkingBlockIndex >= 0) == (activeBlockType == ThinkingType, activeBlockType == ThinkingType)
    }

    constructor (env: Env)
      ensures Valid() && this.env == env && Abs() == Out([], false, "", -1, NoBlock, "", [])
    {
      this.env := env;
      trace, hasReturn, finalStopReason := [], false, "";
      blockIndex, activeBlockType, pendingThinkingSig, contentBlocks := -1, NoType, "", [];
      activeTextBlockIndex, activeTextSSEIndex, activeThinkingBlockIndex, activeThinkingSSEIndex := -1, -1, -1, -1;
    }

    // ---------------------------------------------------------------------------- writing

    method WriteSSE(e: Event)
      modifies `trace
      ensures Abs() == Emit(env, old(Abs()), e)
    {
      if env.isStream && !hasReturn { trace := trace + [e]; }
    }

    method WriteFinalSSE(e: Event)
      modifies `trace
      ensures Abs() == EmitFinal(env, old(Abs()), e)
    {
      if env.isStream { trace := trace + [e]; }
    }

    // ----------------------------------------------------------------------------- blocks

    /** Forgets the active block, and says which stop it is owed. */
    method PopActiveBlock() returns (stop: Option<int>)
      requires Valid()
      modifies this
      ensures Valid() && Abs() == old(Abs()).(active := NoBlock)
      ensures stop == if old(ActiveOf()).NoBlock? then None else Some(old(ActiveOf()).index)
    {
      if activeBlockType == NoType { return None; }
      if activeBlockType == ThinkingType {
        stop := Some(activeThinkingSSEIndex);
        activeThinkingBlockIndex, activeThinkingSSEIndex := -1, -1;
      } else {
        stop := Some(activeTextSSEIndex);
        activeTextBlockIndex, activeTextSSEIndex := -1, -1;
      }
      activeBlockType := NoType;
    }

    method CloseActiveBlock()
      requires Valid()
      modifies this
      ensures Valid() && Abs() == CloseActive(env, old(Abs()))
    {
      var stop := PopActiveBlock();
      if stop.Some? { WriteSSE(Stop(stop.value)); }
    }

    method EnsureTextBlock() returns (sseIdx: int)
      requires Valid()
      modifies this
      ensures Valid() && Abs() == EnsureText(env, old(Abs())) && activeBlockType == TextType && sseIdx == activeTextSSEIndex
    {
      if activeBlockType == TextType { return activeTextSSEIndex; }
      CloseActiveBlock();
      blockIndex := blockIndex + 1;
      sseIdx := blockIndex;
      activeBlockType := TextType;
      contentBlocks := contentBlocks + [TextBlock("")];
      activeTextBlockIndex, activeTextSSEIndex := |contentBlocks| - 1, sseIdx;
      WriteSSE(StartText(sseIdx));
    }

    method EnsureThinkingBlock() returns (sseIdx: int)
      requires Valid()
      modifies this
      ensures Valid() && Abs() == EnsureThinking(env, old(Abs()))
      ensures sseIdx == if env.suppressThinking then -1 else activeThinkingSSEIndex
      ensures !env.suppressThinking ==> activeBlockType == ThinkingType
    {
      if env.suppressThinking { return -1; }
      if activeBlockType == ThinkingType { return activeThinkingSSEIndex; }
      CloseActiveBlock();
      blockIndex := blockIndex + 1;
      sseIdx := blockIndex;
      activeBlockType := ThinkingType;
      var signature := pendingThinkingSig;
      pendingThinkingSig := "";
      contentBlocks := contentBlocks + [ThinkingBlock(signature, "")];
      activeThinkingBlockIndex, activeThinkingSSEIndex := |contentBlocks| - 1, sseIdx;
      WriteSSE(StartThinking(sseIdx, signature));
    }

    /** Writes to the builder of a block. */
    method AppendToBlock(internalIdx: int, text: Bytes)
      requires internalIdx >= 0
      modifies `contentBlocks
      ensures Abs() == AppendText(old(Abs()), internalIdx, text)
    {
      if internalIdx < |contentBlocks| && !contentBlocks[internalIdx].ToolBlock? {
        contentBlocks := contentBlocks[internalIdx := contentBlocks[internalIdx].(text := contentBlocks[internalIdx].text + text)];
      }
    }

    method WriteTextDelta(delta: Bytes)
      requires Valid()
      modifies this
      ensures Valid() && Abs() == WriteText(env, old(Abs()), delta)
    {
      var sseIdx, internalIdx := activeTextSSEIndex, activeTextBlockIndex;
      if sseIdx < 0 {
        sseIdx := EnsureTextBlock();
        internalIdx := activeTextBlockIndex;
      }
      AppendToBlock(internalIdx, delta);
      WriteSSE(DeltaText(sseIdx, delta));
    }

    /** A signature that arrives late. */
    method FillThinkingSignature(sig: Bytes)
      requires Valid()
      modifies `contentBlocks
      ensures Abs() == FillSignature(old(Abs()), sig)
    {
      var internalIdx := activeThinkingBlockIndex;
      if internalIdx >= 0 && internalIdx < |contentBlocks| && contentBlocks[internalIdx].ThinkingBlock?
         && contentBlocks[internalIdx].signature == "" {
        contentBlocks := contentBlocks[internalIdx := contentBlocks[internalIdx].(signature := sig)];
      }
    }

    method WriteThinkingDelta(delta: Bytes)
      requires Valid() && !env.suppressThinking
      modifies this
      ensures Valid() && Abs() == WriteThinking(env, old(Abs()), delta)
    {
      var sseIdx, internalIdx := activeThinkingSSEIndex, activeThinkingBlockIndex;
      if sseIdx < 0 {
        sseIdx := EnsureThinkingBlock();
        internalIdx := activeThinkingBlockIndex;
      }
      AppendToBlock(internalIdx, delta);
      WriteSSE(DeltaThinking(sseIdx, delta));
    }

    method OnReasoningStart(sig: Bytes)
      requires Valid()
      modifies this
      ensures Valid() && Abs() == HandlerSpec.OnReasoningStart(env, old(Abs()), sig)
    {
      pendingThinkingSig := "";
      if sig != "" {
        pendingThinkingSig := sig;
        var _ := EnsureThinkingBlock();
      }
    }

    method OnReasoningDelta(sig0: Bytes, delta: Bytes)
      requires Valid() && !env.suppressThinking
      modifies this
      ensures Valid() && Abs() == ReasoningDeltaOut(env, old(Abs()), sig0, delta)
    {
      if pendingThinkingSig == "" { pendingThinkingSig := sig0; }
      var sig := pendingThinkingSig;
      if delta == "" {
        if sig != "" {
          var _ := EnsureThinkingBlock();
          FillThinkingSignature(sig);
        }
      } else {
        if sig != "" { FillThinkingSignature(sig); }
        WriteThinkingDelta(delta);
      }
    }

    // ------------------------------------------------------------------------------ tools

    method WriteThree(a: Event, b: Event, c: Event, final: bool)
      modifies `trace
      ensures trace == if env.isStream && (final || !hasReturn) then old(trace) + [a, b, c] else old(trace)
    {
      if final {
        WriteFinalSSE(a);
        WriteFinalSSE(b);
        WriteFinalSSE(c);
      } else {
        WriteSSE(a);
        WriteSSE(b);
        WriteSSE(c);
      }
      AppendThree(old(trace), a, b, c);
    }

    /** A tool block under the next index. */
    method WriteTool(call: Call, final: bool)
      modifies `trace, `blockIndex
      ensures blockIndex == old(blockIndex) + 1
      ensures trace == if env.isStream && (final || !hasReturn) then old(trace) + ToolEvents(blockIndex, call) else old(trace)
    {
      var inputJSON := InputText(call);
      blockIndex := blockIndex + 1;
      WriteThree(StartToolUse(blockIndex, call.id, call.name), DeltaInput(blockIndex, inputJSON), Stop(blockIndex), final);
    }

    method InputText(call: Call) returns (json: Bytes)
      ensures json == InputJSON(call.input)
    {
      json := TrimSpace(call.input);
      if json == "" { json := "{}"; }
    }

    method EmitToolBlock(call: Call)
      requires Valid()
      modifies `trace, `blockIndex
      ensures Valid() && Abs() == EmitTool(env, old(Abs()), call)
    {
      WriteTool(call, false);
    }

    // -------------------------------------------------------------------------- finishing

    method AppendToolBlock(call: Call)
      modifies `contentBlocks
      ensures contentBlocks == old(contentBlocks) + [AsBlock(env, call)]
    {
      var inputJSON := InputText(call);
      var inputValue := EmptyObject;
      var parsed := env.parse(inputJSON);
      if parsed.Some? { inputValue := parsed.value; }
      contentBlocks := contentBlocks + [ToolBlock(call.id, call.name, inputValue)];
    }

    method WriteFinalTool(call: Call)
      requires env.isStream && Valid()
      modifies `trace, `blockIndex
      ensures Valid() && Abs() == old(Abs()).(blockIndex := blockIndex, trace := old(trace) + ToolEvents(blockIndex, call))
      ensures blockIndex == old(blockIndex) + 1
    {
      WriteTool(call, true);
    }

    /** A queued call, appended to the content or written with final writes. */
    method FlushCall(call: Call)
      requires Valid()
      modifies `trace, `blockIndex, `contentBlocks
      ensures Valid()
      ensures Abs() == FlushOne(env, old(Abs()), call)
    {
      if !env.isStream {
        AppendToolBlock(call);
      } else if call.id != "" {
        WriteFinalTool(call);
      }
    }

    method Begin(stopReason: Bytes)
      requires Valid()
      modifies this
      ensures Valid() && Abs() == StopOpen(env, old(Abs()).(hasReturn := true, stopReason := stopReason))
    {
      hasReturn := true;
      finalStopReason := stopReason;
      if env.isStream {
        var stop := PopActiveBlock();
        if stop.Some? { WriteFinalSSE(Stop(stop.value)); }
      }
    }

    method End(stopReason: Bytes, tokens: int)
      requires Valid()
      modifies this
      ensures Valid() && Abs() == Close(env, old(Abs()), stopReason, tokens)
    {
      if env.isStream {
        WriteFinalSSE(MessageDelta(stopReason, tokens));
        WriteFinalSSE(MessageStop);
      }
    }

    method Reset()
      requires Valid()
      modifies this
      ensures Valid() && Abs() == CloseActive(env, old(Abs())).(active := NoBlock, hasReturn := false, stopReason := "", blocks := [])
    {
      CloseActiveBlock();
      activeThinkingBlockIndex, activeThinkingSSEIndex, activeTextBlockIndex, activeTextSSEIndex := -1, -1, -1, -1;
      activeBlockType, hasReturn, contentBlocks, finalStopReason := NoType, false, [], "";
    }
  }

  /** What is remembered about text deltas. */
  class TextMemory {
    const env: Env
    var responseText: Bytes
    var hasTextOutput: bool
    var lastTextDelta: Bytes
    var lastTextDeltaSource: Bytes
    var lastTextDeltaAt: int
    var introDedup: set<Bytes>

    ghost function Abs(): Memory
      reads this
    {
      Memory(responseText, hasTextOutput, lastTextDelta, lastTextDeltaSource, lastTextDeltaAt, introDedup)
    }

    constructor (env: Env)
      ensures this.env == env && Abs() == Memory("", false, "", "", 0, {})
    {
      this.env := env;
      responseText, hasTextOutput, lastTextDelta, lastTextDeltaSource, lastTextDeltaAt, introDedup := "", false, "", "", 0, {};
    }

    method ShouldSkipIntroDelta(delta: Bytes) returns (skip: bool)
      modifies `introDedup
      ensures (skip, Abs()) == SkipIntro(env, old(Abs()), delta)
    {
      var key := env.introKey(delta);
      if key == "" { return false; }
      skip := key in introDedup;
      if !skip { introDedup := introDedup + {key}; }
      assert old(introDedup) + {key} == introDedup;
    }

    method ShouldSkipDuplicateDelta(delta: Bytes, source: Bytes, now: int) returns (skip: bool)
      modifies `lastTextDelta, `lastTextDeltaSource, `lastTextDeltaAt
      ensures (skip, Abs()) == SkipDuplicate(old(Abs()), delta, source, now)
    {
      if TrimSpace(delta) == "" || source == "" { return false; }
      skip := lastTextDelta == delta && lastTextDeltaSource != "" && lastTextDeltaSource != source && now - lastTextDeltaAt <= 2000;
      lastTextDelta, lastTextDeltaSource, lastTextDeltaAt := delta, source, now;
    }

    method ShouldSkipDelta(delta: Bytes, source: Bytes, now: int) returns (skip: bool)
      modifies this
      ensures (skip, Abs()) == SkipText(env, old(Abs()), delta, source, now)
    {
      skip := ShouldSkipIntroDelta(delta);
      if !skip { skip := ShouldSkipDuplicateDelta(delta, source, now); }
    }

    method Take(delta: Bytes)
      modifies this
      ensures Abs() == old(Abs()).(hasTextOutput := true,
        responseText := if env.isStream then old(Abs()).responseText else old(Abs()).responseText + delta)
    {
      hasTextOutput := true;
      if !env.isStream { responseText := responseText + delta; }
    }

    method Reset()
      modifies this
      ensures Abs() == Memory("", false, "", "", 0, old(Abs()).introSeen)
    {
      responseText, hasTextOutput, lastTextDelta, lastTextDeltaSource, lastTextDeltaAt := "", false, "", "", 0;
    }
  }

  /** The tool-call fields. */
  class ToolState {
    const env: Env
    var toolInputNames: map<Bytes, Bytes>
    var toolInputBuffers: map<Bytes, Bytes>
    var toolCallHandled: set<Bytes>
    var toolCallEmitted: set<Bytes>
    var toolCallCount: nat
    var pendingToolCalls: seq<Call>
    var bashCallDedup: set<Bytes>
    var seedToolDedup: set<Bytes>
    /** Every dedup key accepted for this response, in order. */
    ghost var acceptedKeys: seq<Bytes>

    ghost function Abs(): Tools
      reads this
    {
      Tools(toolInputNames, toolInputBuffers, toolCallHandled, toolCallEmitted, toolCallCount, pendingToolCalls,
            bashCallDedup, seedToolDedup, acceptedKeys)
    }

    constructor (env: Env, seeds: set<Bytes>)
      ensures this.env == env && Abs() == Tools(map[], map[], {}, {}, 0, [], seeds, seeds, [])
    {
      this.env := env;
      toolInputNames, toolInputBuffers, toolCallHandled, toolCallEmitted, toolCallCount := map[], map[], {}, {}, 0;
      pendingToolCalls, bashCallDedup, seedToolDedup, acceptedKeys := [], seeds, seeds, [];
    }

    method ShouldAcceptToolCall(name: Bytes, input: Bytes) returns (ok: bool)
      modifies `bashCallDedup, `seedToolDedup, `acceptedKeys
      ensures (ok, Abs()) == Accept(env, old(Abs()), name, input)
    {
      if env.disallowTools || !env.allowed(name, input) || env.sandboxed(name, input) { return false; }
      var verdict := env.evaluate(name, input);
      if verdict.None? { return false; }
      var key := verdict.value;
      if key != "" {
        if key in bashCallDedup { return false; }
        bashCallDedup := bashCallDedup + {key};
        seedToolDedup := seedToolDedup + {key};
        acceptedKeys := acceptedKeys + [key];
      }
      return true;
    }

    method StartInput(id: Bytes, toolName: Bytes)
      modifies `toolInputNames, `toolInputBuffers
      ensures Abs() == if id == "" || toolName == "" then old(Abs())
        else old(Abs()).(names := old(Abs()).names[id := toolName], buffers := old(Abs()).buffers[id := ""])
    {
      if id == "" || toolName == "" { return; }
      toolInputNames := toolInputNames[id := toolName];
      toolInputBuffers := toolInputBuffers[id := ""];
    }

    method OnToolInputDelta(id: Bytes, delta: Bytes)
      modifies `toolInputBuffers
      ensures Abs() == HandlerSpec.OnToolInputDelta(old(Abs()), id, delta)
    {
      if id == "" { return; }
      if id in toolInputBuffers { toolInputBuffers := toolInputBuffers[id := toolInputBuffers[id] + delta]; }
    }

    method Forget(id: Bytes)
      modifies `toolInputBuffers, `toolInputNames
      ensures Abs() == ForgetInput(old(Abs()), id)
    {
      toolInputBuffers, toolInputNames := toolInputBuffers - {id}, toolInputNames - {id};
    }

    /** Whether a complete input belongs to a call still to be handled, and that call as rewritten. */
    method TakeInput(id: Bytes) returns (call: Option<Call>)
      modifies `toolInputBuffers, `toolInputNames
      ensures Abs() == ForgetInput(old(Abs()), id)
      ensures var t := old(Abs());
        call == if id !in t.names || t.names[id] == "" || id in t.handled then None
                else var (name, input) := env.rewrite(t.names[id], Buffered(t, id)); Some(Call(id, name, input))
    {
      call := None;
      if id in toolInputNames && toolInputNames[id] != "" {
        var input0 := "";
        if id in toolInputBuffers { input0 := TrimSpace(toolInputBuffers[id]); }
        var rewritten := env.rewrite(toolInputNames[id], input0);
        if id !in toolCallHandled { call := Some(Call(id, rewritten.0, rewritten.1)); }
      }
      Forget(id);
    }

    method Queue(call: Call)
      modifies this
      ensures Abs() == old(Abs()).(pending := old(Abs()).pending + [call], count := old(Abs()).count + 1)
    {
      pendingToolCalls := pendingToolCalls + [call];
      toolCallCount := toolCallCount + 1;
    }

    method Reset()
      modifies this
      ensures Abs() == Tools(map[], map[], {}, {}, 0, [], old(Abs()).seeds, old(Abs()).seeds, old(Abs()).acceptedKeys)
    {
      toolInputNames, toolInputBuffers, toolCallHandled, toolCallEmitted, toolCallCount := map[], map[], {}, {}, 0;
      pendingToolCalls, bashCallDedup := [], seedToolDedup;
    }
  }

  /** Token accounting. */
  class TokenCount {
    const env: Env
    var useUpstreamUsage: bool
    var estimatorText: Bytes
    var outputTokens: int

    ghost function Abs(): Usage
      reads this
    {
      Usage(useUpstreamUsage, estimatorText, outputTokens)
    }

    constructor (env: Env)
      ensures this.env == env && Abs() == Usage(false, "", 0)
    {
      this.env := env;
      useUpstreamUsage, estimatorText, outputTokens := false, "", 0;
    }

    method AddOutputTokens(text: Bytes)
      modifies `estimatorText
      ensures Abs() == AddOutput(old(Abs()), text)
    {
      if !useUpstreamUsage { estimatorText := estimatorText + text; }
    }

    method AddCall(call: Call)
      modifies `estimatorText
      ensures Abs() == CountCall(env, old(Abs()), call)
    {
      if !env.isStream || call.id != "" {
        AddOutputTokens(call.name);
        AddOutputTokens(call.input);
      }
    }

    method AddThinkingTokens(text: Bytes)
      modifies `outputTokens
      ensures Abs() == if text != "" && !old(Abs()).upstream then old(Abs()).(tokens := old(Abs()).tokens + env.tokens(text)) else old(Abs())
    {
      if text == "" { return; }
      if !useUpstreamUsage { outputTokens := outputTokens + env.tokens(text); }
    }

    method SetUsageTokens(count: Option<int>)
      modifies this
      ensures Abs() == SetUsage(old(Abs()), count)
    {
      if count.None? { return; }
      useUpstreamUsage := true;
      if count.value >= 0 { outputTokens := count.value; }
    }

    method FinalizeOutputTokens()
      modifies this
      ensures Abs() == CountTokens(env, old(Abs()))
    {
      if useUpstreamUsage { return; }
      outputTokens := env.tokens(estimatorText);
    }

    method Reset()
      modifies this
      ensures Abs() == Usage(false, "", 0)
    {
      useUpstreamUsage, estimatorText, outputTokens := false, "", 0;
    }
  }

  class Handler {
    const env: Env
    const blocks: Blocks
    const memory: TextMemory
    const tools: ToolState
    const usage: TokenCount

    ghost function Abs(): State
      reads blocks, memory, tools, usage
    {
      State(blocks.Abs(), memory.Abs(), tools.Abs(), usage.Abs())
    }

    ghost predicate Valid()
      reads blocks
    {
      blocks.Valid() && blocks.env == env && memory.env == env && tools.env == env && usage.env == env
    }

    constructor (env: Env, seeds: set<Bytes>)
      ensures Valid() && this.env == env && Abs() == Initial(seeds)
      ensures fresh(blocks) && fresh(memory) && fresh(tools) && fresh(usage)
    {
      this.env := env;
      blocks := new Blocks(env);
      memory := new TextMemory(env);
      tools := new ToolState(env, seeds);
      usage := new TokenCount(env);
    }

    method OnTextDelta(delta0: Bytes, source: Bytes, now: int)
      requires Valid()
      modifies blocks, memory, usage
      ensures Valid() && Abs() == HandlerSpec.OnTextDelta(env, old(Abs()), delta0, source, now)
    {
      if delta0 == "" { return; }
      var delta := env.collapse(delta0);
      var skip := memory.ShouldSkipDelta(delta, source, now);
      if !skip {
        memory.Take(delta);
        blocks.WriteTextDelta(delta);
        usage.AddOutputTokens(delta);
      }
    }

    method OnReasoningDelta(sig: Bytes, delta: Bytes)
      requires Valid() && !env.suppressThinking
      modifies blocks, usage
      ensures Valid() && Abs() == HandlerSpec.OnReasoningDelta(env, old(Abs()), sig, delta)
    {
      if env.isStream { usage.AddThinkingTokens(delta); }
      blocks.OnReasoningDelta(sig, delta);
    }

    method EmitToolUseFromInput(call: Call)
      requires Valid()
      modifies blocks, tools, usage
      ensures Valid() && Abs() == EmitToolUse(env, old(Abs()), call)
    {
      if call.id == "" || call.name == "" || call.id in tools.toolCallEmitted { return; }
      tools.toolCallEmitted := tools.toolCallEmitted + {call.id};
      tools.toolCallCount := tools.toolCallCount + 1;
      usage.AddOutputTokens(call.name);
      blocks.EmitToolBlock(call);
    }

    /** The end of an accepted call. */
    method TakeToolCall(call: Call)
      requires Valid()
      modifies blocks, tools, usage
      ensures Valid() && Abs() == TakeCall(env, old(Abs()), call)
    {
      tools.toolCallHandled := tools.toolCallHandled + {call.id};
      if env.isStream { EmitToolUseFromInput(call); } else { tools.Queue(call); }
    }

    method OnToolInputStart(id: Bytes, name: Bytes)
      requires Valid()
      modifies blocks, tools
      ensures Valid() && Abs() == HandlerSpec.OnToolInputStart(env, old(Abs()), id, name)
    {
      blocks.CloseActiveBlock();
      tools.StartInput(id, TrimSpace(name));
    }

    method OnToolInputEnd(id: Bytes)
      requires Valid()
      modifies blocks, tools, usage
      ensures Valid() && Abs() == HandlerSpec.OnToolInputEnd(env, old(Abs()), id)
    {
      if id == "" { return; }
      var taken := tools.TakeInput(id);
      if taken.Some? {
        var call := taken.value;
        var ok := tools.ShouldAcceptToolCall(call.name, call.input);
        if ok {
          if env.isStream { usage.AddOutputTokens(call.input); }
          TakeToolCall(call);
        }
      }
    }

    method OnToolCall(id: Bytes, name0: Bytes, input0: Bytes)
      requires Valid()
      modifies blocks, tools, usage
      ensures Valid() && Abs() == HandlerSpec.OnToolCall(env, old(Abs()), id, name0, input0)
    {
      var rewritten := env.rewrite(name0, input0);
      if id == "" || id in tools.toolCallHandled { return; }
      var ok := tools.ShouldAcceptToolCall(rewritten.0, rewritten.1);
      if ok {
        tools.Forget(id);
        TakeToolCall(Call(id, rewritten.0, rewritten.1));
      }
    }

    // -------------------------------------------------------------------------- finishing

    method HasToolCallsNow() returns (has: bool)
      ensures has == HasToolCalls(Abs().tools)
    {
      has := tools.toolCallCount > 0 || |tools.pendingToolCalls| > 0 || tools.toolCallEmitted != {};
    }

    method FlushPendingToolCalls()
      requires Valid()
      modifies blocks, tools, usage
      ensures Valid() && blocks.Abs() == FlushOut(env, old(blocks.Abs()), old(tools.pendingToolCalls))
      ensures usage.Abs() == FlushUsage(env, old(usage.Abs()), old(tools.pendingToolCalls))
      ensures tools.Abs() == old(tools.Abs()).(pending := [])
    {
      var calls := tools.pendingToolCalls;
      tools.pendingToolCalls := [];
      while calls != []
        modifies blocks, usage
        invariant Valid()
        invariant FlushOut(env, blocks.Abs(), calls) == FlushOut(env, old(blocks.Abs()), old(tools.pendingToolCalls))
        invariant FlushUsage(env, usage.Abs(), calls) == FlushUsage(env, old(usage.Abs()), old(tools.pendingToolCalls))
        decreases |calls|
      {
        blocks.FlushCall(calls[0]);
        usage.AddCall(calls[0]);
        calls := calls[1..];
      }
    }

    method FinishResponse(reason: Bytes)
      requires Valid()
      modifies blocks, tools, usage
      ensures Valid() && Abs() == HandlerSpec.FinishResponse(env, old(Abs()), reason)
    {
      var stopReason := reason;
      var has := HasToolCallsNow();
      if stopReason == "tool_use" && !has { stopReason := "end_turn"; }
      if blocks.hasReturn { return; }
      blocks.Begin(stopReason);
      FlushPendingToolCalls();
      usage.FinalizeOutputTokens();
      blocks.End(stopReason, usage.outputTokens);
    }

    method OnFinish(reason: Bytes, count: Option<int>)
      requires Valid()
      modifies blocks, tools, usage
      ensures Valid() && Abs() == HandlerSpec.OnFinish(env, old(Abs()), reason, count)
    {
      usage.SetUsageTokens(count);
      var stopReason := "end_turn";
      if reason == "tool-calls" || reason == "tool_use" { stopReason := "tool_use"; }
      var has := HasToolCallsNow();
      if tools.toolCallEmitted != {} { stopReason := "tool_use"; }
      if stopReason == "tool_use" && !has { stopReason := "end_turn"; }
      blocks.CloseActiveBlock();
      FinishResponse(stopReason);
    }

    method ForceFinishIfMissing()
      requires Valid()
      modifies blocks, tools, usage
      ensures Valid() && Abs() == ForceFinish(env, old(Abs()))
    {
      if blocks.hasReturn { return; }
      var has := HasToolCallsNow();
      var stopReason := if has then "tool_use" else "end_turn";
      FinishResponse(stopReason);
    }

    // --------------------------------------------------------------------- events and runs

    method OnToolEvent(m: Input)
      requires Valid() && IsToolInput(m) && !blocks.hasReturn
      modifies blocks, tools, usage
      ensures Valid() && Abs() == Handle(env, old(Abs()), m)
    {
      match m
      case ToolInputStart(id, name) => OnToolInputStart(id, name);
      case ToolInputDelta(id, delta) => tools.OnToolInputDelta(id, delta);
      case ToolInputEnd(id) => OnToolInputEnd(id);
      case ToolCall(id, name, input) => OnToolCall(id, name, input);
    }

    method HandleMessage(m: Input)
      requires Valid()
      modifies blocks, memory, tools, usage
      ensures Valid() && Abs() == Handle(env, old(Abs()), m)
    {
      if blocks.hasReturn { return; }
      if env.suppressThinking && (m.ReasoningStart? || m.ReasoningDelta? || m.ReasoningEnd?) { return; }
      match m
      case ReasoningStart(sig) => blocks.OnReasoningStart(sig);
      case ReasoningDelta(sig, delta) => OnReasoningDelta(sig, delta);
      case ReasoningEnd => blocks.CloseActiveBlock();
      case TextStart => var _ := blocks.EnsureTextBlock();
      case TextDelta(delta, source, now) => OnTextDelta(delta, source, now);
      case TextEnd => blocks.CloseActiveBlock();
      case ToolInputStart(_, _) => OnToolEvent(m);
      case ToolInputDelta(_, _) => OnToolEvent(m);
      case ToolInputEnd(_) => OnToolEvent(m);
      case ToolCall(_, _, _) => OnToolEvent(m);
      case TokensUsed(count) => usage.SetUsageTokens(count);
      case Finish(reason, count) => OnFinish(reason, count);
      case Other =>
    }

    /** The upstream client calling back, event by event. */
    method SendRequest(events: seq<Input>)
      requires Valid()
      modifies blocks, memory, tools, usage
      ensures Valid() && Abs() == Deliver(env, old(Abs()), events)
    {
      for i := 0 to |events|
        invariant Valid() && Abs() == Deliver(env, old(Abs()), events[..i])
      {
        assert events[..i + 1][..i] == events[..i];
        HandleMessage(events[i]);
      }
      assert events[..|events|] == events;
    }

    method ResetRoundState()
      requires Valid()
      modifies blocks, memory, tools, usage
      ensures Valid() && Abs() == Reset(env, old(Abs()))
    {
      blocks.Reset();
      memory.Reset();
      tools.Reset();
      usage.Reset();
    }

    method HasAnyOutputNow() returns (has: bool)
      ensures has == HasAnyOutput(Abs())
    {
      has := HasToolCallsNow();
      has := has || memory.hasTextOutput || |blocks.contentBlocks| > 0 || memory.responseText != "" || usage.estimatorText != "";
    }

    method InjectErrorText(text: Bytes)
      requires Valid()
      modifies blocks, memory
      ensures Valid() && Abs() == Inject(env, old(Abs()), text)
    {
      memory.hasTextOutput := true;
      var idx := blocks.EnsureTextBlock();
      var internalIdx := blocks.activeTextBlockIndex;
      if env.isStream { blocks.WriteSSE(DeltaText(idx, text)); } else { blocks.AppendToBlock(internalIdx, text); }
    }

    method EndWithText(text: Option<Bytes>)
      requires Valid()
      modifies blocks, memory, tools, usage
      ensures Valid() && Abs() == EndWith(env, old(Abs()), text)
    {
      if text.Some? { InjectErrorText(text.value); }
      FinishResponse("end_turn");
    }

    /** One turn of the retry loop: whether another attempt follows. */
    method RunAttempt(attempts: seq<Attempt>, retriesRemaining: nat) returns (again: bool)
      requires Valid() && |attempts| > retriesRemaining
      modifies blocks, memory, tools, usage
      ensures Valid()
      ensures again == Retried(Attempted(env, old(Abs()), attempts[0]), attempts[0], retriesRemaining)
      ensures Abs() == if again then Attempted(env, old(Abs()), attempts[0]) else RunFrom(env, old(Abs()), attempts, retriesRemaining)
    {
      ResetRoundState();
      SendRequest(attempts[0].events);
      if attempts[0].result.Success? {
        ForceFinishIfMissing();
        return false;
      }
      var f := attempts[0].result.failure;
      var has := HasAnyOutputNow();
      if has {
        EndWithText(Some(f.upstreamText));
        return false;
      }
      var verdict := Decide(f, retriesRemaining);
      if verdict.GiveUp? { EndWithText(verdict.text); }
      return verdict.Retry?;
    }

    /** The retry loop of `HandleMessages`. */
    method RunLoop(attempts: seq<Attempt>, maxRetries: nat)
      requires Valid() && |attempts| > maxRetries
      modifies blocks, memory, tools, usage
      ensures Valid() && Abs() == RunFrom(env, old(Abs()), attempts, maxRetries)
    {
      var attempt: nat, retriesRemaining: nat, again := 0, maxRetries, true;
      assert attempts[0..] == attempts;
      while again
        invariant Valid() && (again ==> attempt + retriesRemaining == maxRetries)
        invariant RunFrom(env, old(Abs()), attempts, maxRetries)
          == if again then RunFrom(env, Abs(), attempts[attempt..], retriesRemaining) else Abs()
        decreases again, retriesRemaining
      {
        ghost var s := Abs();
        again := RunAttempt(attempts[attempt..], retriesRemaining);
        if again {
          RunSteps(env, s, attempts[attempt..], retriesRemaining);
          assert attempts[attempt..][1..] == attempts[attempt + 1..];
          retriesRemaining := retriesRemaining - 1;
          attempt := attempt + 1;
        }
      }
    }

    /** A whole response to a fresh handler. */
    method Respond(start: Event, attempts: seq<Attempt>, maxRetries: nat, ghost seeds: set<Bytes>)
      requires Valid() && Abs() == Initial(seeds) && |attempts| > maxRetries && start.MessageStart?
      modifies blocks, memory, tools, usage
      ensures Valid() && Abs() == Run(env, start, seeds, attempts, maxRetries)
      ensures env.isStream ==> (WellFormed(blocks.trace) <==> !FinishThenRetry(env, Opened(env, start, seeds), attempts, maxRetries))
    {
      blocks.WriteSSE(start);
      RunLoop(attempts, maxRetries);
      if !blocks.hasReturn { FinishResponse("end_turn"); }
      if env.isStream { RunWellFormed(env, start, seeds, attempts, maxRetries); }
    }
  }
}
