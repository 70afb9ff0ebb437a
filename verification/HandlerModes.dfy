/** Streaming and non-streaming responses carry the same content. */
module HandlerModes {
  import opened Bytes
  import opened SseEvent
  import opened StreamTrace
  import opened HandlerSpec
  import opened HandlerRuns

  // ------------------------------------------------------------------ what a client assembles

  /** A block as a client assembles it: its start, and the fragments written for its index. */
  datatype Entry = Entry(head: Event, body: Bytes)

  function Fragment(e: Event): Bytes
    requires IsDelta(e)
  {
    match e
    case DeltaText(_, t) => t
    case DeltaThinking(_, t) => t
    case DeltaInput(_, p) => p
  }

  predicate IsEntry(h: Entry, i: int) { IsStart(h.head) && h.head.index == i }

  /** A fragment goes to every block of its index. */
  function AddTo(h: seq<Entry>, i: int, x: Bytes): (r: seq<Entry>)
    ensures |r| == |h|
  {
    if h == [] then []
    else AddTo(h[..|h| - 1], i, x) + [if IsEntry(h[|h| - 1], i) then h[|h| - 1].(body := h[|h| - 1].body + x) else h[|h| - 1]]
  }

  function HearOne(h: seq<Entry>, e: Event, tools: bool): seq<Entry> {
    if IsStart(e) && e.StartToolUse? == tools then h + [Entry(e, "")]
    else if IsDelta(e) && e.DeltaInput? == tools then AddTo(h, e.index, Fragment(e))
    else h
  }

  /** The tool blocks of a stream, or its text and thinking blocks, in order. */
  function Heard(t: seq<Event>, tools: bool): seq<Entry> {
    if t == [] then [] else HearOne(Heard(t[..|t| - 1], tools), t[|t| - 1], tools)
  }

  /** The content array of a non-streaming response says what the stream says: the text and thinking blocks
      with the same text, then the tool calls with the same id and name and the input that the streamed text
      parses to. */
  predicate SameContent(env: Env, t: seq<Event>, blocks: seq<Block>) {
    SameParts(env, Heard(t, false), Heard(t, true), blocks)
  }

  predicate SameParts(env: Env, w: seq<Entry>, c: seq<Entry>, blocks: seq<Block>) {
    && |blocks| == |w| + |c|
    && (forall k :: 0 <= k < |w| ==> SameText(w[k], blocks[k]))
    && (forall k :: 0 <= k < |c| ==> SameCall(env, c[k], blocks[|w| + k]))
  }

  predicate SameText(h: Entry, b: Block) {
    || (h.head.StartText? && b.TextBlock? && b.text == h.body)
    || (h.head.StartThinking? && b.ThinkingBlock? && b.text == h.body)
  }

  predicate SameCall(env: Env, h: Entry, b: Block) {
    && h.head.StartToolUse? && b.ToolBlock? && b.id == h.head.id && b.name == h.head.name
    && env.parse(h.body) == Some(b.input)
  }

  /** The same, with an input that does not parse stored as the empty object. */
  predicate StoredContent(env: Env, t: seq<Event>, blocks: seq<Block>) {
    StoredParts(env, Heard(t, false), Heard(t, true), blocks)
  }

  predicate StoredParts(env: Env, w: seq<Entry>, c: seq<Entry>, blocks: seq<Block>) {
    && |blocks| == |w| + |c|
    && (forall k :: 0 <= k < |w| ==> SameText(w[k], blocks[k]))
    && (forall k :: 0 <= k < |c| ==> StoredCall(env, c[k], blocks[|w| + k]))
  }

  predicate StoredCall(env: Env, h: Entry, b: Block) {
    h.head.StartToolUse? && b == ToolBlock(h.head.id, h.head.name, ValueOf(env, h.body))
  }

  lemma HeardSnoc(t: seq<Event>, e: Event, tools: bool)
    ensures Heard(t + [e], tools) == HearOne(Heard(t, tools), e, tools)
  {
    assert (t + [e])[..|t|] == t;
  }

  // ---------------------------------------------------------------------- the live relation

  /** Start indices increase and stay below the counter. */
  predicate Ordered(h: seq<Entry>, top: int) {
    && (forall k :: 0 <= k < |h| ==> IsStart(h[k].head) && h[k].head.index <= top)
    && (forall j, k :: 0 <= j < k < |h| ==> h[j].head.index < h[k].head.index)
  }

  predicate Aligned(h: seq<Entry>, blocks: seq<Block>) {
    |h| == |blocks| && forall k :: 0 <= k < |h| ==> SameText(h[k], blocks[k])
  }

  /** The same block is open in both, and it is the last one. */
  predicate SameActive(a: Active, b: Active, h: seq<Entry>) {
    match (a, b)
    case (NoBlock, NoBlock) => true
    case (ActiveText(i, _), ActiveText(_, k)) => h != [] && k == |h| - 1 && h[k].head == StartText(i)
    case (ActiveThinking(i, _), ActiveThinking(_, k)) =>
      h != [] && k == |h| - 1 && h[k].head.StartThinking? && h[k].head.index == i
    case _ => false
  }

  /** A streaming `o` and a non-streaming `p` that have handled the same events. */
  predicate Live(o: Out, p: Out) {
    var w := Heard(o.trace, false);
    && !o.hasReturn && !p.hasReturn && o.pendingSig == p.pendingSig && |o.blocks| == |p.blocks|
    && Aligned(w, p.blocks) && Ordered(w, o.blockIndex) && SameActive(o.active, p.active, w)
  }

  /** Nothing was written about tools. */
  predicate SameTools(o: Out, o2: Out) { Heard(o2.trace, true) == Heard(o.trace, true) && o2.blockIndex >= o.blockIndex }

  ghost predicate Modes(p: Env, n: Env) { p.isStream && n == p.(isStream := false) }

  lemma {:induction false} AddToLast(h: seq<Entry>, i: int, x: Bytes, top: int)
    requires Ordered(h, top) && h != [] && h[|h| - 1].head.index == i
    ensures AddTo(h, i, x) == h[..|h| - 1] + [h[|h| - 1].(body := h[|h| - 1].body + x)]
  {
    AddToNone(h[..|h| - 1], i, x);
  }

  lemma {:induction false} AddToNone(h: seq<Entry>, i: int, x: Bytes)
    requires forall k :: 0 <= k < |h| ==> IsStart(h[k].head) && h[k].head.index != i
    ensures AddTo(h, i, x) == h
  {
    if h != [] { AddToNone(h[..|h| - 1], i, x); }
  }

  lemma EmitHeard(p: Env, o: Out, e: Event)
    requires p.isStream && !o.hasReturn
    ensures Heard(Emit(p, o, e).trace, true) == HearOne(Heard(o.trace, true), e, true)
    ensures Heard(Emit(p, o, e).trace, false) == HearOne(Heard(o.trace, false), e, false)
  {
    HeardSnoc(o.trace, e, true);
    HeardSnoc(o.trace, e, false);
  }

  lemma CloseAgrees(p: Env, n: Env, o: Out, q: Out)
    requires Modes(p, n) && Live(o, q)
    ensures Live(CloseActive(p, o), CloseActive(n, q)) && SameTools(o, CloseActive(p, o))
    ensures CloseActive(p, o).active == NoBlock
  {
    if o.active != NoBlock { EmitHeard(p, o.(active := NoBlock), Stop(o.active.index)); }
  }

  lemma OpenTextAgrees(p: Env, n: Env, o: Out, q: Out)
    requires Modes(p, n) && Live(o, q) && o.active == NoBlock
    ensures Live(OpenText(p, o), OpenText(n, q)) && SameTools(o, OpenText(p, o)) && OpenText(p, o).active.ActiveText?
  {
    var i := o.blockIndex + 1;
    EmitHeard(p, o.(blockIndex := i, active := ActiveText(i, |o.blocks|), blocks := o.blocks + [TextBlock("")]), StartText(i));
  }

  lemma EnsureTextAgrees(p: Env, n: Env, o: Out, q: Out)
    requires Modes(p, n) && Live(o, q)
    ensures Live(EnsureText(p, o), EnsureText(n, q)) && SameTools(o, EnsureText(p, o))
    ensures EnsureText(p, o).active.ActiveText?
  {
    CloseAgrees(p, n, o, q);
    if !o.active.ActiveText? { OpenTextAgrees(p, n, CloseActive(p, o), CloseActive(n, q)); }
  }

  lemma OpenThinkingAgrees(p: Env, n: Env, o: Out, q: Out)
    requires Modes(p, n) && Live(o, q) && o.active == NoBlock
    ensures Live(OpenThinking(p, o), OpenThinking(n, q)) && SameTools(o, OpenThinking(p, o))
  {
    var i := o.blockIndex + 1;
    EmitHeard(p, o.(blockIndex := i, pendingSig := "", active := ActiveThinking(i, |o.blocks|),
                    blocks := o.blocks + [ThinkingBlock(o.pendingSig, "")]), StartThinking(i, o.pendingSig));
  }

  lemma EnsureThinkingAgrees(p: Env, n: Env, o: Out, q: Out)
    requires Modes(p, n) && Live(o, q)
    ensures Live(EnsureThinking(p, o), EnsureThinking(n, q)) && SameTools(o, EnsureThinking(p, o))
  {
    CloseAgrees(p, n, o, q);
    if !o.active.ActiveThinking? && !p.suppressThinking { OpenThinkingAgrees(p, n, CloseActive(p, o), CloseActive(n, q)); }
  }

  /** The last block with a fragment added. */
  function Extended(h: seq<Entry>, x: Bytes): seq<Entry>
    requires h != []
  {
    h[..|h| - 1] + [h[|h| - 1].(body := h[|h| - 1].body + x)]
  }

  lemma ExtendAligned(h: seq<Entry>, a: Active, q: Out, top: int, x: Bytes)
    requires Aligned(h, q.blocks) && Ordered(h, top) && SameActive(a, q.active, h) && a != NoBlock
    ensures var g, r := Extended(h, x), AppendText(q, q.active.block, x);
      Aligned(g, r.blocks) && Ordered(g, top) && SameActive(a, r.active, g)
  {
  }

  /** The open block of a state: a fragment written for it and put in its builder. */
  lemma FragmentAgrees(p: Env, o: Out, q: Out, e: Event)
    requires p.isStream && Live(o, q) && o.active != NoBlock && IsDelta(e) && !e.DeltaInput? && e.index == o.active.index
    ensures Live(Emit(p, o, e), AppendText(q, q.active.block, Fragment(e))) && SameTools(o, Emit(p, o, e))
  {
    var h := Heard(o.trace, false);
    EmitHeard(p, o, e);
    AddToLast(h, e.index, Fragment(e), o.blockIndex);
    ExtendAligned(h, o.active, q, o.blockIndex, Fragment(e));
  }

  lemma WriteTextAgrees(p: Env, n: Env, o: Out, q: Out, delta: Bytes)
    requires Modes(p, n) && Live(o, q)
    ensures Live(WriteText(p, o, delta), WriteText(n, q, delta)) && SameTools(o, WriteText(p, o, delta))
  {
    EnsureTextAgrees(p, n, o, q);
    var t, u := EnsureText(p, o), EnsureText(n, q);
    FragmentAgrees(p, AppendText(t, t.active.block, delta), u, DeltaText(t.active.index, delta));
  }

  lemma WriteThinkingAgrees(p: Env, n: Env, o: Out, q: Out, delta: Bytes)
    requires Modes(p, n) && Live(o, q)
    ensures Live(WriteThinking(p, o, delta), WriteThinking(n, q, delta)) && SameTools(o, WriteThinking(p, o, delta))
  {
    EnsureThinkingAgrees(p, n, o, q);
    var t, u := EnsureThinking(p, o), EnsureThinking(n, q);
    if t.active.ActiveThinking? {
      FragmentAgrees(p, AppendText(t, t.active.block, delta), u, DeltaThinking(t.active.index, delta));
    }
  }

  lemma FillAgrees(o: Out, q: Out, sig: Bytes)
    requires Live(o, q)
    ensures Live(FillSignature(o, sig), FillSignature(q, sig)) && SameTools(o, FillSignature(o, sig))
  {
  }

  lemma ReasoningAgrees(p: Env, n: Env, o: Out, q: Out, sig0: Bytes, delta: Bytes)
    requires Modes(p, n) && Live(o, q)
    ensures Live(ReasoningDeltaOut(p, o, sig0, delta), ReasoningDeltaOut(n, q, sig0, delta))
    ensures SameTools(o, ReasoningDeltaOut(p, o, sig0, delta))
  {
    var sig := Signature(o, sig0);
    var t, u := o.(pendingSig := sig), q.(pendingSig := sig);
    if delta == "" {
      EnsureThinkingAgrees(p, n, t, u);
      FillAgrees(EnsureThinking(p, t), EnsureThinking(n, u), sig);
    } else {
      FillAgrees(t, u, sig);
      WriteThinkingAgrees(p, n, if sig != "" then FillSignature(t, sig) else t, if sig != "" then FillSignature(u, sig) else u, delta);
    }
  }

  // -------------------------------------------------------------------------- whole states

  predicate IsCall(h: Entry, call: Call) {
    h.head.StartToolUse? && h.head.id == call.id && h.head.name == call.name && h.body == InputJSON(call.input)
  }

  /** The tool blocks a client heard are the queued calls. */
  predicate CallsAre(c: seq<Entry>, calls: seq<Call>) {
    |c| == |calls| && forall k :: 0 <= k < |c| ==> IsCall(c[k], calls[k])
  }

  /** The tool fields: calls are written at once in the one, queued in the other. */
  predicate ToolsLive(s: Tools, u: Tools) {
    && s == u.(emitted := s.emitted, pending := []) && u.emitted == {}
    && s.emitted <= s.handled && (s.emitted != {} || u.pending != [] ==> s.count > 0)
  }

  /** Text in the estimator or in the accumulated response has been shown. */
  predicate TextSeen(s: State) {
    && (s.usage.text != "" ==> s.memory.hasTextOutput || s.tools.count > 0)
    && (s.memory.responseText != "" ==> s.memory.hasTextOutput)
  }

  predicate CallsLive(o: Out, u: Tools) {
    Ordered(Heard(o.trace, true), o.blockIndex) && CallsAre(Heard(o.trace, true), u.pending)
  }

  predicate Rel(s: State, u: State) {
    && Live(s.out, u.out) && ToolsLive(s.tools, u.tools) && CallsLive(s.out, u.tools)
    && s.memory == u.memory.(responseText := s.memory.responseText) && TextSeen(s) && TextSeen(u)
  }

  predicate Over(n: Env, s: State, u: State) {
    s.out.hasReturn && u.out.hasReturn && StoredContent(n, s.out.trace, u.out.blocks)
  }

  /** Both modes after `model.finish`. */
  predicate Ended(n: Env, s: State, u: State) {
    && Over(n, s, u) && s.out.active == NoBlock && u.out.active == NoBlock && s.out.pendingSig == u.out.pendingSig
    && |s.out.blocks| == |Heard(s.out.trace, false)|
    && s.memory == u.memory.(responseText := s.memory.responseText) && TextSeen(s) && TextSeen(u)
    && s.tools == u.tools.(emitted := s.tools.emitted) && u.tools.emitted == {} && u.tools.pending == []
    && (s.tools.emitted != {} || Heard(s.out.trace, true) != [] ==> s.tools.count > 0)
  }

  /** Both modes take the same branch after a failure. */
  lemma SameOutputEnded(n: Env, s: State, u: State)
    requires Ended(n, s, u)
    ensures HasAnyOutput(s) == HasAnyOutput(u)
  {
  }

  lemma SameOutput(s: State, u: State)
    requires Rel(s, u)
    ensures HasAnyOutput(s) == HasAnyOutput(u)
  {
  }

  lemma HearTool(h: seq<Entry>, i: int, a: Event, x: Bytes)
    requires Ordered(h, i - 1) && a.StartToolUse? && a.index == i
    ensures AddTo(h + [Entry(a, "")], i, x) == h + [Entry(a, x)]
  {
    AddToNone(h, i, x);
    assert (h + [Entry(a, "")])[..|h|] == h;
    assert "" + x == x;
  }

  /** The three events of a tool block, heard one after the other. */
  lemma HearBlock(h: seq<Entry>, i: int, a: Event, b: Event, x: Bytes)
    requires Ordered(h, i - 1) && a.StartToolUse? && a.index == i && b == DeltaInput(i, x)
    ensures HearOne(HearOne(HearOne(h, a, true), b, true), Stop(i), true) == h + [Entry(a, x)]
  {
    HearTool(h, i, a, x);
  }

  lemma HearPast(h: seq<Entry>, i: int, a: Event, b: Event, x: Bytes)
    requires a.StartToolUse? && b == DeltaInput(i, x)
    ensures HearOne(HearOne(HearOne(h, a, false), b, false), Stop(i), false) == h
  {
  }

  lemma ToolBlockHeard(t: seq<Event>, i: int, a: Event, b: Event, x: Bytes)
    requires Ordered(Heard(t, true), i - 1) && a.StartToolUse? && a.index == i && b == DeltaInput(i, x)
    ensures Heard(t + [a, b, Stop(i)], false) == Heard(t, false)
    ensures Heard(t + [a, b, Stop(i)], true) == Heard(t, true) + [Entry(a, x)]
  {
    HeardThree(t, a, b, Stop(i), true);
    HeardThree(t, a, b, Stop(i), false);
    HearBlock(Heard(t, true), i, a, b, x);
    HearPast(Heard(t, false), i, a, b, x);
  }

  lemma EmitToolHeard(p: Env, o: Out, call: Call)
    requires p.isStream && !o.hasReturn && Ordered(Heard(o.trace, true), o.blockIndex)
    ensures var t := EmitTool(p, o, call);
      && Heard(t.trace, false) == Heard(o.trace, false)
      && Heard(t.trace, true) == Heard(o.trace, true) + [Entry(StartToolUse(t.blockIndex, call.id, call.name), InputJSON(call.input))]
  {
    var i, x := o.blockIndex + 1, InputJSON(call.input);
    ToolBlockHeard(o.trace, i, StartToolUse(i, call.id, call.name), DeltaInput(i, x), x);
  }

  lemma HeardThree(t: seq<Event>, a: Event, b: Event, c: Event, tools: bool)
    ensures Heard(t + [a, b, c], tools) == HearOne(HearOne(HearOne(Heard(t, tools), a, tools), b, tools), c, tools)
  {
    HeardSnoc(t, a, tools);
    HeardSnoc(t + [a], b, tools);
    HeardSnoc(t + [a] + [b], c, tools);
    AppendThree(t, a, b, c);
  }

  lemma CallAppended(h: seq<Entry>, calls: seq<Call>, i: int, e: Entry, call: Call)
    requires Ordered(h, i - 1) && CallsAre(h, calls) && IsCall(e, call) && e.head.index == i
    ensures Ordered(h + [e], i) && CallsAre(h + [e], calls + [call])
  {
  }

  /** The call is written in the one mode and queued in the other. */
  lemma EmitToolAgrees(p: Env, o: Out, q: Out, t: Tools, call: Call)
    requires p.isStream && Live(o, q) && CallsLive(o, t)
    ensures Live(EmitTool(p, o, call), q) && CallsLive(EmitTool(p, o, call), t.(pending := t.pending + [call]))
  {
    EmitToolHeard(p, o, call);
    var i := o.blockIndex + 1;
    CallAppended(Heard(o.trace, true), t.pending, i, Entry(StartToolUse(i, call.id, call.name), InputJSON(call.input)), call);
  }

  lemma TakeAgrees(p: Env, n: Env, s: State, u: State, call: Call)
    requires Modes(p, n) && Rel(s, u) && call.id != "" && call.name != "" && call.id !in s.tools.handled
    ensures Rel(TakeCall(p, s, call), TakeCall(n, u, call))
  {
    EmitToolAgrees(p, s.out, u.out, u.tools, call);
  }

  /** A call without a name is malformed. */
  ghost predicate NamesNeeded(env: Env) { forall input :: env.evaluate("", input) == None }

  lemma AcceptAgrees(p: Env, n: Env, s: Tools, u: Tools, name: Bytes, input: Bytes)
    requires Modes(p, n) && NamesNeeded(p) && ToolsLive(s, u)
    ensures var (ok, s2) := Accept(p, s, name, input); var (ok2, u2) := Accept(n, u, name, input);
      && ok == ok2 && ToolsLive(s2, u2) && (ok ==> name != "")
      && s2.handled == s.handled && s2.count == s.count && u2.pending == u.pending
  {
  }

  lemma ToolInputEndAgrees(p: Env, n: Env, s: State, u: State, id: Bytes)
    requires Modes(p, n) && NamesNeeded(p) && Rel(s, u)
    ensures Rel(OnToolInputEnd(p, s, id), OnToolInputEnd(n, u, id))
  {
    if id != "" && id in s.tools.names && s.tools.names[id] != "" && id !in s.tools.handled {
      var (name, input) := p.rewrite(s.tools.names[id], Buffered(s.tools, id));
      AcceptAgrees(p, n, ForgetInput(s.tools, id), ForgetInput(u.tools, id), name, input);
      var (ok, t) := Accept(p, ForgetInput(s.tools, id), name, input);
      var (_, v) := Accept(n, ForgetInput(u.tools, id), name, input);
      if ok {
        CountedText(p, s.(tools := t), u.(tools := v), Call(id, name, input), input);
      }
    }
  }

  /** Counting the input's tokens first changes nothing else. */
  lemma CountedText(p: Env, s: State, u: State, call: Call, text: Bytes)
    requires p.isStream && Rel(s, u) && call.id != "" && call.name != "" && call.id !in s.tools.handled
    ensures Rel(TakeCall(p, s.(usage := AddOutput(s.usage, text)), call), TakeCall(p.(isStream := false), u, call))
  {
    EmitToolAgrees(p, s.out, u.out, u.tools, call);
  }

  lemma ToolCallAgrees(p: Env, n: Env, s: State, u: State, id: Bytes, name0: Bytes, input0: Bytes)
    requires Modes(p, n) && NamesNeeded(p) && Rel(s, u)
    ensures Rel(OnToolCall(p, s, id, name0, input0), OnToolCall(n, u, id, name0, input0))
  {
    var (name, input) := p.rewrite(name0, input0);
    AcceptAgrees(p, n, s.tools, u.tools, name, input);
    var (ok, t) := Accept(p, s.tools, name, input);
    var (_, v) := Accept(n, u.tools, name, input);
    if ok && id != "" && id !in s.tools.handled {
      TakeAgrees(p, n, s.(tools := ForgetInput(t, id)), u.(tools := ForgetInput(v, id)), Call(id, name, input));
    }
  }

  // ------------------------------------------------------------------------------ finishing

  function AsBlocks(env: Env, calls: seq<Call>): (r: seq<Block>)
    ensures |r| == |calls| && forall k :: 0 <= k < |r| ==> r[k] == AsBlock(env, calls[k])
  {
    if calls == [] then [] else [AsBlock(env, calls[0])] + AsBlocks(env, calls[1..])
  }

  lemma AppendCons<T>(a: seq<T>, x: T, b: seq<T>)
    ensures (a + [x]) + b == a + ([x] + b)
  {
  }

  lemma {:induction false} FlushQueued(n: Env, q: Out, calls: seq<Call>)
    requires !n.isStream
    ensures FlushOut(n, q, calls) == q.(blocks := q.blocks + AsBlocks(n, calls))
    decreases |calls|
  {
    if calls == [] {
      assert q.blocks + [] == q.blocks;
    } else {
      FlushQueued(n, FlushOne(n, q, calls[0]), calls[1..]);
      AppendCons(q.blocks, AsBlock(n, calls[0]), AsBlocks(n, calls[1..]));
    }
  }

  lemma StopOpenHeard(p: Env, o: Out, tools: bool)
    ensures Heard(StopOpen(p, o).trace, tools) == Heard(o.trace, tools)
  {
    if !o.active.NoBlock? { HeardSnoc(o.trace, Stop(o.active.index), tools); }
  }

  lemma CloseHeard(p: Env, o: Out, reason: Bytes, tokens: int, tools: bool)
    ensures Heard(Close(p, o, reason, tokens).trace, tools) == Heard(o.trace, tools)
  {
    TwoUnheard(o.trace, MessageDelta(reason, tokens), MessageStop, tools);
  }

  lemma TwoUnheard(t: seq<Event>, a: Event, b: Event, tools: bool)
    requires !IsStart(a) && !IsDelta(a) && !IsStart(b) && !IsDelta(b)
    ensures Heard(t + [a] + [b], tools) == Heard(t, tools)
  {
    HeardSnoc(t, a, tools);
    HeardSnoc(t + [a], b, tools);
  }

  lemma FinishHeard(p: Env, s: State, reason: Bytes, tools: bool)
    requires p.isStream && s.tools.pending == []
    ensures Heard(FinishResponse(p, s, reason).out.trace, tools) == Heard(s.out.trace, tools)
  {
    if !s.out.hasReturn {
      var stop := if reason == "tool_use" && !HasToolCalls(s.tools) then "end_turn" else reason;
      var o := s.out.(hasReturn := true, stopReason := stop);
      StopOpenHeard(p, o, tools);
      CloseHeard(p, StopOpen(p, o), stop, CountTokens(p, FlushUsage(p, s.usage, [])).tokens, tools);
    }
  }

  lemma FinishBlocks(n: Env, u: State, reason: Bytes)
    requires !n.isStream && !u.out.hasReturn
    ensures FinishResponse(n, u, reason).out.blocks == u.out.blocks + AsBlocks(n, u.tools.pending)
  {
    var stop := if reason == "tool_use" && !HasToolCalls(u.tools) then "end_turn" else reason;
    FlushQueued(n, u.out.(hasReturn := true, stopReason := stop), u.tools.pending);
  }

  /** The content is what was heard so far with the queued calls at the end. */
  lemma SettledContent(n: Env, t: seq<Event>, blocks: seq<Block>, calls: seq<Call>)
    requires Aligned(Heard(t, false), blocks) && CallsAre(Heard(t, true), calls)
    ensures StoredContent(n, t, blocks + AsBlocks(n, calls))
  {
    PartsSettle(n, Heard(t, false), Heard(t, true), blocks, calls);
  }

  lemma PartsSettle(n: Env, w: seq<Entry>, c: seq<Entry>, blocks: seq<Block>, calls: seq<Call>)
    requires Aligned(w, blocks) && CallsAre(c, calls)
    ensures StoredParts(n, w, c, blocks + AsBlocks(n, calls))
  {
    forall k | 0 <= k < |c| ensures StoredCall(n, c[k], AsBlocks(n, calls)[k]) { CallStored(n, c[k], calls[k]); }
    PartsAppend(n, w, c, blocks, AsBlocks(n, calls));
  }

  lemma PartsAppend(n: Env, w: seq<Entry>, c: seq<Entry>, blocks: seq<Block>, more: seq<Block>)
    requires Aligned(w, blocks) && |c| == |more| && forall k :: 0 <= k < |c| ==> StoredCall(n, c[k], more[k])
    ensures StoredParts(n, w, c, blocks + more)
  {
    var all := blocks + more;
    forall k | 0 <= k < |w| ensures SameText(w[k], all[k]) { assert all[k] == blocks[k]; }
    forall k | 0 <= k < |c| ensures StoredCall(n, c[k], all[|w| + k]) { assert all[|w| + k] == more[k]; }
  }

  lemma CallStored(n: Env, h: Entry, call: Call)
    requires IsCall(h, call)
    ensures StoredCall(n, h, AsBlock(n, call))
  {
  }

  lemma SameHeard(n: Env, t: seq<Event>, t2: seq<Event>, blocks: seq<Block>)
    requires StoredContent(n, t, blocks) && Heard(t, false) == Heard(t2, false) && Heard(t, true) == Heard(t2, true)
    ensures StoredContent(n, t2, blocks)
  {
  }

  /** Whatever stop reasons the modes settle on, they end with the same content: what was heard, and of each call
      heard the value its input parses to. */
  lemma FinishAgrees(p: Env, n: Env, s: State, u: State, r1: Bytes, r2: Bytes)
    requires Modes(p, n) && Rel(s, u)
    ensures Over(n, FinishResponse(p, s, r1), FinishResponse(n, u, r2))
    ensures Heard(FinishResponse(p, s, r1).out.trace, true) == Heard(s.out.trace, true)
  {
    FinishHeard(p, s, r1, true);
    FinishHeard(p, s, r1, false);
    FinishBlocks(n, u, r2);
    SettledContent(n, s.out.trace, u.out.blocks, u.tools.pending);
    SameHeard(n, s.out.trace, FinishResponse(p, s, r1).out.trace, u.out.blocks + AsBlocks(n, u.tools.pending));
    FinishEnds(p, s, r1);
    FinishEnds(n, u, r2);
  }

  lemma {:induction false} FlushEnds(env: Env, o: Out, calls: seq<Call>)
    ensures FlushOut(env, o, calls).hasReturn == o.hasReturn
    decreases |calls|
  {
    if calls != [] {
      FlushEnds(env, FlushOne(env, o, calls[0]), calls[1..]);
    }
  }

  lemma FinishEnds(env: Env, s: State, reason: Bytes)
    ensures FinishResponse(env, s, reason).out.hasReturn
  {
    if !s.out.hasReturn {
      var stop := if reason == "tool_use" && !HasToolCalls(s.tools) then "end_turn" else reason;
      FlushEnds(env, StopOpen(env, s.out.(hasReturn := true, stopReason := stop)), s.tools.pending);
    }
  }

  lemma OutAgrees(s: State, u: State, o: Out, q: Out)
    requires Rel(s, u) && Live(o, q) && SameTools(s.out, o)
    ensures Rel(s.(out := o), u.(out := q))
  {
  }

  /** Both modes skip the same text deltas. */
  lemma SkipAgrees(p: Env, n: Env, m: Memory, w: Memory, d: Bytes, source: Bytes, now: int)
    requires Modes(p, n) && m == w.(responseText := m.responseText)
    ensures var (skip, m2) := SkipText(p, m, d, source, now); var (skip2, w2) := SkipText(n, w, d, source, now);
      && skip == skip2 && m2 == w2.(responseText := m2.responseText)
      && m2.hasTextOutput == m.hasTextOutput && m2.responseText == m.responseText && w2.responseText == w.responseText
  {
  }

  /** What is remembered and counted of a text that is shown, or of one that is skipped. */
  lemma ShownAgrees(s: State, u: State, m: Memory, w: Memory, d: Bytes)
    requires Rel(s, u) && m == w.(responseText := m.responseText)
    requires m.hasTextOutput == s.memory.hasTextOutput && m.responseText == s.memory.responseText && w.responseText == u.memory.responseText
    ensures Rel(s.(memory := m), u.(memory := w))
    ensures Rel(s.(memory := m.(hasTextOutput := true), usage := AddOutput(s.usage, d)),
                u.(memory := w.(hasTextOutput := true, responseText := w.responseText + d), usage := AddOutput(u.usage, d)))
  {
  }

  lemma TextDeltaAgrees(p: Env, n: Env, s: State, u: State, delta: Bytes, source: Bytes, now: int)
    requires Modes(p, n) && Rel(s, u)
    ensures Rel(OnTextDelta(p, s, delta, source, now), OnTextDelta(n, u, delta, source, now))
  {
    if delta != "" {
      var d := p.collapse(delta);
      SkipAgrees(p, n, s.memory, u.memory, d, source, now);
      var (skip, m) := SkipText(p, s.memory, d, source, now);
      var (_, w) := SkipText(n, u.memory, d, source, now);
      if skip {
        ShownAgrees(s, u, m, w, d);
      } else {
        WriteTextAgrees(p, n, s.out, u.out, d);
        OutAgrees(s, u, WriteText(p, s.out, d), WriteText(n, u.out, d));
        ShownAgrees(s.(out := WriteText(p, s.out, d)), u.(out := WriteText(n, u.out, d)), m, w, d);
      }
    }
  }

  lemma HandleThinkingAgrees(p: Env, n: Env, s: State, u: State, m: Input)
    requires Modes(p, n) && Rel(s, u) && IsThinkingInput(m)
    ensures Rel(Handle(p, s, m), Handle(n, u, m))
  {
    match m
    case ReasoningStart(sig) =>
      EnsureThinkingAgrees(p, n, s.out.(pendingSig := sig), u.out.(pendingSig := sig));
      OutAgrees(s, u, OnReasoningStart(p, s.out, sig), OnReasoningStart(n, u.out, sig));
    case ReasoningDelta(sig, delta) =>
      ReasoningAgrees(p, n, s.out, u.out, sig, delta);
      OutAgrees(s, u, ReasoningDeltaOut(p, s.out, sig, delta), ReasoningDeltaOut(n, u.out, sig, delta));
    case ReasoningEnd =>
      CloseAgrees(p, n, s.out, u.out);
      OutAgrees(s, u, CloseActive(p, s.out), CloseActive(n, u.out));
  }

  lemma ToolStartAgrees(p: Env, n: Env, s: State, u: State, id: Bytes, name: Bytes)
    requires Modes(p, n) && Rel(s, u)
    ensures Rel(OnToolInputStart(p, s, id, name), OnToolInputStart(n, u, id, name))
  {
    CloseAgrees(p, n, s.out, u.out);
    OutAgrees(s, u, CloseActive(p, s.out), CloseActive(n, u.out));
  }

  lemma ToolDeltaAgrees(s: State, u: State, id: Bytes, delta: Bytes)
    requires Rel(s, u)
    ensures Rel(s.(tools := OnToolInputDelta(s.tools, id, delta)), u.(tools := OnToolInputDelta(u.tools, id, delta)))
  {
  }

  lemma HandleToolAgrees(p: Env, n: Env, s: State, u: State, m: Input)
    requires Modes(p, n) && NamesNeeded(p) && Rel(s, u) && IsToolInput(m)
    ensures Rel(Handle(p, s, m), Handle(n, u, m))
  {
    match m
    case ToolInputStart(id, name) => ToolStartAgrees(p, n, s, u, id, name);
    case ToolInputDelta(id, delta) => ToolDeltaAgrees(s, u, id, delta);
    case ToolInputEnd(id) => ToolInputEndAgrees(p, n, s, u, id);
    case ToolCall(id, name, input) => ToolCallAgrees(p, n, s, u, id, name, input);
  }

  /** What finishing leaves besides the content. */
  lemma FinishLeaves(env: Env, s: State, reason: Bytes)
    requires !s.out.hasReturn && s.out.active == NoBlock && (env.isStream ==> s.tools.pending == [])
    ensures var t := FinishResponse(env, s, reason);
      && t.out.active == NoBlock && t.out.pendingSig == s.out.pendingSig && t.memory == s.memory
      && t.tools == s.tools.(pending := []) && (env.isStream ==> t.out.blocks == s.out.blocks)
      && (s.tools.pending == [] ==> t.usage.text == s.usage.text)
  {
    if !env.isStream {
      var stop := if reason == "tool_use" && !HasToolCalls(s.tools) then "end_turn" else reason;
      FlushQueued(env, s.out.(hasReturn := true, stopReason := stop), s.tools.pending);
    }
  }

  lemma FinishSettles(p: Env, n: Env, s: State, u: State, r1: Bytes, r2: Bytes)
    requires Modes(p, n) && Rel(s, u) && s.out.active == NoBlock
    ensures Ended(n, FinishResponse(p, s, r1), FinishResponse(n, u, r2))
  {
    FinishAgrees(p, n, s, u, r1, r2);
    FinishLeaves(p, s, r1);
    FinishLeaves(n, u, r2);
    FinishHeard(p, s, r1, true);
    FinishHeard(p, s, r1, false);
  }

  lemma OnFinishAgrees(p: Env, n: Env, s: State, u: State, reason: Bytes, count: Option<int>)
    requires Modes(p, n) && Rel(s, u)
    ensures Ended(n, OnFinish(p, s, reason, count), OnFinish(n, u, reason, count))
    ensures Heard(OnFinish(p, s, reason, count).out.trace, true) == Heard(s.out.trace, true)
  {
    CloseAgrees(p, n, s.out, u.out);
    OutAgrees(s, u, CloseActive(p, s.out), CloseActive(n, u.out));
    FinishSettles(p, n, s.(out := CloseActive(p, s.out), usage := SetUsage(s.usage, count)),
                  u.(out := CloseActive(n, u.out), usage := SetUsage(u.usage, count)),
                  AskedReason(s.tools, reason), AskedReason(u.tools, reason));
    FinishHeard(p, s.(out := CloseActive(p, s.out), usage := SetUsage(s.usage, count)), AskedReason(s.tools, reason), true);
  }

  /** Both modes have handled the same events: still open and alike, or ended with the same content. */
  predicate Agree(n: Env, s: State, u: State) { Rel(s, u) || Ended(n, s, u) }

  lemma HandleAgrees(p: Env, n: Env, s: State, u: State, m: Input)
    requires Modes(p, n) && NamesNeeded(p) && Agree(n, s, u)
    ensures Agree(n, Handle(p, s, m), Handle(n, u, m))
  {
    if Rel(s, u) {
      if p.suppressThinking && IsThinkingInput(m) {
      } else if IsThinkingInput(m) { HandleThinkingAgrees(p, n, s, u, m);
      } else if IsToolInput(m) { HandleToolAgrees(p, n, s, u, m);
      } else {
        match m
        case TextStart =>
          EnsureTextAgrees(p, n, s.out, u.out);
          OutAgrees(s, u, EnsureText(p, s.out), EnsureText(n, u.out));
        case TextDelta(delta, source, now) => TextDeltaAgrees(p, n, s, u, delta, source, now);
        case TextEnd =>
          CloseAgrees(p, n, s.out, u.out);
          OutAgrees(s, u, CloseActive(p, s.out), CloseActive(n, u.out));
        case Finish(reason, count) => OnFinishAgrees(p, n, s, u, reason, count);
        case _ =>
      }
    }
  }

  /** The call an event completes, when it is accepted. */
  function CallOf(env: Env, s: State, m: Input): seq<Call> {
    if s.out.hasReturn then []
    else
      match m
      case ToolInputEnd(id) =>
        if id == "" || id !in s.tools.names || s.tools.names[id] == "" || id in s.tools.handled then []
        else
          var (name, input) := env.rewrite(s.tools.names[id], Buffered(s.tools, id));
          if Accept(env, ForgetInput(s.tools, id), name, input).0 then [Call(id, name, input)] else []
      case ToolCall(id, name0, input0) =>
        if id == "" || id in s.tools.handled then []
        else
          var (name, input) := env.rewrite(name0, input0);
          if Accept(env, s.tools, name, input).0 then [Call(id, name, input)] else []
      case _ => []
  }

  /** The calls accepted while the events are delivered. */
  function Taken(env: Env, s: State, ms: seq<Input>): seq<Call> {
    if ms == [] then []
    else Taken(env, s, ms[..|ms| - 1]) + CallOf(env, Deliver(env, s, ms[..|ms| - 1]), ms[|ms| - 1])
  }

  /** The accepted calls are queued until the response ends. */
  lemma HandleQueues(n: Env, u: State, m: Input)
    requires !n.isStream && !u.out.hasReturn && !m.Finish?
    ensures Handle(n, u, m).tools.pending == u.tools.pending + CallOf(n, u, m) && !Handle(n, u, m).out.hasReturn
  {
  }

  /** The tool blocks heard are the accepted calls, and so are the queued ones until the response ends. */
  predicate Counted(s: State, u: State, calls: seq<Call>) {
    CallsAre(Heard(s.out.trace, true), calls) && (!u.out.hasReturn ==> u.tools.pending == calls)
  }

  lemma FinishCounts(p: Env, n: Env, s: State, u: State, m: Input, calls: seq<Call>)
    requires Modes(p, n) && Rel(s, u) && CallsAre(Heard(s.out.trace, true), calls) && m.Finish?
    ensures Counted(Handle(p, s, m), Handle(n, u, m), calls)
  {
    FinishedCounts(p, n, s, u, m.reason, m.usage, calls, OnFinish(p, s, m.reason, m.usage), OnFinish(n, u, m.reason, m.usage));
    assert Handle(p, s, m) == OnFinish(p, s, m.reason, m.usage);
    assert Handle(n, u, m) == OnFinish(n, u, m.reason, m.usage);
  }

  lemma FinishedCounts(p: Env, n: Env, s: State, u: State, reason: Bytes, count: Option<int>, calls: seq<Call>, t: State, v: State)
    requires Modes(p, n) && Rel(s, u) && CallsAre(Heard(s.out.trace, true), calls)
    requires t == OnFinish(p, s, reason, count) && v == OnFinish(n, u, reason, count)
    ensures Counted(t, v, calls)
  {
    OnFinishAgrees(p, n, s, u, reason, count);
  }

  lemma HandleCounts(p: Env, n: Env, s: State, u: State, m: Input, calls: seq<Call>)
    requires Modes(p, n) && NamesNeeded(p) && Agree(n, s, u) && Counted(s, u, calls)
    ensures Counted(Handle(p, s, m), Handle(n, u, m), calls + CallOf(n, u, m))
  {
    if u.out.hasReturn {
      assert calls + [] == calls;
    } else if m.Finish? {
      FinishCounts(p, n, s, u, m, calls);
      assert calls + [] == calls;
    } else {
      HandleAgrees(p, n, s, u, m);
      HandleQueues(n, u, m);
    }
  }

  /** The two modes agree after any sequence of events, on the accepted calls too. */
  lemma {:induction false} DeliverAgrees(p: Env, n: Env, s: State, u: State, ms: seq<Input>)
    requires Modes(p, n) && NamesNeeded(p) && Agree(n, s, u) && Counted(s, u, [])
    ensures Agree(n, Deliver(p, s, ms), Deliver(n, u, ms)) && Counted(Deliver(p, s, ms), Deliver(n, u, ms), Taken(n, u, ms))
  {
    if ms != [] {
      var front := ms[..|ms| - 1];
      DeliverAgrees(p, n, s, u, front);
      HandleAgrees(p, n, Deliver(p, s, front), Deliver(n, u, front), ms[|ms| - 1]);
      HandleCounts(p, n, Deliver(p, s, front), Deliver(n, u, front), ms[|ms| - 1], Taken(n, u, front));
    }
  }

  // ------------------------------------------------------------------------------ whole runs

  lemma InjectAgrees(p: Env, n: Env, s: State, u: State, text: Bytes)
    requires Modes(p, n) && Rel(s, u)
    ensures Rel(Inject(p, s, text), Inject(n, u, text))
    ensures Heard(Inject(p, s, text).out.trace, true) == Heard(s.out.trace, true)
  {
    EnsureTextAgrees(p, n, s.out, u.out);
    var t, v := EnsureText(p, s.out), EnsureText(n, u.out);
    FragmentAgrees(p, t, v, DeltaText(t.active.index, text));
    OutAgrees(s, u, InjectOut(p, s.out, text), InjectOut(n, u.out, text));
  }

  lemma EndAgrees(p: Env, n: Env, s: State, u: State, text: Option<Bytes>)
    requires Modes(p, n) && Rel(s, u)
    ensures Over(n, EndWith(p, s, text), EndWith(n, u, text))
    ensures Heard(EndWith(p, s, text).out.trace, true) == Heard(s.out.trace, true)
  {
    if text.Some? {
      InjectAgrees(p, n, s, u, text.value);
      FinishAgrees(p, n, Inject(p, s, text.value), Inject(n, u, text.value), "end_turn", "end_turn");
    } else {
      FinishAgrees(p, n, s, u, "end_turn", "end_turn");
    }
  }

  /** A retried attempt leaves both modes alike and blank. */
  lemma ResetAgrees(p: Env, n: Env, s: State, u: State)
    requires Modes(p, n) && Agree(n, s, u) && !HasAnyOutput(s)
    ensures Rel(Reset(p, s), Reset(n, u)) && HasAnyOutput(s) == HasAnyOutput(u)
  {
    if Rel(s, u) { SameOutput(s, u); } else { SameOutputEnded(n, s, u); }
    assert Heard(s.out.trace, false) == [] && Heard(s.out.trace, true) == [];
  }

  /** The last attempt had ended the response and then failed with an error text to show. */
  predicate LateError(env: Env, s: State, attempts: seq<Attempt>, retries: nat)
    requires |attempts| > retries
    decreases retries
  {
    var t := Attempted(env, s, attempts[0]);
    if Retried(t, attempts[0], retries) then LateError(env, t, attempts[1..], retries - 1)
    else HasFinish(attempts[0].events) && Shows(t, attempts[0].result, retries)
  }

  /** The loop ends with an error text. */
  predicate Shows(t: State, r: Result, retries: nat) {
    r.Failed? && (HasAnyOutput(t) || (Decide(r.failure, retries).GiveUp? && Decide(r.failure, retries).text.Some?))
  }

  /** Where both modes are at the head of the loop. */
  ghost predicate AtLoop(p: Env, n: Env, s: State, u: State) { exists t, v :: RoundStarts(p, n, s, u, t, v) }

  predicate RoundStarts(p: Env, n: Env, s: State, u: State, t: State, v: State) {
    t == Reset(p, s) && v == Reset(n, u) && Rel(t, v) && Inv(s) && s.out.active == NoBlock
  }

  lemma AttemptAgrees(p: Env, n: Env, s: State, u: State, a: Attempt)
    requires Modes(p, n) && NamesNeeded(p) && AtLoop(p, n, s, u)
    ensures var t, v := Attempted(p, s, a), Attempted(n, u, a);
      && (if HasFinish(a.events) then Ended(n, t, v) else Rel(t, v))
      && CallsAre(Heard(t.out.trace, true), Taken(n, Reset(n, u), a.events))
  {
    DeliverAgrees(p, n, Reset(p, s), Reset(n, u), a.events);
    AttemptKeeps(p, s, a);
  }

  lemma RetryAgrees(p: Env, n: Env, s: State, u: State, a: Attempt, retries: nat)
    requires Modes(p, n) && NamesNeeded(p) && AtLoop(p, n, s, u) && Retried(Attempted(p, s, a), a, retries)
    ensures retries > 0 && Retried(Attempted(n, u, a), a, retries) && AtLoop(p, n, Attempted(p, s, a), Attempted(n, u, a))
  {
    AttemptAgrees(p, n, s, u, a);
    RetriedWrote(p, s, a, retries);
    ResetAgrees(p, n, Attempted(p, s, a), Attempted(n, u, a));
    assert RoundStarts(p, n, Attempted(p, s, a), Attempted(n, u, a), Reset(p, Attempted(p, s, a)), Reset(n, Attempted(n, u, a)));
  }

  /** The calls the last attempt accepts. */
  function LastCalls(env: Env, s: State, attempts: seq<Attempt>, retries: nat): seq<Call>
    requires |attempts| > retries
    decreases retries
  {
    var t := Attempted(env, s, attempts[0]);
    if Retried(t, attempts[0], retries) then LastCalls(env, t, attempts[1..], retries - 1)
    else Taken(env, Reset(env, s), attempts[0].events)
  }

  /** The content array is what was heard and stored; or, after a late error, one block longer. */
  predicate Settled(n: Env, t: seq<Event>, blocks: seq<Block>, calls: seq<Call>, late: bool) {
    if late then |blocks| == |Heard(t, false)| + |Heard(t, true)| + 1
    else StoredContent(n, t, blocks) && CallsAre(Heard(t, true), calls)
  }

  /** `x` and `y` are where the loop ends in the two modes. */
  predicate Ends(p: Env, n: Env, s: State, u: State, attempts: seq<Attempt>, retries: nat, x: State, y: State)
    requires |attempts| > retries
  {
    x == RunFrom(p, s, attempts, retries) && y == RunFrom(n, u, attempts, retries)
  }

  /** The loop in both modes from one attempt on, where it ends, and what it comes to. */
  datatype Course = Course(p: Env, n: Env, x: State, y: State, calls: seq<Call>, late: bool)

  ghost predicate OnCourse(k: Course, s: State, u: State, attempts: seq<Attempt>, retries: nat) {
    && Modes(k.p, k.n) && NamesNeeded(k.p) && |attempts| > retries && AtLoop(k.p, k.n, s, u)
    && Ends(k.p, k.n, s, u, attempts, retries, k.x, k.y)
    && k.calls == LastCalls(k.n, u, attempts, retries) && k.late == LateError(k.p, s, attempts, retries)
  }

  ghost predicate Arrived(k: Course) { Settled(k.n, k.x.out.trace, k.y.out.blocks, k.calls, k.late) }

  /** The claim for one position of the loop. */
  ghost predicate Arrives(k: Course, s: State, u: State, attempts: seq<Attempt>, retries: nat) {
    OnCourse(k, s, u, attempts, retries) ==> Arrived(k)
  }

  /** One turn: both modes go on to the next attempt, or both have settled. */
  lemma LoopTurns(k: Course, s: State, u: State, attempts: seq<Attempt>, retries: nat)
    requires OnCourse(k, s, u, attempts, retries)
    ensures if Retried(Attempted(k.p, s, attempts[0]), attempts[0], retries) then
              retries > 0 && OnCourse(k, Attempted(k.p, s, attempts[0]), Attempted(k.n, u, attempts[0]), attempts[1..], retries - 1)
            else Arrived(k)
  {
    if Retried(Attempted(k.p, s, attempts[0]), attempts[0], retries) {
      RetryAgrees(k.p, k.n, s, u, attempts[0], retries);
      EndsStep(k.p, k.n, s, u, attempts, retries, k.x, k.y);
    } else {
      NotRetriedSettles(k.p, k.n, s, u, attempts, retries, k.x, k.y, k.calls);
    }
  }

  ghost predicate ArrivesFrom(k: Course, attempts: seq<Attempt>, retries: nat) {
    forall s, u :: Arrives(k, s, u, attempts, retries)
  }

  lemma TurnArrives(k: Course, s: State, u: State, attempts: seq<Attempt>, retries: nat)
    requires |attempts| > retries
    requires retries > 0 ==> ArrivesFrom(k, attempts[1..], retries - 1)
    ensures Arrives(k, s, u, attempts, retries)
  {
    if OnCourse(k, s, u, attempts, retries) {
      LoopTurns(k, s, u, attempts, retries);
      if retries > 0 {
        assert Arrives(k, Attempted(k.p, s, attempts[0]), Attempted(k.n, u, attempts[0]), attempts[1..], retries - 1);
      }
    }
  }

  lemma {:induction false} RunFromSettles(k: Course, attempts: seq<Attempt>, retries: nat)
    requires |attempts| > retries
    ensures ArrivesFrom(k, attempts, retries)
    decreases retries
  {
    if retries > 0 { RunFromSettles(k, attempts[1..], retries - 1); }
    forall s, u ensures Arrives(k, s, u, attempts, retries) { TurnArrives(k, s, u, attempts, retries); }
  }

  lemma EndsStep(p: Env, n: Env, s: State, u: State, attempts: seq<Attempt>, retries: nat, x: State, y: State)
    requires |attempts| > retries && Retried(Attempted(p, s, attempts[0]), attempts[0], retries)
    requires Retried(Attempted(n, u, attempts[0]), attempts[0], retries) && Ends(p, n, s, u, attempts, retries, x, y)
    ensures Ends(p, n, Attempted(p, s, attempts[0]), Attempted(n, u, attempts[0]), attempts[1..], retries - 1, x, y)
    ensures LastCalls(n, u, attempts, retries) == LastCalls(n, Attempted(n, u, attempts[0]), attempts[1..], retries - 1)
    ensures LateError(p, s, attempts, retries) == LateError(p, Attempted(p, s, attempts[0]), attempts[1..], retries - 1)
  {
    RunSteps(p, s, attempts, retries);
    RunSteps(n, u, attempts, retries);
  }

  lemma NotRetriedSettles(
      p: Env, n: Env, s: State, u: State, attempts: seq<Attempt>, retries: nat, x: State, y: State, calls: seq<Call>)
    requires Modes(p, n) && NamesNeeded(p) && |attempts| > retries && AtLoop(p, n, s, u)
    requires !Retried(Attempted(p, s, attempts[0]), attempts[0], retries)
    requires Ends(p, n, s, u, attempts, retries, x, y) && calls == LastCalls(n, u, attempts, retries)
    ensures Settled(n, x.out.trace, y.out.blocks, calls, LateError(p, s, attempts, retries))
  {
    AttemptAgrees(p, n, s, u, attempts[0]);
    if HasFinish(attempts[0].events) { EndedSettles(p, n, s, u, attempts, retries, x, y, calls); }
    else { LastSettles(p, n, s, u, attempts, retries, x, y, calls); }
  }

  /** An error after the end goes into the builder only. */
  lemma LateInject(p: Env, n: Env, t: State, v: State, text: Bytes)
    requires Modes(p, n) && Ended(n, t, v)
    ensures EndWith(p, t, Some(text)).out.trace == t.out.trace
    ensures |EndWith(n, v, Some(text)).out.blocks| == |v.out.blocks| + 1
  {
  }

  lemma EndedSettles(p: Env, n: Env, s: State, u: State, attempts: seq<Attempt>, retries: nat,
                      x: State, y: State, calls: seq<Call>)
    requires Modes(p, n) && |attempts| > retries && HasFinish(attempts[0].events)
    requires Ended(n, Attempted(p, s, attempts[0]), Attempted(n, u, attempts[0]))
    requires CallsAre(Heard(Attempted(p, s, attempts[0]).out.trace, true), Taken(n, Reset(n, u), attempts[0].events))
    requires !Retried(Attempted(p, s, attempts[0]), attempts[0], retries)
    requires Ends(p, n, s, u, attempts, retries, x, y) && calls == LastCalls(n, u, attempts, retries)
    ensures Settled(n, x.out.trace, y.out.blocks, calls, LateError(p, s, attempts, retries))
  {
    var t, v := Attempted(p, s, attempts[0]), Attempted(n, u, attempts[0]);
    SameOutputEnded(n, t, v);
    match attempts[0].result
    case Success =>
    case Failed(f) =>
      if HasAnyOutput(t) { LateInject(p, n, t, v, f.upstreamText); }
      else if Decide(f, retries).text.Some? { LateInject(p, n, t, v, Decide(f, retries).text.value); }
  }

  lemma LastSettles(p: Env, n: Env, s: State, u: State, attempts: seq<Attempt>, retries: nat,
                      x: State, y: State, calls: seq<Call>)
    requires Modes(p, n) && |attempts| > retries && !HasFinish(attempts[0].events)
    requires Rel(Attempted(p, s, attempts[0]), Attempted(n, u, attempts[0]))
    requires CallsAre(Heard(Attempted(p, s, attempts[0]).out.trace, true), Taken(n, Reset(n, u), attempts[0].events))
    requires !Retried(Attempted(p, s, attempts[0]), attempts[0], retries)
    requires Ends(p, n, s, u, attempts, retries, x, y) && calls == LastCalls(n, u, attempts, retries)
    ensures Settled(n, x.out.trace, y.out.blocks, calls, LateError(p, s, attempts, retries))
  {
    var t, v := Attempted(p, s, attempts[0]), Attempted(n, u, attempts[0]);
    SameOutput(t, v);
    match attempts[0].result
    case Success =>
      FinishAgrees(p, n, t, v, if HasToolCalls(t.tools) then "tool_use" else "end_turn", if HasToolCalls(v.tools) then "tool_use" else "end_turn");
    case Failed(f) =>
      if HasAnyOutput(t) { EndAgrees(p, n, t, v, Some(f.upstreamText)); }
      else { EndAgrees(p, n, t, v, Decide(f, retries).text); }
  }

  lemma {:induction false} EndsOnceIsNotLate(env: Env, s: State, attempts: seq<Attempt>, retries: nat)
    requires |attempts| > retries && EndsOnce(attempts)
    ensures !LateError(env, s, attempts, retries)
    decreases retries
  {
    if Retried(Attempted(env, s, attempts[0]), attempts[0], retries) {
      EndsOnceIsNotLate(env, Attempted(env, s, attempts[0]), attempts[1..], retries - 1);
    }
  }

  /** Every input is JSON as it is written. */
  predicate AllParse(env: Env, calls: seq<Call>) { forall k :: 0 <= k < |calls| ==> env.parse(InputJSON(calls[k].input)).Some? }

  /** What is stored is what was written exactly when every input parses. */
  lemma StoredIsSame(n: Env, t: seq<Event>, blocks: seq<Block>, calls: seq<Call>)
    requires StoredContent(n, t, blocks) && CallsAre(Heard(t, true), calls)
    ensures SameContent(n, t, blocks) <==> AllParse(n, calls)
  {
    var w, c := Heard(t, false), Heard(t, true);
    forall k | 0 <= k < |c| ensures SameCall(n, c[k], blocks[|w| + k]) <==> n.parse(InputJSON(calls[k].input)).Some? {
      assert IsCall(c[k], calls[k]) && StoredCall(n, c[k], blocks[|w| + k]);
    }
  }

  /** The loop of a whole run. */
  function CourseOf(p: Env, n: Env, s: State, u: State, attempts: seq<Attempt>, retries: nat): Course
    requires |attempts| > retries
  {
    Course(p, n, RunFrom(p, s, attempts, retries), RunFrom(n, u, attempts, retries),
           LastCalls(n, u, attempts, retries), LateError(p, s, attempts, retries))
  }

  /** The whole run is the loop from its start on. */
  lemma RunIsOnCourse(p: Env, n: Env, start: Event, seeds: set<Bytes>, attempts: seq<Attempt>, retries: nat)
    requires Modes(p, n) && NamesNeeded(p) && |attempts| > retries && start.MessageStart?
    ensures var s, u := Opened(p, start, seeds), Opened(n, start, seeds);
      var k := CourseOf(p, n, s, u, attempts, retries);
      && OnCourse(k, s, u, attempts, retries)
      && Run(p, start, seeds, attempts, retries) == k.x && Run(n, start, seeds, attempts, retries) == k.y
  {
    var s, u := Opened(p, start, seeds), Opened(n, start, seeds);
    StartedReads(p, start, seeds);
    HeardSnoc([], start, true);
    HeardSnoc([], start, false);
    assert [] + [start] == [start];
    assert RoundStarts(p, n, s, u, Reset(p, s), Reset(n, u));
    RunEnds(p, s, attempts, retries);
    RunEnds(n, u, attempts, retries);
  }

  /** A whole run in both modes settles. */
  lemma RunSettles(p: Env, n: Env, start: Event, seeds: set<Bytes>, attempts: seq<Attempt>, retries: nat)
    requires Modes(p, n) && NamesNeeded(p) && |attempts| > retries && start.MessageStart?
    ensures Settled(n, Run(p, start, seeds, attempts, retries).out.trace, Run(n, start, seeds, attempts, retries).out.blocks,
                    LastCalls(n, Opened(n, start, seeds), attempts, retries), LateError(p, Opened(p, start, seeds), attempts, retries))
  {
    var s, u := Opened(p, start, seeds), Opened(n, start, seeds);
    var k := CourseOf(p, n, s, u, attempts, retries);
    RunIsOnCourse(p, n, start, seeds, attempts, retries);
    RunFromSettles(k, attempts, retries);
    assert Arrives(k, s, u, attempts, retries);
  }

  /** Over a whole run, retries included, the content array of the non-streaming response has the blocks a client
      hears in the stream, the text and thinking blocks in their order and then the tool blocks in theirs, if and
      only if the client does not fail after `model.finish` with an error put on show, and the input of every call
      the last attempt accepts is JSON. */
  lemma RunAgrees(p: Env, n: Env, start: Event, seeds: set<Bytes>, attempts: seq<Attempt>, retries: nat)
    requires Modes(p, n) && NamesNeeded(p) && |attempts| > retries && start.MessageStart?
    ensures SameContent(n, Run(p, start, seeds, attempts, retries).out.trace, Run(n, start, seeds, attempts, retries).out.blocks)
      <==> !LateError(p, Opened(p, start, seeds), attempts, retries) && AllParse(n, LastCalls(n, Opened(n, start, seeds), attempts, retries))
    ensures EndsOnce(attempts) ==> !LateError(p, Opened(p, start, seeds), attempts, retries)
  {
    RunSettles(p, n, start, seeds, attempts, retries);
    if !LateError(p, Opened(p, start, seeds), attempts, retries) {
      StoredIsSame(n, Run(p, start, seeds, attempts, retries).out.trace, Run(n, start, seeds, attempts, retries).out.blocks,
                   LastCalls(n, Opened(n, start, seeds), attempts, retries));
    }
    if EndsOnce(attempts) { EndsOnceIsNotLate(p, Opened(p, start, seeds), attempts, retries); }
  }

  /** The loop leaves the response ended. */
  lemma {:induction false} RunEnds(env: Env, s: State, attempts: seq<Attempt>, retries: nat)
    requires |attempts| > retries
    ensures RunFrom(env, s, attempts, retries).out.hasReturn
    decreases retries
  {
    var t := Attempted(env, s, attempts[0]);
    match attempts[0].result
    case Success => FinishEnds(env, t, if HasToolCalls(t.tools) then "tool_use" else "end_turn");
    case Failed(f) =>
      if Retried(t, attempts[0], retries) { RunEnds(env, t, attempts[1..], retries - 1); }
      else {
        var text := if HasAnyOutput(t) then Some(f.upstreamText) else Decide(f, retries).text;
        FinishEnds(env, if text.Some? then Inject(env, t, text.value) else t, "end_turn");
      }
  }
}
