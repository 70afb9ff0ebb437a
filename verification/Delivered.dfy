/** What a client hears of an attempt, and the calls it is given, read off the events that were delivered: the meaning
    is stated by position in the events, and the handler is shown to have it. */
module Delivered {
  import opened Bytes
  import opened Picking
  import opened SseEvent
  import opened HandlerSpec
  import opened HandlerRuns
  import opened HandlerModes
  import opened BlockOrder

  // ---------------------------------------------------------------- the text, by position

  /** The response has ended before event `n`. */
  predicate Closed(ms: seq<Input>, n: int) { exists k :: 0 <= k < n && k < |ms| && ms[k].Finish? }

  /** Event `k` is a text delta that comes in time and holds something. */
  predicate IsText(ms: seq<Input>, k: int) { 0 <= k < |ms| && ms[k].TextDelta? && ms[k].delta != "" && !Closed(ms, k) }

  /** Its text, with a doubled greeting collapsed. */
  function Text(env: Env, ms: seq<Input>, k: int): Bytes
    requires IsText(ms, k)
  {
    env.collapse(ms[k].delta)
  }

  /** The text of event `k` is a greeting of this kind. */
  predicate Greets(env: Env, ms: seq<Input>, k: int, key: Bytes) { IsText(ms, k) && env.introKey(Text(env, ms, k)) == key }

  predicate Greeted(env: Env, seen: set<Bytes>, ms: seq<Input>, n: int, key: Bytes) {
    key in seen || exists k :: 0 <= k < n && Greets(env, ms, k, key)
  }

  /** A greeting of a kind that came before. */
  predicate GreetsAgain(env: Env, seen: set<Bytes>, ms: seq<Input>, k: int) {
    IsText(ms, k) && env.introKey(Text(env, ms, k)) != "" && Greeted(env, seen, ms, k, env.introKey(Text(env, ms, k)))
  }

  /** A text that may be echoed: not blank, from a named source, and no repeated greeting. */
  predicate Noted(env: Env, seen: set<Bytes>, ms: seq<Input>, k: int) {
    IsText(ms, k) && !GreetsAgain(env, seen, ms, k) && TrimSpace(Text(env, ms, k)) != "" && ms[k].source != ""
  }

  predicate LastNoted(env: Env, seen: set<Bytes>, ms: seq<Input>, n: int, j: int) {
    0 <= j < n && Noted(env, seen, ms, j) && forall i :: j < i < n ==> !Noted(env, seen, ms, i)
  }

  /** Event `k` repeats the last noted text from another source within two seconds. */
  predicate Echoes(env: Env, seen: set<Bytes>, ms: seq<Input>, k: int) {
    && Noted(env, seen, ms, k)
    && exists j :: 0 <= j < k && LastNoted(env, seen, ms, k, j)
         && Text(env, ms, j) == Text(env, ms, k) && ms[j].source != ms[k].source && ms[k].now - ms[j].now <= 2000
  }

  /** What is said: a piece of text or of thinking. */
  datatype Said = Spoke(text: Bytes) | Thought(text: Bytes)

  /** What event `k` says: a text that is neither a repeated greeting nor an echo, or a thought unless they are
      suppressed. */
  function Says(env: Env, seen: set<Bytes>, ms: seq<Input>, k: int): seq<Said>
    requires 0 <= k < |ms|
  {
    if IsText(ms, k) then
      if GreetsAgain(env, seen, ms, k) || Echoes(env, seen, ms, k) then [] else [Spoke(Text(env, ms, k))]
    else if ms[k].ReasoningDelta? && ms[k].delta != "" && !env.suppressThinking && !Closed(ms, k) then [Thought(ms[k].delta)]
    else []
  }

  /** What the first `n` events say; `seen` are the greetings of earlier attempts. */
  function SaidIn(env: Env, seen: set<Bytes>, ms: seq<Input>, n: int): seq<Said>
    requires 0 <= n <= |ms|
    decreases n
  {
    if n == 0 then [] else SaidIn(env, seen, ms, n - 1) + Says(env, seen, ms, n - 1)
  }

  /** What a client hears in an event. */
  function SaidBy(e: Event): Option<Said> {
    match e
    case DeltaText(_, t) => Some(Spoke(t))
    case DeltaThinking(_, t) => Some(Thought(t))
    case _ => None
  }

  function SaidOn(t: seq<Event>): seq<Said> { Picked(t, SaidBy) }

  // --------------------------------------------------------------- what is written for an event

  /** From `o` to `p` this is said. */
  predicate Adds(o: Out, p: Out, more: seq<Said>) { SaidOn(p.trace) == SaidOn(o.trace) + more && p.hasReturn == o.hasReturn }

  lemma EmitAdds(env: Env, o: Out, e: Event)
    requires env.isStream && !o.hasReturn
    ensures Adds(o, Emit(env, o, e), if SaidBy(e).Some? then [SaidBy(e).value] else [])
  {
    PickedSnoc(o.trace, e, SaidBy);
  }

  lemma CloseAdds(env: Env, o: Out)
    requires env.isStream && !o.hasReturn
    ensures Adds(o, CloseActive(env, o), [])
  {
    if o.active != NoBlock { EmitAdds(env, o.(active := NoBlock), Stop(o.active.index)); }
  }

  lemma EnsureTextAdds(env: Env, o: Out)
    requires env.isStream && !o.hasReturn
    ensures Adds(o, EnsureText(env, o), []) && EnsureText(env, o).active.ActiveText?
  {
    if !o.active.ActiveText? {
      CloseAdds(env, o);
      var c := CloseActive(env, o);
      var i := c.blockIndex + 1;
      EmitAdds(env, c.(blockIndex := i, active := ActiveText(i, |c.blocks|), blocks := c.blocks + [TextBlock("")]), StartText(i));
    }
  }

  lemma EnsureThinkingAdds(env: Env, o: Out)
    requires env.isStream && !o.hasReturn && !env.suppressThinking
    ensures Adds(o, EnsureThinking(env, o), []) && EnsureThinking(env, o).active.ActiveThinking?
  {
    if !o.active.ActiveThinking? {
      CloseAdds(env, o);
      var c := CloseActive(env, o);
      var i := c.blockIndex + 1;
      EmitAdds(env, c.(blockIndex := i, pendingSig := "", active := ActiveThinking(i, |c.blocks|),
                       blocks := c.blocks + [ThinkingBlock(c.pendingSig, "")]), StartThinking(i, c.pendingSig));
    }
  }

  lemma WriteTextAdds(env: Env, o: Out, delta: Bytes)
    requires env.isStream && !o.hasReturn
    ensures Adds(o, WriteText(env, o, delta), [Spoke(delta)])
  {
    EnsureTextAdds(env, o);
    var t := EnsureText(env, o);
    EmitAdds(env, AppendText(t, t.active.block, delta), DeltaText(t.active.index, delta));
  }

  lemma WriteThinkingAdds(env: Env, o: Out, delta: Bytes)
    requires env.isStream && !o.hasReturn && !env.suppressThinking
    ensures Adds(o, WriteThinking(env, o, delta), [Thought(delta)])
  {
    EnsureThinkingAdds(env, o);
    var t := EnsureThinking(env, o);
    EmitAdds(env, AppendText(t, t.active.block, delta), DeltaThinking(t.active.index, delta));
  }

  lemma FillAdds(o: Out, sig: Bytes)
    ensures var p := FillSignature(o, sig); p.trace == o.trace && p.hasReturn == o.hasReturn
  {
  }

  lemma ReasoningAdds(env: Env, o: Out, sig0: Bytes, delta: Bytes)
    requires env.isStream && !o.hasReturn && !env.suppressThinking
    ensures Adds(o, ReasoningDeltaOut(env, o, sig0, delta), if delta != "" then [Thought(delta)] else [])
  {
    var sig := Signature(o, sig0);
    var t := o.(pendingSig := sig);
    FillAdds(t, sig);
    if delta == "" {
      EnsureThinkingAdds(env, t);
      FillAdds(EnsureThinking(env, t), sig);
    } else {
      WriteThinkingAdds(env, if sig != "" then FillSignature(t, sig) else t, delta);
    }
  }

  lemma ThreeAdd(t: seq<Event>, i: int, call: Call)
    ensures SaidOn(t + ToolEvents(i, call)) == SaidOn(t)
  {
    var es := ToolEvents(i, call);
    assert t + es == ((t + [es[0]]) + [es[1]]) + [es[2]];
    PickedSnoc(t, es[0], SaidBy);
    PickedSnoc(t + [es[0]], es[1], SaidBy);
    PickedSnoc((t + [es[0]]) + [es[1]], es[2], SaidBy);
  }

  lemma EmitToolAdds(env: Env, o: Out, call: Call)
    ensures Adds(o, EmitTool(env, o, call), [])
  {
    ThreeAdd(o.trace, o.blockIndex + 1, call);
  }

  lemma TakeAdds(env: Env, s: State, call: Call)
    ensures Adds(s.out, TakeCall(env, s, call).out, [])
  {
    EmitToolAdds(env, s.out, call);
  }

  lemma InputEndAdds(env: Env, s: State, id: Bytes)
    ensures Adds(s.out, OnToolInputEnd(env, s, id).out, [])
  {
    if id != "" && id in s.tools.names {
      var (name, input) := env.rewrite(s.tools.names[id], Buffered(s.tools, id));
      var u := Accept(env, ForgetInput(s.tools, id), name, input).1;
      TakeAdds(env, s.(tools := u, usage := if env.isStream then AddOutput(s.usage, input) else s.usage), Call(id, name, input));
    }
  }

  lemma ToolCallAdds(env: Env, s: State, id: Bytes, name0: Bytes, input0: Bytes)
    ensures Adds(s.out, OnToolCall(env, s, id, name0, input0).out, [])
  {
    var (name, input) := env.rewrite(name0, input0);
    TakeAdds(env, s.(tools := ForgetInput(Accept(env, s.tools, name, input).1, id)), Call(id, name, input));
  }

  lemma ToolAdds(env: Env, s: State, m: Input)
    requires env.isStream && !s.out.hasReturn && IsToolInput(m)
    ensures Adds(s.out, Handle(env, s, m).out, [])
  {
    match m
    case ToolInputStart(id, name) => CloseAdds(env, s.out);
    case ToolInputDelta(id, delta) =>
    case ToolInputEnd(id) => InputEndAdds(env, s, id);
    case ToolCall(id, name, input) => ToolCallAdds(env, s, id, name, input);
  }

  lemma {:induction false} FlushAdds(env: Env, o: Out, calls: seq<Call>)
    ensures SaidOn(FlushOut(env, o, calls).trace) == SaidOn(o.trace)
    decreases |calls|
  {
    if calls != [] {
      ThreeAdd(o.trace, o.blockIndex + 1, calls[0]);
      FlushAdds(env, FlushOne(env, o, calls[0]), calls[1..]);
    }
  }

  lemma FinalAdds(env: Env, o: Out, reason: Bytes, tokens: int)
    requires env.isStream
    ensures SaidOn(StopOpen(env, o).trace) == SaidOn(o.trace) && SaidOn(Close(env, o, reason, tokens).trace) == SaidOn(o.trace)
  {
    if o.active != NoBlock { PickedSnoc(o.trace, Stop(o.active.index), SaidBy); }
    PickedSnoc(o.trace, MessageDelta(reason, tokens), SaidBy);
    PickedSnoc(o.trace + [MessageDelta(reason, tokens)], MessageStop, SaidBy);
  }

  lemma FinishAdds(env: Env, s: State, reason: Bytes)
    requires env.isStream
    ensures SaidOn(FinishResponse(env, s, reason).out.trace) == SaidOn(s.out.trace)
  {
    if !s.out.hasReturn {
      var stop := if reason == "tool_use" && !HasToolCalls(s.tools) then "end_turn" else reason;
      var u := CountTokens(env, FlushUsage(env, s.usage, s.tools.pending));
      EndAdds(env, s.out.(hasReturn := true, stopReason := stop), s.tools.pending, stop, u.tokens);
    }
  }

  lemma EndAdds(env: Env, o: Out, calls: seq<Call>, stop: Bytes, tokens: int)
    requires env.isStream
    ensures SaidOn(Close(env, FlushOut(env, StopOpen(env, o), calls), stop, tokens).trace) == SaidOn(o.trace)
  {
    FinalAdds(env, o, stop, tokens);
    FlushAdds(env, StopOpen(env, o), calls);
    FinalAdds(env, FlushOut(env, StopOpen(env, o), calls), stop, tokens);
  }

  /** What an event makes a handler with this memory say. */
  function Uttered(env: Env, w: Memory, m: Input): seq<Said> {
    if m.TextDelta? && m.delta != "" && !SkipText(env, w, env.collapse(m.delta), m.source, m.now).0 then [Spoke(env.collapse(m.delta))]
    else if m.ReasoningDelta? && m.delta != "" && !env.suppressThinking then [Thought(m.delta)]
    else []
  }

  lemma HandleAdds(env: Env, s: State, m: Input)
    requires env.isStream && !s.out.hasReturn
    ensures SaidOn(Handle(env, s, m).out.trace) == SaidOn(s.out.trace) + Uttered(env, s.memory, m)
    ensures !m.Finish? ==> !Handle(env, s, m).out.hasReturn
  {
    if IsToolInput(m) { ToolAdds(env, s, m); }
    else if env.suppressThinking && IsThinkingInput(m) { }
    else {
      match m
      case ReasoningStart(sig) => if sig != "" { EnsureThinkingAdds(env, s.out.(pendingSig := sig)); }
      case ReasoningDelta(sig, delta) => ReasoningAdds(env, s.out, sig, delta);
      case ReasoningEnd => CloseAdds(env, s.out);
      case TextStart => EnsureTextAdds(env, s.out);
      case TextDelta(delta, source, now) => WriteTextAdds(env, s.out, env.collapse(delta));
      case TextEnd => CloseAdds(env, s.out);
      case Finish(reason, count) =>
        CloseAdds(env, s.out);
        FinishAdds(env, s.(out := CloseActive(env, s.out), usage := SetUsage(s.usage, count)), AskedReason(s.tools, reason));
      case _ =>
    }
  }

  /** The thinking block that is open, if any. */
  function OpenThought(o: Out): Option<Block> {
    if o.active.ActiveThinking? && o.active.block < |o.blocks| && o.blocks[o.active.block].ThinkingBlock? then Some(o.blocks[o.active.block])
    else None
  }

  /** A thought, or a signature for one, lands in the open thinking block or in a new one, which a streaming client is
      told of with its signature. The block's signature is the first that is not empty: the pending one before the
      delta's own. No other block changes. */
  lemma ThoughtLands(env: Env, s: State, sig0: Bytes, delta: Bytes)
    requires !s.out.hasReturn && !env.suppressThinking && ActiveInBlocks(s.out)
    ensures var o, t := s.out, Handle(env, s, ReasoningDelta(sig0, delta)).out;
      var sig := if o.pendingSig != "" then o.pendingSig else sig0;
      if delta == "" && sig == "" then t.blocks == o.blocks && t.trace == o.trace
      else
        && OpenThought(t) == Some(
             if OpenThought(o).None? then ThinkingBlock(sig, delta)
             else ThinkingBlock(if OpenThought(o).value.signature != "" then OpenThought(o).value.signature else sig,
                                OpenThought(o).value.text + delta))
        && |t.blocks| == |o.blocks| + (if OpenThought(o).None? then 1 else 0)
        && (forall k :: 0 <= k < |o.blocks| && k != t.active.block ==> t.blocks[k] == o.blocks[k])
        && (env.isStream && OpenThought(o).None? ==> StartThinking(t.active.index, sig) in t.trace)
  {
    var o := s.out;
    var sig := if o.pendingSig != "" then o.pendingSig else sig0;
    var p := o.(pendingSig := sig);
    assert OpenThought(p) == OpenThought(o);
    FilledThought(p, sig);
    if delta == "" {
      assert OpenThought(o).Some? ==> OpenThought(o).value.text + "" == OpenThought(o).value.text;
      if sig != "" {
        EnsuredThought(env, p);
        FilledThought(EnsureThinking(env, p), sig);
      }
    } else {
      WrittenThought(env, if sig != "" then FillSignature(p, sig) else p, delta);
    }
  }

  function Signed(b: Block, sig: Bytes): Block
    requires b.ThinkingBlock?
  {
    if b.signature == "" then b.(signature := sig) else b
  }

  lemma FilledThought(o: Out, sig: Bytes)
    requires ActiveInBlocks(o)
    ensures var t := FillSignature(o, sig);
      && t.(blocks := o.blocks) == o && |t.blocks| == |o.blocks| && ActiveInBlocks(t)
      && OpenThought(t) == (if OpenThought(o).Some? then Some(Signed(OpenThought(o).value, sig)) else None)
      && forall k :: 0 <= k < |o.blocks| && (OpenThought(o).None? || k != o.active.block) ==> t.blocks[k] == o.blocks[k]
  {
  }

  lemma WrittenThought(env: Env, o: Out, delta: Bytes)
    requires !o.hasReturn && !env.suppressThinking && ActiveInBlocks(o)
    ensures var t := WriteThinking(env, o, delta);
      && OpenThought(t) == Some(
           if OpenThought(o).None? then ThinkingBlock(o.pendingSig, delta)
           else OpenThought(o).value.(text := OpenThought(o).value.text + delta))
      && |t.blocks| == |o.blocks| + (if OpenThought(o).None? then 1 else 0)
      && (forall k :: 0 <= k < |o.blocks| && k != t.active.block ==> t.blocks[k] == o.blocks[k])
      && (OpenThought(o).Some? ==> t.active == o.active)
      && (env.isStream && OpenThought(o).None? ==> StartThinking(t.active.index, o.pendingSig) in t.trace)
  {
    EnsuredThought(env, o);
    assert "" + delta == delta;
  }

  lemma EnsuredThought(env: Env, o: Out)
    requires !o.hasReturn && !env.suppressThinking && ActiveInBlocks(o)
    ensures var t := EnsureThinking(env, o);
      if OpenThought(o).Some? then t == o
      else
        && OpenThought(t) == Some(ThinkingBlock(o.pendingSig, "")) && t.blocks == o.blocks + [ThinkingBlock(o.pendingSig, "")]
        && t.active.block == |o.blocks| && !t.hasReturn && (env.isStream ==> StartThinking(t.active.index, o.pendingSig) in t.trace)
  {
  }

  // ------------------------------------------------------------------------- what is remembered

  /** The memory after `n` events: the greetings so far and the last noted text. */
  ghost predicate Remembers(env: Env, seen: set<Bytes>, ms: seq<Input>, n: int, w: Memory) {
    && (forall key :: key != "" ==> (key in w.introSeen <==> Greeted(env, seen, ms, n, key)))
    && (w.lastSource != "" ==> exists j :: LastNoted(env, seen, ms, n, j))
    && (forall j :: LastNoted(env, seen, ms, n, j) ==> w.lastDelta == Text(env, ms, j) && w.lastSource == ms[j].source && w.lastAt == ms[j].now)
  }

  lemma GreetedNext(env: Env, seen: set<Bytes>, ms: seq<Input>, n: nat, key: Bytes)
    ensures Greeted(env, seen, ms, n + 1, key) <==> Greeted(env, seen, ms, n, key) || Greets(env, ms, n, key)
  {
    if Greets(env, ms, n, key) { assert Greeted(env, seen, ms, n + 1, key); }
  }

  lemma NotedNext(env: Env, seen: set<Bytes>, ms: seq<Input>, n: nat, j: int)
    ensures LastNoted(env, seen, ms, n + 1, j) <==> if Noted(env, seen, ms, n) then j == n else LastNoted(env, seen, ms, n, j)
  {
    if LastNoted(env, seen, ms, n + 1, j) && j < n { assert !Noted(env, seen, ms, n); }
  }

  /** Skipping on what is remembered is skipping by position. */
  lemma SkipMeans(env: Env, seen: set<Bytes>, ms: seq<Input>, n: nat, w: Memory)
    requires Remembers(env, seen, ms, n, w) && IsText(ms, n)
    ensures SkipText(env, w, Text(env, ms, n), ms[n].source, ms[n].now).0 <==> GreetsAgain(env, seen, ms, n) || Echoes(env, seen, ms, n)
  {
    var (intro, m) := SkipIntro(env, w, Text(env, ms, n));
    assert intro == GreetsAgain(env, seen, ms, n);
    if Noted(env, seen, ms, n) { EchoMeans(env, seen, ms, n, w); }
  }

  lemma EchoMeans(env: Env, seen: set<Bytes>, ms: seq<Input>, n: nat, w: Memory)
    requires Remembers(env, seen, ms, n, w) && Noted(env, seen, ms, n)
    ensures Echoes(env, seen, ms, n) <==>
      w.lastSource != "" && w.lastDelta == Text(env, ms, n) && w.lastSource != ms[n].source && ms[n].now - w.lastAt <= 2000
  {
    if Echoes(env, seen, ms, n) {
      var j :| 0 <= j < n && LastNoted(env, seen, ms, n, j)
        && Text(env, ms, j) == Text(env, ms, n) && ms[j].source != ms[n].source && ms[n].now - ms[j].now <= 2000;
      assert Noted(env, seen, ms, j);
    } else if w.lastSource != "" {
      var j :| LastNoted(env, seen, ms, n, j);
    }
  }

  lemma SkipRemembers(env: Env, seen: set<Bytes>, ms: seq<Input>, n: nat, w: Memory)
    requires Remembers(env, seen, ms, n, w) && IsText(ms, n)
    ensures Remembers(env, seen, ms, n + 1, SkipText(env, w, Text(env, ms, n), ms[n].source, ms[n].now).1)
  {
    var v := SkipText(env, w, Text(env, ms, n), ms[n].source, ms[n].now).1;
    var key := env.introKey(Text(env, ms, n));
    assert v.introSeen == if key == "" then w.introSeen else w.introSeen + {key};
    forall k | k != "" ensures k in v.introSeen <==> Greeted(env, seen, ms, n + 1, k) { GreetedNext(env, seen, ms, n, k); }
    NotesNext(env, seen, ms, n, w, v, n + 1);
  }

  lemma NotesNext(env: Env, seen: set<Bytes>, ms: seq<Input>, n: nat, w: Memory, v: Memory, next: nat)
    requires Remembers(env, seen, ms, n, w) && IsText(ms, n) && next == n + 1
    requires v == SkipText(env, w, Text(env, ms, n), ms[n].source, ms[n].now).1
    ensures v.lastSource != "" ==> exists j :: LastNoted(env, seen, ms, next, j)
    ensures forall j :: LastNoted(env, seen, ms, next, j) ==>
      v.lastDelta == Text(env, ms, j) && v.lastSource == ms[j].source && v.lastAt == ms[j].now
  {
    forall j ensures LastNoted(env, seen, ms, next, j) <==> if Noted(env, seen, ms, n) then j == n else LastNoted(env, seen, ms, n, j) {
      NotedNext(env, seen, ms, n, j);
    }
  }

  lemma StillRemembers(env: Env, seen: set<Bytes>, ms: seq<Input>, n: nat, w: Memory)
    requires Remembers(env, seen, ms, n, w) && !IsText(ms, n)
    ensures Remembers(env, seen, ms, n + 1, w)
  {
    forall key ensures Greeted(env, seen, ms, n + 1, key) <==> Greeted(env, seen, ms, n, key) { GreetedNext(env, seen, ms, n, key); }
    forall j ensures LastNoted(env, seen, ms, n + 1, j) <==> LastNoted(env, seen, ms, n, j) { NotedNext(env, seen, ms, n, j); }
  }

  predicate SameRecall(w: Memory, v: Memory) {
    w.introSeen == v.introSeen && w.lastDelta == v.lastDelta && w.lastSource == v.lastSource && w.lastAt == v.lastAt
  }

  lemma HandleRecalls(env: Env, s: State, m: Input)
    requires !s.out.hasReturn
    ensures var w := Handle(env, s, m).memory;
      if m.TextDelta? && m.delta != "" then SameRecall(w, SkipText(env, s.memory, env.collapse(m.delta), m.source, m.now).1)
      else w == s.memory
    ensures Handle(env, s, m).memory.hasTextOutput <==>
      s.memory.hasTextOutput || (m.TextDelta? && m.delta != "" && !SkipText(env, s.memory, env.collapse(m.delta), m.source, m.now).0)
  {
  }

  lemma HandleEnds(env: Env, s: State, m: Input)
    ensures Handle(env, s, m).out.hasReturn == (s.out.hasReturn || m.Finish?)
  {
    if !s.out.hasReturn {
      if m.Finish? {
        FinishHasEnded(env, s, m.reason, m.usage);
      } else if IsToolInput(m) {
        ToolsGoOn(env, s, m);
      } else {
        GoesOn(env, s, m);
      }
    }
  }

  lemma FinishHasEnded(env: Env, s: State, reason: Bytes, count: Option<int>)
    ensures OnFinish(env, s, reason, count).out.hasReturn
  {
    FinishEnds(env, s.(out := CloseActive(env, s.out), usage := SetUsage(s.usage, count)), AskedReason(s.tools, reason));
  }

  lemma GoesOn(env: Env, s: State, m: Input)
    requires !s.out.hasReturn && !m.Finish? && !IsToolInput(m)
    ensures !Handle(env, s, m).out.hasReturn
  {
  }

  lemma ToolsGoOn(env: Env, s: State, m: Input)
    requires !s.out.hasReturn && IsToolInput(m)
    ensures !Handle(env, s, m).out.hasReturn
  {
  }

  lemma ClosedNext(ms: seq<Input>, n: nat)
    requires n < |ms|
    ensures Closed(ms, n + 1) <==> Closed(ms, n) || ms[n].Finish?
  {
  }

  /** After `n` events the client has heard what they say. */
  ghost predicate HasSaid(env: Env, seen: set<Bytes>, ms: seq<Input>, n: nat, s: State, t: State)
    requires n <= |ms|
  {
    && (env.isStream ==> SaidOn(t.out.trace) == SaidOn(s.out.trace) + SaidIn(env, seen, ms, n))
    && t.out.hasReturn == Closed(ms, n)
    && (!Closed(ms, n) ==> Remembers(env, seen, ms, n, t.memory))
  }

  lemma StepSays(env: Env, seen: set<Bytes>, ms: seq<Input>, n: nat, s: State, t: State)
    requires n < |ms| && HasSaid(env, seen, ms, n, s, t)
    ensures HasSaid(env, seen, ms, n + 1, s, Handle(env, t, ms[n]))
  {
    ClosedNext(ms, n);
    HandleEnds(env, t, ms[n]);
    if Closed(ms, n) {
      assert Says(env, seen, ms, n) == [] && SaidIn(env, seen, ms, n) + [] == SaidIn(env, seen, ms, n);
    } else {
      if env.isStream { HandleAdds(env, t, ms[n]); }
      StepUtters(env, seen, ms, n, t.memory);
      StepRecalls(env, seen, ms, n, t);
      AddAgain(SaidOn(s.out.trace), SaidIn(env, seen, ms, n), Says(env, seen, ms, n));
    }
  }

  lemma AddAgain<T>(a: seq<T>, b: seq<T>, c: seq<T>)
    ensures (a + b) + c == a + (b + c)
  {
  }

  lemma StepUtters(env: Env, seen: set<Bytes>, ms: seq<Input>, n: nat, w: Memory)
    requires n < |ms| && Remembers(env, seen, ms, n, w) && !Closed(ms, n)
    ensures Uttered(env, w, ms[n]) == Says(env, seen, ms, n)
  {
    if IsText(ms, n) { SkipMeans(env, seen, ms, n, w); }
  }

  lemma StepRecalls(env: Env, seen: set<Bytes>, ms: seq<Input>, n: nat, t: State)
    requires n < |ms| && Remembers(env, seen, ms, n, t.memory) && !Closed(ms, n) && !t.out.hasReturn
    ensures Remembers(env, seen, ms, n + 1, Handle(env, t, ms[n]).memory)
  {
    HandleRecalls(env, t, ms[n]);
    if IsText(ms, n) { SkipRemembers(env, seen, ms, n, t.memory); } else { StillRemembers(env, seen, ms, n, t.memory); }
  }

  lemma NothingYet(env: Env, seen: set<Bytes>, ms: seq<Input>, s: State)
    requires !s.out.hasReturn && s.memory.lastSource == "" && s.memory.introSeen == seen
    ensures HasSaid(env, seen, ms, 0, s, s)
  {
    assert SaidOn(s.out.trace) + [] == SaidOn(s.out.trace);
  }

  lemma DeliverNext(env: Env, s: State, ms: seq<Input>, n: nat)
    requires n < |ms|
    ensures Deliver(env, s, ms[..n + 1]) == Handle(env, Deliver(env, s, ms[..n]), ms[n])
  {
    assert ms[..n + 1][..n] == ms[..n];
  }

  /** In an attempt the client hears, piece by piece and in order, what the events say. */
  lemma {:induction false} DeliverSays(env: Env, seen: set<Bytes>, ms: seq<Input>, n: nat, s: State)
    requires n <= |ms| && !s.out.hasReturn && s.memory.lastSource == ""
    requires s.memory.introSeen == seen
    ensures HasSaid(env, seen, ms, n, s, Deliver(env, s, ms[..n]))
  {
    if n == 0 {
      NothingYet(env, seen, ms, s);
    } else {
      DeliverSays(env, seen, ms, n - 1, s);
      DeliverNext(env, s, ms, n - 1);
      StepSays(env, seen, ms, n - 1, s, Deliver(env, s, ms[..n - 1]));
    }
  }

  // ----------------------------------------------------------------------------- whole runs

  lemma ResetSays(env: Env, s: State)
    ensures SaidOn(Reset(env, s).out.trace) == SaidOn(s.out.trace)
  {
    if s.out.active != NoBlock { PickedSnoc(s.out.trace, Stop(s.out.active.index), SaidBy); }
  }

  /** What an attempt adds to what was heard before it. */
  lemma AttemptSays(env: Env, s: State, a: Attempt)
    requires env.isStream
    ensures SaidOn(Attempted(env, s, a).out.trace) == SaidOn(s.out.trace) + SaidIn(env, s.memory.introSeen, a.events, |a.events|)
    ensures Attempted(env, s, a).out.hasReturn == Closed(a.events, |a.events|)
  {
    ResetSays(env, s);
    DeliverSays(env, s.memory.introSeen, a.events, |a.events|, Reset(env, s));
    assert a.events[..|a.events|] == a.events;
  }

  /** An attempt without text output leaves no greeting behind. */
  predicate Unheard(s: State, t: State) {
    t.memory.hasTextOutput || (t.memory.introSeen == s.memory.introSeen && t.memory.lastSource == "")
  }

  lemma {:induction false} DeliverUnheard(env: Env, s: State, ms: seq<Input>)
    requires s.memory.lastSource == ""
    ensures Unheard(s, Deliver(env, s, ms))
  {
    if ms != [] {
      DeliverUnheard(env, s, ms[..|ms| - 1]);
      var t := Deliver(env, s, ms[..|ms| - 1]);
      if !t.out.hasReturn { HandleRecalls(env, t, ms[|ms| - 1]); }
    }
  }

  lemma {:induction false} NothingSaid(t: seq<Event>, u: seq<Event>)
    requires t <= u && NoBlockEvents(u, |t|)
    ensures SaidOn(u) == SaidOn(t)
  {
    if |u| > |t| {
      var v := u[..|u| - 1];
      NothingSaid(t, v);
      PickedSnoc(v, u[|v|], SaidBy);
      assert v + [u[|v|]] == u;
    } else {
      assert u == t;
    }
  }

  /** A retried attempt leaves nothing to hear and no greeting behind. */
  lemma RetrySaysNothing(env: Env, s: State, a: Attempt, retries: nat)
    requires env.isStream && Inv(s) && s.out.active == NoBlock && Retried(Attempted(env, s, a), a, retries)
    ensures var t := Attempted(env, s, a);
      SaidOn(t.out.trace) == SaidOn(s.out.trace) && t.memory.introSeen == s.memory.introSeen && Inv(t) && t.out.active == NoBlock
  {
    RetriedWrote(env, s, a, retries);
    VisibleOutputIsSeen(env, s, a);
    NothingSaid(s.out.trace, Attempted(env, s, a).out.trace);
    DeliverUnheard(env, Reset(env, s), a.events);
  }

  lemma InjectSays(env: Env, s: State, text: Bytes)
    requires env.isStream
    ensures SaidOn(Inject(env, s, text).out.trace) == SaidOn(s.out.trace) + if s.out.hasReturn then [] else [Spoke(text)]
  {
    if s.out.hasReturn {
      InjectAfterEnd(env, s, text);
    } else {
      EnsureTextAdds(env, s.out);
      var t := EnsureText(env, s.out);
      EmitAdds(env, t, DeltaText(t.active.index, text));
    }
  }

  /** The error text heard after the last attempt: none once the response has ended. */
  function ErrorSaid(t: State, a: Attempt, retries: nat): seq<Said> {
    if !Closed(a.events, |a.events|) && Shown(t, a.result, retries).Some? then [Spoke(Shown(t, a.result, retries).value)] else []
  }

  lemma LastSays(env: Env, s: State, attempts: seq<Attempt>, retries: nat)
    requires env.isStream && |attempts| > retries && !Retried(Attempted(env, s, attempts[0]), attempts[0], retries)
    ensures var t := Attempted(env, s, attempts[0]);
      SaidOn(RunFrom(env, s, attempts, retries).out.trace) == SaidOn(t.out.trace) + ErrorSaid(t, attempts[0], retries)
  {
    var t := Attempted(env, s, attempts[0]);
    AttemptSays(env, s, attempts[0]);
    var text := Shown(t, attempts[0].result, retries);
    if attempts[0].result.Success? {
      FinishAdds(env, t, if HasToolCalls(t.tools) then "tool_use" else "end_turn");
    } else {
      if text.Some? { InjectSays(env, t, text.value); }
      FinishAdds(env, if text.Some? then Inject(env, t, text.value) else t, "end_turn");
    }
  }

  /** What the attempt that is not retried says, and the error text after it. */
  function RunSaid(env: Env, s: State, attempts: seq<Attempt>, retries: nat): seq<Said>
    requires |attempts| > retries
    decreases retries
  {
    var t, a := Attempted(env, s, attempts[0]), attempts[0];
    if Retried(t, a, retries) then RunSaid(env, t, attempts[1..], retries - 1)
    else SaidIn(env, {}, a.events, |a.events|) + ErrorSaid(t, a, retries)
  }

  ghost predicate SaysFrom(env: Env, attempts: seq<Attempt>, retries: nat) {
    forall s :: SaysRest(env, s, attempts, retries)
  }

  ghost predicate SaysRest(env: Env, s: State, attempts: seq<Attempt>, retries: nat) {
    |attempts| > retries && Inv(s) && s.out.active == NoBlock && s.memory.introSeen == {} ==>
      SaidOn(RunFrom(env, s, attempts, retries).out.trace) == SaidOn(s.out.trace) + RunSaid(env, s, attempts, retries)
  }

  lemma TurnSays(env: Env, s: State, attempts: seq<Attempt>, retries: nat)
    requires env.isStream && |attempts| > retries && (retries > 0 ==> SaysFrom(env, attempts[1..], retries - 1))
    ensures SaysRest(env, s, attempts, retries)
  {
    if Inv(s) && s.out.active == NoBlock && s.memory.introSeen == {} {
      var t := Attempted(env, s, attempts[0]);
      if Retried(t, attempts[0], retries) {
        RetrySaysNothing(env, s, attempts[0], retries);
        RunSteps(env, s, attempts, retries);
        assert SaysRest(env, t, attempts[1..], retries - 1);
      } else {
        LastSays(env, s, attempts, retries);
        AttemptSays(env, s, attempts[0]);
      }
    }
  }

  lemma {:induction false} RunFromSays(env: Env, attempts: seq<Attempt>, retries: nat)
    requires env.isStream && |attempts| > retries
    ensures SaysFrom(env, attempts, retries)
    decreases retries
  {
    if retries > 0 { RunFromSays(env, attempts[1..], retries - 1); }
    forall s ensures SaysRest(env, s, attempts, retries) { TurnSays(env, s, attempts, retries); }
  }

  lemma OpenedSays(env: Env, start: Event, seeds: set<Bytes>)
    requires env.isStream && start.MessageStart?
    ensures var s := Opened(env, start, seeds);
      SaidOn(s.out.trace) == [] && Inv(s) && s.out.active == NoBlock && s.memory.introSeen == {}
  {
    StartedReads(env, start, seeds);
    PickedSnoc([], start, SaidBy);
    assert [] + [start] == [start];
  }

  /** A whole streamed response, retries included, says what the events of the last attempt say, and then the error
      text if that attempt failed without ending the response and its error is shown. */
  lemma RunSays(env: Env, start: Event, seeds: set<Bytes>, attempts: seq<Attempt>, retries: nat)
    requires env.isStream && |attempts| > retries && start.MessageStart?
    ensures SaidOn(Run(env, start, seeds, attempts, retries).out.trace) == RunSaid(env, Opened(env, start, seeds), attempts, retries)
  {
    var s := Opened(env, start, seeds);
    OpenedSays(env, start, seeds);
    RunFromSays(env, attempts, retries);
    assert SaysRest(env, s, attempts, retries);
    RunEnds(env, s, attempts, retries);
  }
}
