/** What every streaming run writes: a well-formed response, unless a finished attempt is retried. */
module HandlerRuns {
  import opened Bytes
  import opened SseEvent
  import opened StreamTrace
  import opened HandlerSpec

  // ---------------------------------------------------------------- what every step keeps

  function OpenOf(a: Active): Option<(Kind, int)> {
    match a
    case NoBlock => None
    case ActiveText(i, _) => Some((TextKind, i))
    case ActiveThinking(i, _) => Some((ThinkingKind, i))
  }

  /** The open block is an entry of `blocks` of its own kind. */
  predicate ActiveInBlocks(o: Out) {
    match o.active
    case NoBlock => true
    case ActiveText(_, k) => k < |o.blocks| && o.blocks[k].TextBlock?
    case ActiveThinking(_, k) => k < |o.blocks| && o.blocks[k].ThinkingBlock?
  }

  /** The recogniser is where the handler's fields say. */
  predicate Reads(o: Out) {
    if o.hasReturn then Read(o.trace) == Done && o.active == NoBlock
    else Read(o.trace) == Body(o.blockIndex, OpenOf(o.active), NoTool)
  }

  /** From `o` to `p` the trace grows, and only with a block in `blocks` to show for it. */
  predicate Later(o: Out, p: Out) {
    o.trace <= p.trace && p.hasReturn == o.hasReturn && |o.blocks| <= |p.blocks| && (p.blocks == [] ==> p.trace == o.trace)
  }

  predicate Keeps(o: Out, p: Out) { ActiveInBlocks(p) && Later(o, p) && (Reads(o) ==> Reads(p)) }

  lemma EmitReads(env: Env, o: Out, e: Event)
    requires env.isStream
    ensures !o.hasReturn ==> Read(Emit(env, o, e).trace) == Step(Read(o.trace), e)
    ensures Read(EmitFinal(env, o, e).trace) == Step(Read(o.trace), e)
  {
    ReadSnoc(o.trace, e);
  }

  lemma CloseKeeps(env: Env, o: Out)
    requires env.isStream && ActiveInBlocks(o)
    ensures Keeps(o, CloseActive(env, o)) && CloseActive(env, o).active == NoBlock
  {
    if o.active != NoBlock { EmitReads(env, o.(active := NoBlock), Stop(o.active.index)); }
  }

  lemma OpenTextKeeps(env: Env, o: Out)
    requires env.isStream && ActiveInBlocks(o) && !o.hasReturn && o.active == NoBlock
    ensures Keeps(o, OpenText(env, o)) && OpenText(env, o).active.ActiveText?
  {
    var i := o.blockIndex + 1;
    EmitReads(env, o.(blockIndex := i, active := ActiveText(i, |o.blocks|), blocks := o.blocks + [TextBlock("")]), StartText(i));
  }

  lemma EnsureTextKeeps(env: Env, o: Out)
    requires env.isStream && ActiveInBlocks(o) && !o.hasReturn
    ensures Keeps(o, EnsureText(env, o)) && EnsureText(env, o).active.ActiveText?
  {
    CloseKeeps(env, o);
    if !o.active.ActiveText? { OpenTextKeeps(env, CloseActive(env, o)); }
  }

  lemma OpenThinkingKeeps(env: Env, o: Out)
    requires env.isStream && ActiveInBlocks(o) && !o.hasReturn && o.active == NoBlock
    ensures Keeps(o, OpenThinking(env, o)) && OpenThinking(env, o).active.ActiveThinking?
  {
    var i := o.blockIndex + 1;
    EmitReads(env, o.(blockIndex := i, pendingSig := "", active := ActiveThinking(i, |o.blocks|),
                      blocks := o.blocks + [ThinkingBlock(o.pendingSig, "")]), StartThinking(i, o.pendingSig));
  }

  lemma EnsureThinkingKeeps(env: Env, o: Out)
    requires env.isStream && ActiveInBlocks(o) && !o.hasReturn
    ensures Keeps(o, EnsureThinking(env, o))
    ensures !env.suppressThinking ==> EnsureThinking(env, o).active.ActiveThinking?
  {
    CloseKeeps(env, o);
    if !o.active.ActiveThinking? { OpenThinkingKeeps(env, CloseActive(env, o)); }
  }

  /** A delta for the open block. */
  lemma DeltaKeeps(env: Env, o: Out, e: Event)
    requires env.isStream && ActiveInBlocks(o) && !o.hasReturn
    requires (o.active.ActiveText? && e.DeltaText? && e.index == o.active.index)
          || (o.active.ActiveThinking? && e.DeltaThinking? && e.index == o.active.index)
    ensures Keeps(o, Emit(env, o, e))
  {
    EmitReads(env, o, e);
  }

  lemma WriteTextKeeps(env: Env, o: Out, delta: Bytes)
    requires env.isStream && ActiveInBlocks(o) && !o.hasReturn
    ensures Keeps(o, WriteText(env, o, delta)) && WriteText(env, o, delta).blocks != []
  {
    EnsureTextKeeps(env, o);
    var t := EnsureText(env, o);
    DeltaKeeps(env, AppendText(t, t.active.block, delta), DeltaText(t.active.index, delta));
  }

  lemma WriteThinkingKeeps(env: Env, o: Out, delta: Bytes)
    requires env.isStream && ActiveInBlocks(o) && !o.hasReturn
    ensures Keeps(o, WriteThinking(env, o, delta))
  {
    EnsureThinkingKeeps(env, o);
    var t := EnsureThinking(env, o);
    if t.active.ActiveThinking? {
      DeltaKeeps(env, AppendText(t, t.active.block, delta), DeltaThinking(t.active.index, delta));
    }
  }

  lemma FillSignatureKeeps(o: Out, sig: Bytes)
    requires ActiveInBlocks(o)
    ensures Keeps(o, FillSignature(o, sig))
  {
  }

  lemma ReasoningStartKeeps(env: Env, o: Out, sig: Bytes)
    requires env.isStream && ActiveInBlocks(o) && !o.hasReturn
    ensures Keeps(o, OnReasoningStart(env, o, sig))
  {
    EnsureThinkingKeeps(env, o.(pendingSig := sig));
  }

  lemma ReasoningDeltaKeeps(env: Env, o: Out, sig0: Bytes, delta: Bytes)
    requires env.isStream && ActiveInBlocks(o) && !o.hasReturn
    ensures Keeps(o, ReasoningDeltaOut(env, o, sig0, delta))
  {
    var sig := Signature(o, sig0);
    var t := o.(pendingSig := sig);
    if delta == "" {
      EnsureThinkingKeeps(env, t);
      FillSignatureKeeps(EnsureThinking(env, t), sig);
    } else {
      FillSignatureKeeps(t, sig);
      WriteThinkingKeeps(env, if sig != "" then FillSignature(t, sig) else t, delta);
    }
  }

  lemma AppendThree(t: seq<Event>, a: Event, b: Event, c: Event)
    ensures t + [a, b, c] == t + [a] + [b] + [c]
  {
  }

  lemma ReadThree(t: seq<Event>, a: Event, b: Event, c: Event)
    ensures Read(t + [a, b, c]) == Step(Step(Step(Read(t), a), b), c)
  {
    ReadSnoc(t, a);
    ReadSnoc(t + [a], b);
    ReadSnoc(t + [a] + [b], c);
    AppendThree(t, a, b, c);
  }

  /** A tool block: its start, its input, its stop. */
  predicate IsTool(es: seq<Event>, i: int) {
    |es| == 3 && es[0].StartToolUse? && es[0].index == i && es[1].DeltaInput? && es[1].index == i && es[2] == Stop(i)
  }

  lemma ToolSteps(last: int, open: Option<(Kind, int)>, i: int, a: Event, b: Event)
    requires i > last && IsTool([a, b, Stop(i)], i)
    ensures Step(Step(Step(Body(last, open, NoTool), a), b), Stop(i)) == Body(i, open, NoTool)
  {
    assert Step(Body(last, open, NoTool), a) == Body(i, open, Started(i));
    assert Step(Body(i, open, Started(i)), b) == Body(i, open, Filled(i));
  }

  /** A whole tool block may sit inside the open text or thinking block. */
  lemma ToolReads(t: seq<Event>, last: int, open: Option<(Kind, int)>, i: int, es: seq<Event>)
    requires Read(t) == Body(last, open, NoTool) && i > last && IsTool(es, i)
    ensures Read(t + es) == Body(i, open, NoTool)
  {
    ReadThree(t, es[0], es[1], es[2]);
    ToolSteps(last, open, i, es[0], es[1]);
    assert es == [es[0], es[1], es[2]];
  }

  lemma EmitToolKeeps(env: Env, o: Out, call: Call)
    requires env.isStream && ActiveInBlocks(o) && !o.hasReturn
    ensures o.trace <= EmitTool(env, o, call).trace && (Reads(o) ==> Reads(EmitTool(env, o, call)))
  {
    var es := ToolEvents(o.blockIndex + 1, call);
    if Reads(o) { ToolReads(o.trace, o.blockIndex, OpenOf(o.active), o.blockIndex + 1, es); }
  }

  // ------------------------------------------------------------------------- whole states

  /** A streaming handler never queues tool calls. */
  predicate Inv(s: State) { ActiveInBlocks(s.out) && s.tools.pending == [] }

  /** Nothing to show yet: no block, no tool block. */
  predicate Silent(s: State) { s.out.blocks == [] && s.tools.emitted == {} }

  /** The two events that end a response. */
  predicate IsClosing(es: seq<Event>) { |es| == 2 && es[0].MessageDelta? && es[1].MessageStop? }

  predicate Extra(a: seq<Event>, b: seq<Event>, ends: bool)
    requires a <= b
  {
    if ends then IsClosing(b[|a|..]) else b == a
  }

  /** What a step may write: nothing while silent, except the closing pair when the response ends. */
  predicate Grows(s: State, t: State) {
    && s.out.trace <= t.out.trace
    && (Silent(t) ==> Silent(s) && Extra(s.out.trace, t.out.trace, s.out.hasReturn != t.out.hasReturn))
    && (Reads(s.out) ==> Reads(t.out))
    && (s.out.hasReturn ==> t == s)
    && (t.out.hasReturn && !s.out.hasReturn ==> |t.out.trace| >= |s.out.trace| + 2)
  }

  lemma EmitUseKeeps(env: Env, s: State, call: Call)
    requires env.isStream && Inv(s) && !s.out.hasReturn
    ensures Inv(EmitToolUse(env, s, call)) && Grows(s, EmitToolUse(env, s, call)) && !EmitToolUse(env, s, call).out.hasReturn
  {
    EmitToolKeeps(env, s.out, call);
    if !(call.id == "" || call.name == "" || call.id in s.tools.emitted) {
      assert call.id in EmitToolUse(env, s, call).tools.emitted;
    }
  }

  lemma ClosingReads(t: seq<Event>, last: int, d: Event)
    requires Read(t) == Body(last, None, NoTool) && d.MessageDelta?
    ensures Read(t + [d] + [MessageStop]) == Done
  {
    ReadSnoc(t, d);
    ReadSnoc(t + [d], MessageStop);
  }

  lemma StopOpenReads(env: Env, o: Out)
    requires env.isStream && ActiveInBlocks(o)
    ensures var p := StopOpen(env, o);
      && p == o.(active := NoBlock, trace := p.trace) && o.trace <= p.trace && (o.blocks == [] ==> p.trace == o.trace)
      && (Read(o.trace) == Body(o.blockIndex, OpenOf(o.active), NoTool) ==> Read(p.trace) == Body(o.blockIndex, None, NoTool))
  {
    if !o.active.NoBlock? { ReadSnoc(o.trace, Stop(o.active.index)); }
  }

  lemma CloseReads(env: Env, o: Out, reason: Bytes, tokens: int)
    requires env.isStream
    ensures var p := Close(env, o, reason, tokens);
      && o.trace <= p.trace && IsClosing(p.trace[|o.trace|..]) && p == o.(trace := p.trace)
      && (Read(o.trace) == Body(o.blockIndex, None, NoTool) ==> Read(p.trace) == Done)
  {
    if Read(o.trace) == Body(o.blockIndex, None, NoTool) {
      ClosingReads(o.trace, o.blockIndex, MessageDelta(reason, tokens));
    }
  }

  /** Finishing writes the closing pair, once. */
  lemma FinishKeeps(env: Env, s: State, reason: Bytes)
    requires env.isStream && Inv(s)
    ensures Inv(FinishResponse(env, s, reason)) && FinishResponse(env, s, reason).out.hasReturn
    ensures Grows(s, FinishResponse(env, s, reason))
  {
    if !s.out.hasReturn {
      var stop := if reason == "tool_use" && !HasToolCalls(s.tools) then "end_turn" else reason;
      var o := s.out.(hasReturn := true, stopReason := stop);
      StopOpenReads(env, o);
      CloseReads(env, StopOpen(env, o), stop, CountTokens(env, FlushUsage(env, s.usage, [])).tokens);
    }
  }

  lemma OnFinishKeeps(env: Env, s: State, reason: Bytes, count: Option<int>)
    requires env.isStream && Inv(s) && !s.out.hasReturn
    ensures Inv(OnFinish(env, s, reason, count)) && OnFinish(env, s, reason, count).out.hasReturn
    ensures Grows(s, OnFinish(env, s, reason, count))
  {
    CloseKeeps(env, s.out);
    FinishKeeps(env, s.(out := CloseActive(env, s.out), usage := SetUsage(s.usage, count)), AskedReason(s.tools, reason));
  }

  lemma ToolInputEndKeeps(env: Env, s: State, id: Bytes)
    requires env.isStream && Inv(s) && !s.out.hasReturn
    ensures Inv(OnToolInputEnd(env, s, id)) && Grows(s, OnToolInputEnd(env, s, id))
    ensures !OnToolInputEnd(env, s, id).out.hasReturn
  {
    if id != "" && id in s.tools.names && s.tools.names[id] != "" && id !in s.tools.handled {
      var (name, input) := env.rewrite(s.tools.names[id], Buffered(s.tools, id));
      var (ok, u) := Accept(env, ForgetInput(s.tools, id), name, input);
      var v := s.(tools := u.(handled := u.handled + {id}), usage := AddOutput(s.usage, input));
      EmitUseKeeps(env, v, Call(id, name, input));
    }
  }

  lemma ToolCallKeeps(env: Env, s: State, id: Bytes, name0: Bytes, input0: Bytes)
    requires env.isStream && Inv(s) && !s.out.hasReturn
    ensures Inv(OnToolCall(env, s, id, name0, input0)) && Grows(s, OnToolCall(env, s, id, name0, input0))
    ensures !OnToolCall(env, s, id, name0, input0).out.hasReturn
  {
    var (name, input) := env.rewrite(name0, input0);
    var (ok, t) := Accept(env, s.tools, name, input);
    var u := ForgetInput(t, id);
    EmitUseKeeps(env, s.(tools := u.(handled := u.handled + {id})), Call(id, name, input));
  }

  lemma KeepsGrows(s: State, t: State)
    requires Inv(s) && Keeps(s.out, t.out) && t.tools.pending == [] && t.tools.emitted == s.tools.emitted && !s.out.hasReturn
    ensures Inv(t) && Grows(s, t)
  {
  }

  lemma TextDeltaKeeps(env: Env, s: State, delta: Bytes, source: Bytes, now: int)
    requires env.isStream && Inv(s) && !s.out.hasReturn
    ensures Inv(OnTextDelta(env, s, delta, source, now)) && Grows(s, OnTextDelta(env, s, delta, source, now))
    ensures !OnTextDelta(env, s, delta, source, now).out.hasReturn
  {
    WriteTextKeeps(env, s.out, env.collapse(delta));
    KeepsGrows(s, OnTextDelta(env, s, delta, source, now));
  }

  predicate IsToolInput(m: Input) { m.ToolInputStart? || m.ToolInputDelta? || m.ToolInputEnd? || m.ToolCall? }

  lemma HandleToolKeeps(env: Env, s: State, m: Input)
    requires env.isStream && Inv(s) && !s.out.hasReturn && IsToolInput(m)
    ensures Inv(Handle(env, s, m)) && Grows(s, Handle(env, s, m)) && !Handle(env, s, m).out.hasReturn
  {
    match m
    case ToolInputStart(id, name) => CloseKeeps(env, s.out); KeepsGrows(s, Handle(env, s, m));
    case ToolInputDelta(id, delta) => KeepsGrows(s, Handle(env, s, m));
    case ToolInputEnd(id) => ToolInputEndKeeps(env, s, id);
    case ToolCall(id, name, input) => ToolCallKeeps(env, s, id, name, input);
  }

  predicate IsThinkingInput(m: Input) { m.ReasoningStart? || m.ReasoningDelta? || m.ReasoningEnd? }

  lemma HandleThinkingKeeps(env: Env, s: State, m: Input)
    requires env.isStream && Inv(s) && !s.out.hasReturn && IsThinkingInput(m)
    ensures Inv(Handle(env, s, m)) && Grows(s, Handle(env, s, m)) && !Handle(env, s, m).out.hasReturn
  {
    match m {
    case ReasoningStart(sig) => ReasoningStartKeeps(env, s.out, sig);
    case ReasoningDelta(sig, delta) => ReasoningDeltaKeeps(env, s.out, sig, delta);
    case ReasoningEnd => CloseKeeps(env, s.out);
    }
    KeepsGrows(s, Handle(env, s, m));
  }

  /** Every event keeps the recogniser and the fields together; only `model.finish` ends the response. */
  lemma HandleKeeps(env: Env, s: State, m: Input)
    requires env.isStream && Inv(s)
    ensures Inv(Handle(env, s, m)) && Grows(s, Handle(env, s, m))
    ensures Handle(env, s, m).out.hasReturn <==> s.out.hasReturn || m.Finish?
  {
    if !s.out.hasReturn {
      if IsToolInput(m) { HandleToolKeeps(env, s, m); }
      else if IsThinkingInput(m) { HandleThinkingKeeps(env, s, m); }
      else {
        match m
        case TextStart => EnsureTextKeeps(env, s.out); KeepsGrows(s, Handle(env, s, m));
        case TextDelta(delta, source, now) => TextDeltaKeeps(env, s, delta, source, now);
        case TextEnd => CloseKeeps(env, s.out); KeepsGrows(s, Handle(env, s, m));
        case Finish(reason, count) => OnFinishKeeps(env, s, reason, count);
        case _ =>
      }
    }
  }

  predicate HasFinish(ms: seq<Input>) { exists k :: 0 <= k < |ms| && ms[k].Finish? }

  lemma HasFinishSnoc(ms: seq<Input>)
    requires ms != []
    ensures HasFinish(ms) <==> HasFinish(ms[..|ms| - 1]) || ms[|ms| - 1].Finish?
  {
    var front := ms[..|ms| - 1];
    if HasFinish(front) { var k :| 0 <= k < |front| && front[k].Finish?; assert ms[k].Finish?; }
    if HasFinish(ms) && !ms[|ms| - 1].Finish? { var k :| 0 <= k < |ms| && ms[k].Finish?; assert front[k].Finish?; }
  }

  lemma {:induction false} DeliverKeeps(env: Env, s: State, ms: seq<Input>)
    requires env.isStream && Inv(s) && !s.out.hasReturn
    ensures Inv(Deliver(env, s, ms)) && Grows(s, Deliver(env, s, ms))
    ensures Deliver(env, s, ms).out.hasReturn <==> HasFinish(ms)
  {
    if ms != [] {
      var front := ms[..|ms| - 1];
      DeliverKeeps(env, s, front);
      HasFinishSnoc(ms);
      HandleKeeps(env, Deliver(env, s, front), ms[|ms| - 1]);
    }
  }

  // ------------------------------------------------------------------------------ the run

  /** The attempt is followed by another one: it failed without output, and the loop went on. */
  predicate Retried(t: State, a: Attempt, retries: nat) {
    a.result.Failed? && !HasAnyOutput(t) && Decide(a.result.failure, retries) == Retry
  }

  function Attempted(env: Env, s: State, a: Attempt): State { Deliver(env, Reset(env, s), a.events) }

  /** Some retried attempt had delivered `model.finish`. */
  predicate FinishThenRetry(env: Env, s: State, attempts: seq<Attempt>, retries: nat)
    requires |attempts| > retries
    decreases retries
  {
    var t := Attempted(env, s, attempts[0]);
    Retried(t, attempts[0], retries) &&
      (HasFinish(attempts[0].events) || FinishThenRetry(env, t, attempts[1..], retries - 1))
  }

  lemma RunSteps(env: Env, s: State, attempts: seq<Attempt>, retries: nat)
    requires |attempts| > retries && Retried(Attempted(env, s, attempts[0]), attempts[0], retries)
    ensures RunFrom(env, s, attempts, retries) == RunFrom(env, Attempted(env, s, attempts[0]), attempts[1..], retries - 1)
  {
  }

  lemma AttemptKeeps(env: Env, s: State, a: Attempt)
    requires env.isStream && Inv(s) && s.out.active == NoBlock
    ensures var t := Attempted(env, s, a);
      && Inv(t) && Grows(Reset(env, s), t) && Reset(env, s).out.trace == s.out.trace
      && (!s.out.hasReturn && Reads(s.out) ==> Reads(t.out)) && (t.out.hasReturn <==> HasFinish(a.events))
  {
    DeliverKeeps(env, Reset(env, s), a.events);
  }

  lemma InjectKeeps(env: Env, s: State, text: Bytes)
    requires env.isStream && Inv(s) && !s.out.hasReturn
    ensures Inv(Inject(env, s, text)) && Grows(s, Inject(env, s, text)) && !Inject(env, s, text).out.hasReturn
  {
    EnsureTextKeeps(env, s.out);
    var t := EnsureText(env, s.out);
    DeltaKeeps(env, t, DeltaText(t.active.index, text));
    KeepsGrows(s, Inject(env, s, text));
  }

  /** An injected error after the end is not written. */
  lemma InjectAfterEnd(env: Env, s: State, text: Bytes)
    requires s.out.hasReturn
    ensures Inject(env, s, text).out.trace == s.out.trace && Inject(env, s, text).out.hasReturn
  {
  }

  lemma EndKeeps(env: Env, s: State, text: Option<Bytes>)
    requires env.isStream && Inv(s)
    ensures var t := EndWith(env, s, text);
      && t.out.hasReturn && s.out.trace <= t.out.trace && (Reads(s.out) ==> Read(t.out.trace) == Done)
      && (if s.out.hasReturn then t.out.trace == s.out.trace else |t.out.trace| >= |s.out.trace| + 2)
  {
    if s.out.hasReturn {
      if text.Some? { InjectAfterEnd(env, s, text.value); }
    } else {
      if text.Some? { InjectKeeps(env, s, text.value); }
      FinishKeeps(env, if text.Some? then Inject(env, s, text.value) else s, "end_turn");
    }
  }

  /** A retried attempt wrote nothing, or nothing but the closing pair. */
  lemma RetriedWrote(env: Env, s: State, a: Attempt, retries: nat)
    requires env.isStream && Inv(s) && s.out.active == NoBlock && Retried(Attempted(env, s, a), a, retries)
    ensures var t := Attempted(env, s, a);
      && t.out.active == NoBlock && Inv(t) && s.out.trace <= t.out.trace
      && Extra(s.out.trace, t.out.trace, HasFinish(a.events))
  {
    AttemptKeeps(env, s, a);
  }

  /** Whatever comes before, the rest of the run ends the response once more. */
  lemma {:induction false} RunGrows(env: Env, s: State, attempts: seq<Attempt>, retries: nat)
    requires env.isStream && Inv(s) && s.out.active == NoBlock && |attempts| > retries
    ensures var t := RunFrom(env, s, attempts, retries);
      t.out.hasReturn && s.out.trace <= t.out.trace && |t.out.trace| >= |s.out.trace| + 2
    decreases retries
  {
    var t := Attempted(env, s, attempts[0]);
    AttemptKeeps(env, s, attempts[0]);
    if Retried(t, attempts[0], retries) {
      RetriedWrote(env, s, attempts[0], retries);
      RunSteps(env, s, attempts, retries);
      RunGrows(env, t, attempts[1..], retries - 1);
    } else {
      LastAttempt(env, s, attempts, retries);
    }
  }

  /** The attempt that is not retried completes the response. */
  lemma LastAttempt(env: Env, s: State, attempts: seq<Attempt>, retries: nat)
    requires env.isStream && Inv(s) && s.out.active == NoBlock && |attempts| > retries
    requires !Retried(Attempted(env, s, attempts[0]), attempts[0], retries)
    ensures var t := RunFrom(env, s, attempts, retries);
      && t.out.hasReturn && s.out.trace <= t.out.trace && |t.out.trace| >= |s.out.trace| + 2
      && (!s.out.hasReturn && Reads(s.out) ==> Read(t.out.trace) == Done)
  {
    var t := Attempted(env, s, attempts[0]);
    AttemptKeeps(env, s, attempts[0]);
    match attempts[0].result
    case Success => FinishKeeps(env, t, if HasToolCalls(t.tools) then "tool_use" else "end_turn");
    case Failed(f) =>
      if HasAnyOutput(t) { EndKeeps(env, t, Some(f.upstreamText)); }
      else { EndKeeps(env, t, Decide(f, retries).text); }
  }

  lemma {:induction false} RunReads(env: Env, s: State, attempts: seq<Attempt>, retries: nat)
    requires env.isStream && Inv(s) && s.out.active == NoBlock && |attempts| > retries
    requires !s.out.hasReturn && Reads(s.out) && !FinishThenRetry(env, s, attempts, retries)
    ensures Read(RunFrom(env, s, attempts, retries).out.trace) == Done
    decreases retries
  {
    var t := Attempted(env, s, attempts[0]);
    if Retried(t, attempts[0], retries) {
      AttemptKeeps(env, s, attempts[0]);
      RetriedWrote(env, s, attempts[0], retries);
      RunReads(env, t, attempts[1..], retries - 1);
    } else {
      LastAttempt(env, s, attempts, retries);
    }
  }

  /** Position `k` ends a response, and more follows. */
  predicate EndsEarly(t: seq<Event>, k: nat) { 0 < k < |t| - 2 && t[k].MessageStop? }

  lemma ClosedThenMore(a: seq<Event>, b: seq<Event>, u: seq<Event>)
    requires a <= b <= u && Extra(a, b, true) && |u| >= |b| + 2
    ensures EndsEarly(u, |b| - 1)
  {
    assert b[|a|..][1] == b[|b| - 1] == u[|b| - 1];
  }

  ghost predicate Spoilt(t: seq<Event>) { exists k: nat :: EndsEarly(t, k) }

  lemma FinishedRunSpoils(env: Env, s: State, attempts: seq<Attempt>, retries: nat)
    requires env.isStream && Inv(s) && s.out.active == NoBlock && |attempts| > retries
    requires Retried(Attempted(env, s, attempts[0]), attempts[0], retries) && HasFinish(attempts[0].events)
    ensures Spoilt(RunFrom(env, s, attempts, retries).out.trace)
  {
    var t := Attempted(env, s, attempts[0]);
    RetriedWrote(env, s, attempts[0], retries);
    RunSteps(env, s, attempts, retries);
    RunGrows(env, t, attempts[1..], retries - 1);
    ClosedThenMore(s.out.trace, t.out.trace, RunFrom(env, s, attempts, retries).out.trace);
  }

  lemma {:induction false} RunSpoils(env: Env, s: State, attempts: seq<Attempt>, retries: nat)
    requires env.isStream && Inv(s) && s.out.active == NoBlock && |attempts| > retries
    requires FinishThenRetry(env, s, attempts, retries)
    ensures Spoilt(RunFrom(env, s, attempts, retries).out.trace)
    decreases retries
  {
    if HasFinish(attempts[0].events) {
      FinishedRunSpoils(env, s, attempts, retries);
    } else {
      RetriedWrote(env, s, attempts[0], retries);
      RunSteps(env, s, attempts, retries);
      RunSpoils(env, Attempted(env, s, attempts[0]), attempts[1..], retries - 1);
    }
  }

  lemma StartedReads(env: Env, start: Event, seeds: set<Bytes>)
    requires env.isStream && start.MessageStart?
    ensures var s := Opened(env, start, seeds);
      Inv(s) && Reads(s.out) && s.out.active == NoBlock && !s.out.hasReturn && s.out.trace == [start]
  {
    ReadSnoc([], start);
    assert [] + [start] == [start];
  }

  /** The response written to a streaming client is well formed exactly when no attempt that delivered
      `model.finish` is retried. */
  lemma RunWellFormed(env: Env, start: Event, seeds: set<Bytes>, attempts: seq<Attempt>, retries: nat)
    requires env.isStream && start.MessageStart? && |attempts| > retries
    ensures WellFormed(Run(env, start, seeds, attempts, retries).out.trace) <==>
      !FinishThenRetry(env, Opened(env, start, seeds), attempts, retries)
  {
    var s := Opened(env, start, seeds);
    StartedReads(env, start, seeds);
    RunGrows(env, s, attempts, retries);
    var t := Run(env, start, seeds, attempts, retries).out.trace;
    if FinishThenRetry(env, s, attempts, retries) {
      RunSpoils(env, s, attempts, retries);
      var k: nat :| EndsEarly(t, k);
      assert !IsBlockEvent(t[k]);
    } else {
      RunReads(env, s, attempts, retries);
      AcceptedIsWellFormed(t);
    }
  }

  /** A client that fails never after delivering `model.finish`. */
  predicate EndsOnce(attempts: seq<Attempt>) {
    forall k :: 0 <= k < |attempts| && HasFinish(attempts[k].events) ==> attempts[k].result == Success
  }

  lemma {:induction false} EndsOnceIsNotRetried(env: Env, s: State, attempts: seq<Attempt>, retries: nat)
    requires |attempts| > retries && EndsOnce(attempts)
    ensures !FinishThenRetry(env, s, attempts, retries)
    decreases retries
  {
    var t := Attempted(env, s, attempts[0]);
    if Retried(t, attempts[0], retries) {
      EndsOnceIsNotRetried(env, t, attempts[1..], retries - 1);
    }
  }

  /** With such a client every response is well formed. */
  lemma RunOfGoodClient(env: Env, start: Event, seeds: set<Bytes>, attempts: seq<Attempt>, retries: nat)
    requires env.isStream && start.MessageStart? && |attempts| > retries && EndsOnce(attempts)
    ensures WellFormed(Run(env, start, seeds, attempts, retries).out.trace)
  {
    EndsOnceIsNotRetried(env, Opened(env, start, seeds), attempts, retries);
    RunWellFormed(env, start, seeds, attempts, retries);
  }

  /** A client that fails, retryably, after delivering `model.finish` and nothing else: the response ends twice. */
  lemma FinishThenRetryHappens(env: Env, start: Event, seeds: set<Bytes>, f: Failure)
    requires env.isStream && start.MessageStart? && Decide(f, 1) == Retry
    ensures !WellFormed(Run(env, start, seeds, [Attempt([Finish("stop", None)], Failed(f)), Attempt([], Success)], 1).out.trace)
  {
    var ms := [Finish("stop", None)];
    var attempts := [Attempt(ms, Failed(f)), Attempt([], Success)];
    var s := Opened(env, start, seeds);
    assert ms[..0] == [] && ms[0].Finish?;
    assert Deliver(env, Reset(env, s), ms) == Handle(env, Deliver(env, Reset(env, s), []), ms[0]);
    assert HasFinish(ms);
    assert Retried(Attempted(env, s, attempts[0]), attempts[0], 1);
    RunWellFormed(env, start, seeds, attempts, 1);
  }

  /** A failure without output is retried exactly when it is of the passing kind, the client is still there, the budget
      is not used up, there is an account left, and the wait was not cut short. Otherwise the loop ends, with nothing to
      show when the client has gone or the wait was cut short; the text for the account that is missing, or for a login
      that failed, or for the failure itself. */
  lemma WhichAreRetried(f: Failure, retries: nat)
    ensures Decide(f, retries) == Retry <==>
      f.retryable && !f.clientGone && retries > 0 && f.noAccount.None? && !f.interrupted
    ensures Decide(f, retries) == GiveUp(None) <==>
      || (!f.retryable && f.category == "canceled")
      || (f.retryable && f.clientGone)
      || (f.retryable && retries > 0 && f.noAccount.None? && f.interrupted)
    ensures Decide(f, retries).GiveUp? && Decide(f, retries).text.Some? ==>
      Decide(f, retries).text.value ==
        if f.retryable && retries > 0 then f.noAccount.value
        else if f.category in {"auth", "auth_blocked"} then f.authText
        else if f.retryable then f.exhaustedText
        else f.upstreamText
  {
  }

  // ------------------------------------------------------- retries never follow visible output

  /** How many attempts are retried. */
  function Retries(env: Env, s: State, attempts: seq<Attempt>, retries: nat): (n: nat)
    requires |attempts| > retries
    ensures n <= retries
    decreases retries
  {
    var t := Attempted(env, s, attempts[0]);
    if Retried(t, attempts[0], retries) then 1 + Retries(env, t, attempts[1..], retries - 1) else 0
  }

  /** The handler after `n` attempts. */
  function AfterAttempts(env: Env, s: State, attempts: seq<Attempt>, n: nat): State
    requires n <= |attempts|
    decreases n
  {
    if n == 0 then s else AfterAttempts(env, Attempted(env, s, attempts[0]), attempts[1..], n - 1)
  }

  predicate NoBlockEvents(t: seq<Event>, from: nat) { forall k :: from <= k < |t| ==> !IsBlockEvent(t[k]) }

  /** An attempt that has written any block event has output: it is not retried. */
  lemma VisibleOutputIsSeen(env: Env, s: State, a: Attempt)
    requires env.isStream && Inv(s) && s.out.active == NoBlock
    ensures var t := Attempted(env, s, a);
      s.out.trace <= t.out.trace && (!NoBlockEvents(t.out.trace, |s.out.trace|) ==> HasAnyOutput(t))
  {
    AttemptKeeps(env, s, a);
    var t := Attempted(env, s, a);
    if Silent(t) && HasFinish(a.events) {
      var u := t.out.trace[|s.out.trace|..];
      assert forall k :: |s.out.trace| <= k < |t.out.trace| ==> t.out.trace[k] == u[k - |s.out.trace|];
    }
  }

  lemma DropAgain<T>(s: seq<T>, n: nat)
    requires n + 1 <= |s|
    ensures s[1..][n..] == s[n + 1..]
  {
  }

  /** The run is the retried attempts followed by one that is not retried. */
  lemma {:induction false} RunSplits(env: Env, s: State, attempts: seq<Attempt>, retries: nat, n: nat, l: State)
    requires |attempts| > retries && n == Retries(env, s, attempts, retries) && l == AfterAttempts(env, s, attempts, n)
    ensures RunFrom(env, s, attempts, retries) == RunFrom(env, l, attempts[n..], retries - n)
    ensures !Retried(Attempted(env, l, attempts[n]), attempts[n], retries - n)
    decreases retries
  {
    var t := Attempted(env, s, attempts[0]);
    if n > 0 {
      RunSteps(env, s, attempts, retries);
      RunSplits(env, t, attempts[1..], retries - 1, n - 1, l);
      DropAgain(attempts, n - 1);
    } else {
      assert attempts[0..] == attempts;
    }
  }

  lemma ChainQuiet(a: seq<Event>, b: seq<Event>, c: seq<Event>)
    requires a <= b <= c && NoBlockEvents(b, |a|) && NoBlockEvents(c, |b|)
    ensures NoBlockEvents(c, |a|)
  {
  }

  /** Only the last attempt contributes content blocks: everything before it wrote none, and nothing at all
      when the client never fails after `model.finish`. */
  lemma {:induction false} OnlyLastAttemptShows(env: Env, s: State, attempts: seq<Attempt>, retries: nat)
    requires env.isStream && Inv(s) && s.out.active == NoBlock && |attempts| > retries
    ensures var l := AfterAttempts(env, s, attempts, Retries(env, s, attempts, retries));
      && s.out.trace <= l.out.trace && NoBlockEvents(l.out.trace, |s.out.trace|)
      && (EndsOnce(attempts) ==> l.out.trace == s.out.trace)
    decreases retries
  {
    var t := Attempted(env, s, attempts[0]);
    if Retried(t, attempts[0], retries) {
      RetriedWrote(env, s, attempts[0], retries);
      VisibleOutputIsSeen(env, s, attempts[0]);
      OnlyLastAttemptShows(env, t, attempts[1..], retries - 1);
      var l := AfterAttempts(env, t, attempts[1..], Retries(env, t, attempts[1..], retries - 1));
      ChainQuiet(s.out.trace, t.out.trace, l.out.trace);
    }
  }

  // ------------------------------------------------------------ side effects happen at most once

  predicate Distinct(keys: seq<Bytes>) { forall a, b :: 0 <= a < b < |keys| ==> keys[a] != keys[b] }

  /** The dedup set is the seed set; the keys accepted so far are distinct, all remembered, and new to `history`. */
  predicate Deduped(t: Tools, history: set<Bytes>) {
    && t.dedup == t.seeds && history <= t.seeds && Distinct(t.acceptedKeys)
    && (forall k :: k in t.acceptedKeys ==> k in t.seeds && k !in history)
  }

  lemma AcceptDedups(env: Env, t: Tools, name: Bytes, input: Bytes, history: set<Bytes>)
    requires Deduped(t, history)
    ensures Deduped(Accept(env, t, name, input).1, history)
  {
  }

  lemma HandleDedups(env: Env, s: State, m: Input, history: set<Bytes>)
    requires Deduped(s.tools, history)
    ensures Deduped(Handle(env, s, m).tools, history)
  {
    match m
    case ToolInputEnd(id) =>
      if id in s.tools.names {
        var (name, input) := env.rewrite(s.tools.names[id], Buffered(s.tools, id));
        AcceptDedups(env, ForgetInput(s.tools, id), name, input, history);
      }
    case ToolCall(id, name0, input0) =>
      var (name, input) := env.rewrite(name0, input0);
      AcceptDedups(env, s.tools, name, input, history);
    case _ =>
  }

  lemma {:induction false} DeliverDedups(env: Env, s: State, ms: seq<Input>, history: set<Bytes>)
    requires Deduped(s.tools, history)
    ensures Deduped(Deliver(env, s, ms).tools, history)
  {
    if ms != [] {
      DeliverDedups(env, s, ms[..|ms| - 1], history);
      HandleDedups(env, Deliver(env, s, ms[..|ms| - 1]), ms[|ms| - 1], history);
    }
  }

  lemma {:induction false} RunFromDedups(env: Env, s: State, attempts: seq<Attempt>, retries: nat, history: set<Bytes>)
    requires Deduped(s.tools, history) && |attempts| > retries
    ensures Deduped(RunFrom(env, s, attempts, retries).tools, history)
    decreases retries
  {
    var t := Attempted(env, s, attempts[0]);
    DeliverDedups(env, Reset(env, s), attempts[0].events, history);
    if Retried(t, attempts[0], retries) {
      RunFromDedups(env, t, attempts[1..], retries - 1, history);
    }
  }

  /** Over a whole response, retries included and in either mode, a side-effect key is accepted at most once,
      and never when the history holds it. */
  lemma RunDedups(env: Env, start: Event, seeds: set<Bytes>, attempts: seq<Attempt>, retries: nat)
    requires |attempts| > retries
    ensures Deduped(Run(env, start, seeds, attempts, retries).tools, seeds)
  {
    RunFromDedups(env, Opened(env, start, seeds), attempts, retries, seeds);
  }
}
