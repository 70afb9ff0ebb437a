/** In what order the text, thinking and tool blocks of a stream start, told from the events that start them. */
module BlockOrder {
  import opened Bytes
  import opened SseEvent
  import opened StreamTrace
  import opened HandlerSpec
  import opened HandlerRuns
  import opened HandlerModes

  // ------------------------------------------------------------------- the blocks on the wire

  predicate IsToolEntry(h: Entry) { h.head.StartToolUse? }

  /** A fragment goes to the blocks of its index that take fragments of its kind. */
  function AddKind(h: seq<Entry>, i: int, x: Bytes, tools: bool): (r: seq<Entry>)
    ensures |r| == |h| && forall k :: 0 <= k < |h| ==> r[k].head == h[k].head
  {
    if h == [] then []
    else
      var l := h[|h| - 1];
      AddKind(h[..|h| - 1], i, x, tools) + [if IsEntry(l, i) && IsToolEntry(l) == tools then l.(body := l.body + x) else l]
  }

  function WireOne(h: seq<Entry>, e: Event): seq<Entry> {
    if IsStart(e) then h + [Entry(e, "")]
    else if IsDelta(e) then AddKind(h, e.index, Fragment(e), e.DeltaInput?)
    else h
  }

  /** All the blocks of a stream, in the order they start. */
  function Wire(t: seq<Event>): seq<Entry> {
    if t == [] then [] else WireOne(Wire(t[..|t| - 1]), t[|t| - 1])
  }

  /** The tool blocks, or the others. */
  function OfKind(h: seq<Entry>, tools: bool): seq<Entry> {
    if h == [] then []
    else OfKind(h[..|h| - 1], tools) + if IsToolEntry(h[|h| - 1]) == tools then [h[|h| - 1]] else []
  }

  lemma KindSnoc(h: seq<Entry>, l: Entry, tools: bool)
    ensures OfKind(h + [l], tools) == OfKind(h, tools) + if IsToolEntry(l) == tools then [l] else []
  {
    assert (h + [l])[..|h|] == h;
  }

  lemma AddToSnoc(h: seq<Entry>, l: Entry, i: int, x: Bytes)
    ensures AddTo(h + [l], i, x) == AddTo(h, i, x) + [if IsEntry(l, i) then l.(body := l.body + x) else l]
  {
    assert (h + [l])[..|h|] == h;
  }

  lemma {:induction false} KindAdds(h: seq<Entry>, i: int, x: Bytes, b: bool, tools: bool)
    ensures OfKind(AddKind(h, i, x, b), tools) == if b == tools then AddTo(OfKind(h, tools), i, x) else OfKind(h, tools)
  {
    if h != [] {
      var f, l := h[..|h| - 1], h[|h| - 1];
      var m := if IsEntry(l, i) && IsToolEntry(l) == b then l.(body := l.body + x) else l;
      KindAdds(f, i, x, b, tools);
      KindSnoc(AddKind(f, i, x, b), m, tools);
      if IsToolEntry(l) == tools { AddToSnoc(OfKind(f, tools), l, i, x); }
      else { assert OfKind(h, tools) == OfKind(f, tools) + [] == OfKind(f, tools); }
    }
  }

  /** The blocks of a kind are the ones heard of it. */
  lemma {:induction false} WireKinds(t: seq<Event>, tools: bool)
    ensures OfKind(Wire(t), tools) == Heard(t, tools)
  {
    if t != [] {
      var f, e := t[..|t| - 1], t[|t| - 1];
      WireKinds(f, tools);
      if IsStart(e) { KindSnoc(Wire(f), Entry(e, ""), tools); }
      else if IsDelta(e) { KindAdds(Wire(f), e.index, Fragment(e), e.DeltaInput?, tools); }
    }
  }

  // -------------------------------------------------------------------------------- the order

  /** No text or thinking block starts after a tool block. */
  predicate InOrder(h: seq<Entry>) {
    forall j, k :: 0 <= j < k < |h| && IsToolEntry(h[j]) ==> IsToolEntry(h[k])
  }

  predicate HasTool(h: seq<Entry>) { exists j :: 0 <= j < |h| && IsToolEntry(h[j]) }

  lemma InOrderSnoc(h: seq<Entry>, l: Entry)
    ensures InOrder(h + [l]) <==> InOrder(h) && (IsToolEntry(l) || !HasTool(h))
    ensures HasTool(h + [l]) <==> HasTool(h) || IsToolEntry(l)
  {
    var g := h + [l];
    assert forall k :: 0 <= k < |h| ==> g[k] == h[k];
    assert g[|h|] == l;
    if InOrder(g) { assert forall j, k :: 0 <= j < k < |h| ==> g[j] == h[j] && g[k] == h[k]; }
  }

  lemma {:induction false} KindSizes(h: seq<Entry>)
    ensures |OfKind(h, false)| + |OfKind(h, true)| == |h|
    ensures HasTool(h) <==> OfKind(h, true) != []
  {
    if h != [] {
      KindSizes(h[..|h| - 1]);
      assert h == h[..|h| - 1] + [h[|h| - 1]];
      InOrderSnoc(h[..|h| - 1], h[|h| - 1]);
    }
  }

  /** In order, the blocks are the text and thinking blocks followed by the tool blocks. */
  lemma {:induction false} InOrderSplits(h: seq<Entry>)
    requires InOrder(h)
    ensures h == OfKind(h, false) + OfKind(h, true)
  {
    if h != [] {
      var f, l := h[..|h| - 1], h[|h| - 1];
      assert h == f + [l];
      InOrderSnoc(f, l);
      InOrderSplits(f);
      if !IsToolEntry(l) { KindSizes(f); }
      LastJoins(h, f, l, OfKind(f, false), OfKind(f, true));
    }
  }

  lemma LastJoins(h: seq<Entry>, f: seq<Entry>, l: Entry, a: seq<Entry>, b: seq<Entry>)
    requires h == f + [l] && f == a + b && a == OfKind(f, false) && b == OfKind(f, true) && (IsToolEntry(l) || b == [])
    ensures h == OfKind(h, false) + OfKind(h, true)
  {
    KindSnoc(f, l, false);
    KindSnoc(f, l, true);
    if IsToolEntry(l) {
      assert (a + b) + [l] == a + (b + [l]);
    } else {
      assert (a + b) + [l] == (a + [l]) + b;
    }
  }

  // --------------------------------------------------------------------- one more block at most

  /** `g` starts with the blocks of `h`. */
  predicate Continues(h: seq<Entry>, g: seq<Entry>) {
    |h| <= |g| && forall k :: 0 <= k < |h| ==> IsToolEntry(g[k]) == IsToolEntry(h[k])
  }

  lemma {:induction false} WireContinues(t: seq<Event>, u: seq<Event>)
    requires t <= u
    ensures Continues(Wire(t), Wire(u))
    decreases |u|
  {
    if |u| > |t| {
      WireContinues(t, u[..|u| - 1]);
    } else {
      assert t == u;
    }
  }

  lemma {:induction false} SameKinds(h: seq<Entry>, g: seq<Entry>)
    requires |h| == |g| && Continues(h, g)
    ensures |OfKind(g, true)| == |OfKind(h, true)| && |OfKind(g, false)| == |OfKind(h, false)|
  {
    if h != [] {
      var f, e := h[..|h| - 1], g[..|g| - 1];
      assert forall k :: 0 <= k < |f| ==> e[k] == g[k] && f[k] == h[k];
      SameKinds(f, e);
    }
  }

  lemma SameOrder(h: seq<Entry>, g: seq<Entry>)
    requires |h| == |g| && Continues(h, g)
    ensures InOrder(g) <==> InOrder(h)
    ensures HasTool(g) <==> HasTool(h)
  {
  }

  /** With at most one more block the order stays right unless it is a text or thinking block after a tool block. */
  lemma OneMore(h: seq<Entry>, g: seq<Entry>, a: nat, b: nat)
    requires Continues(h, g) && a + b <= 1
    requires |OfKind(g, false)| == |OfKind(h, false)| + a && |OfKind(g, true)| == |OfKind(h, true)| + b
    ensures InOrder(g) <==> InOrder(h) && (a == 1 ==> OfKind(h, true) == [])
  {
    KindSizes(h);
    KindSizes(g);
    if a + b == 0 {
      SameOrder(h, g);
    } else {
      var f, l := g[..|h|], g[|h|];
      assert g == f + [l];
      assert forall k :: 0 <= k < |f| ==> f[k] == g[k];
      LastMore(h, f, l, a);
    }
  }

  lemma LastMore(h: seq<Entry>, f: seq<Entry>, l: Entry, a: nat)
    requires |h| == |f| && Continues(h, f) && |OfKind(f + [l], true)| == |OfKind(h, true)| + 1 - a && a <= 1
    ensures InOrder(f + [l]) <==> InOrder(h) && (a == 1 ==> OfKind(h, true) == [])
  {
    KindSizes(h);
    SameKinds(h, f);
    SameOrder(h, f);
    KindSnoc(f, l, true);
    InOrderSnoc(f, l);
  }

  /** The counts, as the streams are heard. */
  lemma StepInOrder(t: seq<Event>, u: seq<Event>, a: nat, b: nat)
    requires t <= u && a + b <= 1
    requires |Heard(u, false)| == |Heard(t, false)| + a && |Heard(u, true)| == |Heard(t, true)| + b
    ensures InOrder(Wire(u)) <==> InOrder(Wire(t)) && (a == 1 ==> Heard(t, true) == [])
  {
    WireContinues(t, u);
    WireKinds(t, false);
    WireKinds(t, true);
    WireKinds(u, false);
    WireKinds(u, true);
    OneMore(Wire(t), Wire(u), a, b);
  }

  // ------------------------------------------------------------- the events that start blocks

  /** The event opens a text or thinking block: its kind is not the one that is open. */
  predicate OpensBlock(env: Env, s: State, m: Input) {
    !s.out.hasReturn && (IsThinkingInput(m) ==> !env.suppressThinking) &&
    match m
    case ReasoningStart(sig) => sig != "" && !s.out.active.ActiveThinking?
    case ReasoningDelta(sig, delta) => (delta != "" || Signature(s.out, sig) != "") && !s.out.active.ActiveThinking?
    case TextStart => !s.out.active.ActiveText?
    case TextDelta(delta, source, now) =>
      delta != "" && !SkipText(env, s.memory, env.collapse(delta), source, now).0 && !s.out.active.ActiveText?
    case _ => false
  }

  /** Some event opens a block after a call was accepted. */
  predicate TextAfterCall(env: Env, s: State, ms: seq<Input>) {
    ms != [] &&
      var front := ms[..|ms| - 1];
      TextAfterCall(env, s, front) || (Taken(env, s, front) != [] && OpensBlock(env, Deliver(env, s, front), ms[|ms| - 1]))
  }

  /** The error text put on show when the attempt is not retried. */
  function Shown(t: State, r: Result, retries: nat): Option<Bytes> {
    match r
    case Success => None
    case Failed(f) =>
      if HasAnyOutput(t) then Some(f.upstreamText)
      else if Decide(f, retries).GiveUp? then Decide(f, retries).text
      else None
  }

  /** It needs a text block of its own. */
  predicate ErrorOpens(t: State, text: Option<Bytes>) { text.Some? && !t.out.hasReturn && !t.out.active.ActiveText? }

  /** In the last attempt a text or thinking block starts after an accepted call: for an event, or for the error. */
  predicate OutOfOrder(env: Env, s: State, attempts: seq<Attempt>, retries: nat)
    requires |attempts| > retries
    decreases retries
  {
    var t, ms := Attempted(env, s, attempts[0]), attempts[0].events;
    if Retried(t, attempts[0], retries) then OutOfOrder(env, t, attempts[1..], retries - 1)
    else
      || TextAfterCall(env, Reset(env, s), ms)
      || (Taken(env, Reset(env, s), ms) != [] && ErrorOpens(t, Shown(t, attempts[0].result, retries)))
  }

  // --------------------------------------------------------------------------- one event

  /** One block more in the content array exactly for the events that open one. */
  lemma OpensGrows(n: Env, u: State, m: Input)
    requires !n.isStream && !u.out.hasReturn && !m.Finish?
    ensures |Handle(n, u, m).out.blocks| == |u.out.blocks| + if OpensBlock(n, u, m) then 1 else 0
  {
    if IsToolInput(m) { ToolsOpenNone(n, u, m); }
    else if m.TextDelta? { TextOpens(n, u, m.delta, m.source, m.now); }
    else if m.ReasoningDelta? { ReasoningOpens(n, u.out, m.sig, m.delta); }
  }

  lemma ToolsOpenNone(n: Env, u: State, m: Input)
    requires !n.isStream && !u.out.hasReturn && IsToolInput(m)
    ensures |Handle(n, u, m).out.blocks| == |u.out.blocks|
  {
  }

  lemma TextOpens(n: Env, u: State, delta: Bytes, source: Bytes, now: int)
    requires !n.isStream
    ensures |OnTextDelta(n, u, delta, source, now).out.blocks| == |u.out.blocks|
      + if delta != "" && !SkipText(n, u.memory, n.collapse(delta), source, now).0 && !u.out.active.ActiveText? then 1 else 0
  {
  }

  lemma ReasoningOpens(n: Env, o: Out, sig: Bytes, delta: Bytes)
    requires !n.isStream
    ensures |ReasoningDeltaOut(n, o, sig, delta).blocks| == |o.blocks|
      + if !n.suppressThinking && (delta != "" || Signature(o, sig) != "") && !o.active.ActiveThinking? then 1 else 0
  {
  }

  lemma OneKind(n: Env, u: State, m: Input)
    ensures |CallOf(n, u, m)| <= 1 && (OpensBlock(n, u, m) ==> CallOf(n, u, m) == [])
  {
  }

  lemma FinishHeardToo(p: Env, n: Env, s: State, u: State, reason: Bytes, count: Option<int>)
    requires Modes(p, n) && Rel(s, u)
    ensures Heard(OnFinish(p, s, reason, count).out.trace, false) == Heard(s.out.trace, false)
  {
    CloseIsNotHeard(p, s.out);
    FinishHeard(p, s.(out := CloseActive(p, s.out), usage := SetUsage(s.usage, count)), AskedReason(s.tools, reason), false);
  }

  lemma CloseIsNotHeard(p: Env, o: Out)
    requires p.isStream && !o.hasReturn
    ensures Heard(CloseActive(p, o).trace, false) == Heard(o.trace, false)
  {
    if o.active != NoBlock { EmitHeard(p, o.(active := NoBlock), Stop(o.active.index)); }
  }

  /** While the response is open the counts are those of the other mode. */
  lemma LiveCounts(s: State, u: State)
    requires Rel(s, u)
    ensures |Heard(s.out.trace, false)| == |u.out.blocks| && |Heard(s.out.trace, true)| == |u.tools.pending|
  {
  }

  lemma HandleGrows(p: Env, s: State, m: Input)
    requires p.isStream && Inv(s)
    ensures s.out.trace <= Handle(p, s, m).out.trace
    ensures s.out.hasReturn ==> Handle(p, s, m).out.trace == s.out.trace
    ensures !s.out.hasReturn && m.Finish? ==> Handle(p, s, m) == OnFinish(p, s, m.reason, m.usage)
  {
    HandleKeeps(p, s, m);
  }

  lemma HandleOrder(p: Env, n: Env, s: State, u: State, m: Input, t: seq<Event>)
    requires Modes(p, n) && NamesNeeded(p) && Agree(n, s, u) && Inv(s) && t == Handle(p, s, m).out.trace
    ensures InOrder(Wire(t)) <==> InOrder(Wire(s.out.trace)) && (OpensBlock(n, u, m) ==> Heard(s.out.trace, true) == [])
  {
    HandleGrows(p, s, m);
    if !u.out.hasReturn { LiveOrder(p, n, s, u, m, t); }
  }

  lemma LiveOrder(p: Env, n: Env, s: State, u: State, m: Input, t: seq<Event>)
    requires Modes(p, n) && NamesNeeded(p) && Rel(s, u) && s.out.trace <= t && t == Handle(p, s, m).out.trace
    requires m.Finish? ==> t == OnFinish(p, s, m.reason, m.usage).out.trace
    ensures InOrder(Wire(t)) <==> InOrder(Wire(s.out.trace)) && (OpensBlock(n, u, m) ==> Heard(s.out.trace, true) == [])
  {
    if m.Finish? { FinishStep(p, n, s, u, m.reason, m.usage, t); } else { OpenStep(p, n, s, u, m); }
  }

  lemma FinishStep(p: Env, n: Env, s: State, u: State, reason: Bytes, count: Option<int>, t: seq<Event>)
    requires Modes(p, n) && Rel(s, u) && t == OnFinish(p, s, reason, count).out.trace && s.out.trace <= t
    ensures InOrder(Wire(t)) <==> InOrder(Wire(s.out.trace))
  {
    FinishCounted(p, n, s, u, reason, count, t);
    StepInOrder(s.out.trace, t, 0, 0);
  }

  lemma FinishCounted(p: Env, n: Env, s: State, u: State, reason: Bytes, count: Option<int>, t: seq<Event>)
    requires Modes(p, n) && Rel(s, u) && t == OnFinish(p, s, reason, count).out.trace
    ensures |Heard(t, false)| == |Heard(s.out.trace, false)| && |Heard(t, true)| == |Heard(s.out.trace, true)|
  {
    OnFinishAgrees(p, n, s, u, reason, count);
    FinishHeardToo(p, n, s, u, reason, count);
  }

  lemma OpenStep(p: Env, n: Env, s: State, u: State, m: Input)
    requires Modes(p, n) && NamesNeeded(p) && Rel(s, u) && !m.Finish? && s.out.trace <= Handle(p, s, m).out.trace
    ensures InOrder(Wire(Handle(p, s, m).out.trace)) <==>
      InOrder(Wire(s.out.trace)) && (OpensBlock(n, u, m) ==> Heard(s.out.trace, true) == [])
  {
    HandleAgrees(p, n, s, u, m);
    HandleQueues(n, u, m);
    OpensGrows(n, u, m);
    OneKind(n, u, m);
    LiveCounts(s, u);
    LiveCounts(Handle(p, s, m), Handle(n, u, m));
    StepInOrder(s.out.trace, Handle(p, s, m).out.trace, if OpensBlock(n, u, m) then 1 else 0, |CallOf(n, u, m)|);
  }

  /** What is written stays in order until an event opens a block after a call. */
  lemma {:induction false} DeliverOrder(p: Env, n: Env, s: State, u: State, ms: seq<Input>)
    requires Modes(p, n) && NamesNeeded(p) && Agree(n, s, u) && Counted(s, u, []) && Inv(s) && !s.out.hasReturn
    requires InOrder(Wire(s.out.trace))
    ensures InOrder(Wire(Deliver(p, s, ms).out.trace)) <==> !TextAfterCall(n, u, ms)
  {
    if ms != [] {
      var front := ms[..|ms| - 1];
      DeliverOrder(p, n, s, u, front);
      DeliverAgrees(p, n, s, u, front);
      DeliverKeeps(p, s, front);
      HandleOrder(p, n, Deliver(p, s, front), Deliver(n, u, front), ms[|ms| - 1], Deliver(p, s, ms).out.trace);
    }
  }

  // ---------------------------------------------------------------------------- whole runs

  /** An error text opens a text block unless one is open. */
  lemma InjectOrder(p: Env, n: Env, s: State, u: State, text: Bytes)
    requires Modes(p, n) && Rel(s, u) && Inv(s)
    ensures InOrder(Wire(Inject(p, s, text).out.trace)) <==>
      InOrder(Wire(s.out.trace)) && (!u.out.active.ActiveText? ==> Heard(s.out.trace, true) == [])
  {
    InjectKeeps(p, s, text);
    InjectAgrees(p, n, s, u, text);
    LiveCounts(s, u);
    LiveCounts(Inject(p, s, text), Inject(n, u, text));
    assert |Inject(n, u, text).out.blocks| == |u.out.blocks| + if u.out.active.ActiveText? then 0 else 1;
    StepInOrder(s.out.trace, Inject(p, s, text).out.trace, if u.out.active.ActiveText? then 0 else 1, 0);
  }

  lemma FinishOrder(p: Env, s: State, reason: Bytes)
    requires p.isStream && Inv(s)
    ensures InOrder(Wire(FinishResponse(p, s, reason).out.trace)) <==> InOrder(Wire(s.out.trace))
  {
    FinishKeeps(p, s, reason);
    FinishHeard(p, s, reason, true);
    FinishHeard(p, s, reason, false);
    StepInOrder(s.out.trace, FinishResponse(p, s, reason).out.trace, 0, 0);
  }

  lemma EndOrder(p: Env, n: Env, t: State, v: State, text: Option<Bytes>)
    requires Modes(p, n) && (Rel(t, v) || HandlerModes.Ended(n, t, v)) && Inv(t)
    ensures InOrder(Wire(EndWith(p, t, text).out.trace)) <==>
      InOrder(Wire(t.out.trace)) && (ErrorOpens(v, text) ==> Heard(t.out.trace, true) == [])
  {
    if t.out.hasReturn {
      if text.Some? { InjectAfterEnd(p, t, text.value); }
    } else if text.Some? {
      InjectOrder(p, n, t, v, text.value);
      InjectKeeps(p, t, text.value);
      FinishOrder(p, Inject(p, t, text.value), "end_turn");
    } else {
      FinishOrder(p, t, "end_turn");
    }
  }

  /** A round starts with nothing written of any block. */
  lemma RoundIsEmpty(s: State, u: State)
    requires Rel(s, u) && u.out.blocks == [] && u.tools.pending == []
    ensures InOrder(Wire(s.out.trace)) && Counted(s, u, [])
  {
    WireKinds(s.out.trace, false);
    WireKinds(s.out.trace, true);
    KindSizes(Wire(s.out.trace));
  }

  /** The attempt, in order until an event opens a block after a call. */
  lemma AttemptOrder(p: Env, n: Env, s: State, u: State, a: Attempt)
    requires Modes(p, n) && NamesNeeded(p) && AtLoop(p, n, s, u)
    ensures var t := Attempted(p, s, a);
      InOrder(Wire(t.out.trace)) <==> !TextAfterCall(n, Reset(n, u), a.events)
  {
    RoundIsEmpty(Reset(p, s), Reset(n, u));
    DeliverOrder(p, n, Reset(p, s), Reset(n, u), a.events);
  }

  /** The claim for one position of the loop. */
  ghost predicate Orders(k: Course, s: State, u: State, attempts: seq<Attempt>, retries: nat) {
    OnCourse(k, s, u, attempts, retries) ==> (InOrder(Wire(k.x.out.trace)) <==> !OutOfOrder(k.n, u, attempts, retries))
  }

  ghost predicate OrdersFrom(k: Course, attempts: seq<Attempt>, retries: nat) {
    forall s, u :: Orders(k, s, u, attempts, retries)
  }

  /** The attempt that is not retried. */
  lemma LastOrder(k: Course, s: State, u: State, attempts: seq<Attempt>, retries: nat)
    requires OnCourse(k, s, u, attempts, retries) && !Retried(Attempted(k.p, s, attempts[0]), attempts[0], retries)
    ensures InOrder(Wire(k.x.out.trace)) <==> !OutOfOrder(k.n, u, attempts, retries)
  {
    var a := attempts[0];
    var t, v := Attempted(k.p, s, a), Attempted(k.n, u, a);
    AttemptAgrees(k.p, k.n, s, u, a);
    AttemptOrder(k.p, k.n, s, u, a);
    AttemptKeeps(k.p, s, a);
    LastEnds(k.p, k.n, t, v, a, retries);
    SameVerdict(k.n, t, v, a, retries);
    assert Heard(t.out.trace, true) == [] <==> Taken(k.n, Reset(k.n, u), a.events) == [];
    LastState(k.p, s, attempts, retries);
  }

  /** Where the loop ends after the attempt. */
  function After(env: Env, t: State, a: Attempt, retries: nat): State {
    if a.result.Success? then ForceFinish(env, t) else EndWith(env, t, Shown(t, a.result, retries))
  }

  lemma LastState(env: Env, s: State, attempts: seq<Attempt>, retries: nat)
    requires |attempts| > retries && !Retried(Attempted(env, s, attempts[0]), attempts[0], retries)
    ensures RunFrom(env, s, attempts, retries) == After(env, Attempted(env, s, attempts[0]), attempts[0], retries)
  {
  }

  lemma SameVerdict(n: Env, t: State, v: State, a: Attempt, retries: nat)
    requires Rel(t, v) || HandlerModes.Ended(n, t, v)
    ensures Retried(t, a, retries) == Retried(v, a, retries) && Shown(t, a.result, retries) == Shown(v, a.result, retries)
  {
    if Rel(t, v) { SameOutput(t, v); } else { SameOutputEnded(n, t, v); }
  }

  lemma LastEnds(p: Env, n: Env, t: State, v: State, a: Attempt, retries: nat)
    requires Modes(p, n) && (Rel(t, v) || HandlerModes.Ended(n, t, v)) && Inv(t)
    ensures InOrder(Wire(After(p, t, a, retries).out.trace)) <==>
      InOrder(Wire(t.out.trace)) && (ErrorOpens(v, Shown(t, a.result, retries)) ==> Heard(t.out.trace, true) == [])
  {
    if a.result.Success? {
      if !t.out.hasReturn { FinishOrder(p, t, if HasToolCalls(t.tools) then "tool_use" else "end_turn"); }
    } else {
      EndOrder(p, n, t, v, Shown(t, a.result, retries));
    }
  }

  lemma TurnOrders(k: Course, s: State, u: State, attempts: seq<Attempt>, retries: nat)
    requires |attempts| > retries
    requires retries > 0 ==> OrdersFrom(k, attempts[1..], retries - 1)
    ensures Orders(k, s, u, attempts, retries)
  {
    if OnCourse(k, s, u, attempts, retries) {
      if Retried(Attempted(k.p, s, attempts[0]), attempts[0], retries) {
        LoopTurns(k, s, u, attempts, retries);
        RetryAgrees(k.p, k.n, s, u, attempts[0], retries);
        assert Orders(k, Attempted(k.p, s, attempts[0]), Attempted(k.n, u, attempts[0]), attempts[1..], retries - 1);
      } else {
        LastOrder(k, s, u, attempts, retries);
      }
    }
  }

  lemma {:induction false} RunFromOrders(k: Course, attempts: seq<Attempt>, retries: nat)
    requires |attempts| > retries
    ensures OrdersFrom(k, attempts, retries)
    decreases retries
  {
    if retries > 0 { RunFromOrders(k, attempts[1..], retries - 1); }
    forall s, u ensures Orders(k, s, u, attempts, retries) { TurnOrders(k, s, u, attempts, retries); }
  }

  /** Over a whole run, retries included, no text or thinking block starts after a tool block on the wire if and only if
      in the last attempt none is opened after a call is accepted. */
  lemma RunOrders(p: Env, n: Env, start: Event, seeds: set<Bytes>, attempts: seq<Attempt>, retries: nat)
    requires Modes(p, n) && NamesNeeded(p) && |attempts| > retries && start.MessageStart?
    ensures InOrder(Wire(Run(p, start, seeds, attempts, retries).out.trace)) <==> !OutOfOrder(n, Opened(n, start, seeds), attempts, retries)
  {
    var s, u := Opened(p, start, seeds), Opened(n, start, seeds);
    var k := CourseOf(p, n, s, u, attempts, retries);
    RunIsOnCourse(p, n, start, seeds, attempts, retries);
    RunFromOrders(k, attempts, retries);
    assert Orders(k, s, u, attempts, retries);
  }
}
