/** The blocks of a stream in the order a client hears them, against the order of the content array. */
module ContentOrder {
  import opened Bytes
  import opened SseEvent
  import opened StreamTrace
  import opened HandlerSpec
  import opened HandlerRuns
  import opened HandlerModes
  import opened BlockOrder
  import ToolDedup

  // ------------------------------------------------------------------------ the content array

  predicate SameBlock(env: Env, h: Entry, b: Block) { SameText(h, b) || SameCall(env, h, b) }

  /** The content array has the blocks of the stream, position by position. */
  predicate SameArray(env: Env, t: seq<Event>, blocks: seq<Block>) { SameBlocks(env, Wire(t), blocks) }

  predicate SameBlocks(env: Env, h: seq<Entry>, blocks: seq<Block>) {
    |blocks| == |h| && forall k :: 0 <= k < |blocks| ==> SameBlock(env, h[k], blocks[k])
  }

  /** Text and thinking blocks first, and as many blocks as the stream has. */
  predicate TextFirst(h: seq<Entry>, blocks: seq<Block>) {
    |blocks| == |h| && forall k :: 0 <= k < |blocks| ==> (blocks[k].ToolBlock? <==> k >= |OfKind(h, false)|)
  }

  lemma ArrayInOrder(env: Env, h: seq<Entry>, blocks: seq<Block>)
    requires TextFirst(h, blocks) && SameBlocks(env, h, blocks)
    ensures InOrder(h)
  {
    forall j, k | 0 <= j < k < |h| && IsToolEntry(h[j]) ensures IsToolEntry(h[k]) {
      assert SameBlock(env, h[j], blocks[j]) && SameBlock(env, h[k], blocks[k]);
    }
  }

  lemma SplitSame(env: Env, h: seq<Entry>, w: seq<Entry>, c: seq<Entry>, blocks: seq<Block>)
    requires h == w + c && |blocks| == |h| && (forall k :: 0 <= k < |w| ==> !IsToolEntry(w[k])) && forall k :: 0 <= k < |c| ==> IsToolEntry(c[k])
    ensures SameParts(env, w, c, blocks) <==> SameBlocks(env, h, blocks)
  {
    assert forall k :: 0 <= k < |w| ==> h[k] == w[k];
    assert forall k :: 0 <= k < |c| ==> h[|w| + k] == c[k];
    if SameParts(env, w, c, blocks) {
      forall k | 0 <= k < |blocks| ensures SameBlock(env, h[k], blocks[k]) {
        if k >= |w| { assert SameCall(env, c[k - |w|], blocks[|w| + (k - |w|)]); }
      }
    }
  }

  lemma {:induction false} KindsAre(h: seq<Entry>, tools: bool)
    ensures forall k :: 0 <= k < |OfKind(h, tools)| ==> IsToolEntry(OfKind(h, tools)[k]) == tools
  {
    if h != [] { KindsAre(h[..|h| - 1], tools); }
  }

  lemma StoredTextFirst(n: Env, h: seq<Entry>, w: seq<Entry>, c: seq<Entry>, blocks: seq<Block>)
    requires StoredParts(n, w, c, blocks) && |h| == |blocks| && w == OfKind(h, false)
    ensures TextFirst(h, blocks)
  {
    forall k | 0 <= k < |blocks| ensures blocks[k].ToolBlock? <==> k >= |w| {
      if k < |w| { assert SameText(w[k], blocks[k]); } else { assert StoredCall(n, c[k - |w|], blocks[|w| + (k - |w|)]); }
    }
  }

  /** Blocks in wire order are the stream's when, and only when, the parts are the same and the order is. */
  lemma PartsIff(n: Env, h: seq<Entry>, w: seq<Entry>, c: seq<Entry>, blocks: seq<Block>)
    requires StoredParts(n, w, c, blocks) && w == OfKind(h, false) && c == OfKind(h, true)
    ensures SameBlocks(n, h, blocks) <==> SameParts(n, w, c, blocks) && InOrder(h)
  {
    KindSizes(h);
    KindsAre(h, false);
    KindsAre(h, true);
    StoredTextFirst(n, h, w, c, blocks);
    if SameBlocks(n, h, blocks) { ArrayInOrder(n, h, blocks); }
    if InOrder(h) {
      InOrderSplits(h);
      SplitSame(n, h, w, c, blocks);
    }
  }

  /** An array in which the inputs are stored is the stream's exactly when the inputs parse and no text or thinking
      block starts after a tool block. */
  lemma ArrayIff(n: Env, t: seq<Event>, blocks: seq<Block>, calls: seq<Call>)
    requires StoredContent(n, t, blocks) && CallsAre(Heard(t, true), calls)
    ensures SameArray(n, t, blocks) <==> AllParse(n, calls) && InOrder(Wire(t))
  {
    WireKinds(t, false);
    WireKinds(t, true);
    StoredIsSame(n, t, blocks, calls);
    PartsIff(n, Wire(t), Heard(t, false), Heard(t, true), blocks);
  }

  /** Over a whole run the content array has the blocks of the stream in the order a client hears them if and only if
      the client does not fail late with an error put on show, every input accepted in the last attempt is JSON, and
      there no text or thinking block is opened, for an event or for the error, after a call is accepted. */
  lemma RunArrayAgrees(p: Env, n: Env, start: Event, seeds: set<Bytes>, attempts: seq<Attempt>, retries: nat)
    requires Modes(p, n) && NamesNeeded(p) && |attempts| > retries && start.MessageStart?
    ensures
      SameArray(n, Run(p, start, seeds, attempts, retries).out.trace, Run(n, start, seeds, attempts, retries).out.blocks) <==>
        && !LateError(p, Opened(p, start, seeds), attempts, retries)
        && AllParse(n, LastCalls(n, Opened(n, start, seeds), attempts, retries))
        && !OutOfOrder(n, Opened(n, start, seeds), attempts, retries)
  {
    var t, blocks := Run(p, start, seeds, attempts, retries).out.trace, Run(n, start, seeds, attempts, retries).out.blocks;
    RunSettles(p, n, start, seeds, attempts, retries);
    RunOrders(p, n, start, seeds, attempts, retries);
    if LateError(p, Opened(p, start, seeds), attempts, retries) {
      WireKinds(t, false);
      WireKinds(t, true);
      KindSizes(Wire(t));
    } else {
      ArrayIff(n, t, blocks, LastCalls(n, Opened(n, start, seeds), attempts, retries));
    }
  }

  // --------------------------------------------------------------- runs in which they differ

  /** The call is not rewritten and no gate holds it back. */
  predicate Ungated(p: Env, name: Bytes, input: Bytes) {
    p.rewrite(name, input) == (name, input) && !p.disallowTools && p.allowed(name, input) && !p.sandboxed(name, input)
  }

  /** Besides, its input is acceptable and it needs no dedup key. */
  predicate Passes(p: Env, name: Bytes, input: Bytes) { Ungated(p, name, input) && p.evaluate(name, input) == Some("") }

  lemma CallIsTaken(n: Env, s: State, id: Bytes, name: Bytes, input: Bytes, rest: seq<Input>)
    requires Passes(n, name, input) && id != ""
    ensures [Call(id, name, input)] <= Taken(n, Reset(n, s), [ToolCall(id, name, input)] + rest)
  {
    var ms := [ToolCall(id, name, input)] + rest;
    if rest == [] {
      assert ms == [ToolCall(id, name, input)] && ms[..0] == [];
      assert Taken(n, Reset(n, s), ms) == [] + CallOf(n, Reset(n, s), ms[0]);
    } else {
      CallIsTaken(n, s, id, name, input, rest[..|rest| - 1]);
      assert ms[..|ms| - 1] == [ToolCall(id, name, input)] + rest[..|rest| - 1];
    }
  }

  /** An input that is not JSON, `not json` say, of a tool that is none of the six whose inputs are read, is streamed as
      it is but stored as the empty object. */
  lemma UnparsedInputDiffers(p: Env, n: Env, x: ToolDedup.Text, start: Event, seeds: set<Bytes>, id: Bytes, name: Bytes, input: Bytes)
    requires Modes(p, n) && ToolDedup.Sound(x) && ToolDedup.Judges(p, x) && start.MessageStart? && id != ""
    requires Ungated(p, name, input) && ToolDedup.NameKey(x, name) != "" && !ToolDedup.IsStructured(ToolDedup.NameKey(x, name))
    requires p.parse(InputJSON(input)).None?
    ensures var attempts := [Attempt([ToolCall(id, name, input), Finish("tool_use", None)], Success)];
      !SameContent(n, Run(p, start, seeds, attempts, 0).out.trace, Run(n, start, seeds, attempts, 0).out.blocks)
  {
    var ms := [ToolCall(id, name, input), Finish("tool_use", None)];
    var attempts := [Attempt(ms, Success)];
    var u := Opened(n, start, seeds);
    ToolDedup.EvaluateNeedsName(x, p);
    ToolDedup.AnyInputPasses(x, name, input);
    CallIsTaken(n, u, id, name, input, [Finish("tool_use", None)]);
    assert ms == [ToolCall(id, name, input)] + [Finish("tool_use", None)];
    assert LastCalls(n, u, attempts, 0) == Taken(n, Reset(n, u), ms);
    assert LastCalls(n, u, attempts, 0)[0] == Call(id, name, input);
    RunAgrees(p, n, start, seeds, attempts, 0);
  }

  /** A client that fails after `model.finish`, not retryably: the error is in the array only. */
  lemma LateErrorDiffers(p: Env, n: Env, start: Event, seeds: set<Bytes>, f: Failure)
    requires Modes(p, n) && NamesNeeded(p) && start.MessageStart? && !f.retryable && f.category != "canceled"
    ensures var attempts := [Attempt([Finish("stop", None)], Failed(f))];
      !SameContent(n, Run(p, start, seeds, attempts, 0).out.trace, Run(n, start, seeds, attempts, 0).out.blocks)
  {
    var ms := [Finish("stop", None)];
    var attempts := [Attempt(ms, Failed(f))];
    assert ms[0].Finish?;
    assert HasFinish(ms);
    assert Decide(f, 0).GiveUp? && Decide(f, 0).text.Some?;
    RunAgrees(p, n, start, seeds, attempts, 0);
  }

  /** A call and then a text: block 0 is the tool on the wire and the text in the array. */
  lemma ToolThenTextDiffers(p: Env, n: Env, start: Event, seeds: set<Bytes>, id: Bytes, name: Bytes, input: Bytes)
    requires Modes(p, n) && NamesNeeded(p) && start.MessageStart? && id != "" && Passes(p, name, input)
    ensures var attempts := [Attempt([ToolCall(id, name, input), TextStart, Finish("stop", None)], Success)];
      !SameArray(n, Run(p, start, seeds, attempts, 0).out.trace, Run(n, start, seeds, attempts, 0).out.blocks)
  {
    var ms := [ToolCall(id, name, input), TextStart, Finish("stop", None)];
    var attempts := [Attempt(ms, Success)];
    var u := Opened(n, start, seeds);
    TextThenLate(n, u, id, name, input, ms);
    assert OutOfOrder(n, u, attempts, 0);
    RunArrayAgrees(p, n, start, seeds, attempts, 0);
  }

  lemma TextThenLate(n: Env, u: State, id: Bytes, name: Bytes, input: Bytes, ms: seq<Input>)
    requires !n.isStream && Passes(n, name, input) && id != "" && u.out.active == NoBlock
    requires ms == [ToolCall(id, name, input), TextStart, Finish("stop", None)]
    ensures TextAfterCall(n, Reset(n, u), ms)
  {
    var r := Reset(n, u);
    CallIsTaken(n, u, id, name, input, []);
    assert ms[..2][..1] == [ms[0]] == [ToolCall(id, name, input)] + [] && ms[..2][1] == TextStart;
    assert [ms[0]][..0] == [];
    assert Deliver(n, r, [ms[0]]) == Handle(n, r, ms[0]);
    assert TextAfterCall(n, r, ms[..2]);
  }
}
