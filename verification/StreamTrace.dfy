/** What a well-formed response stream is: a recogniser, and what its acceptance means position by position. */
module StreamTrace {
  import opened Bytes
  import opened SseEvent

  datatype Kind = TextKind | ThinkingKind

  /** A tool block being written inside the body: nothing, started, or given its input. */
  datatype Tool = NoTool | Started(index: int) | Filled(index: int)

  datatype Phase =
    | Fresh
    | Body(last: int, open: Option<(Kind, int)>, tool: Tool)
    | Ended
    | Done
    | Bad

  function Step(p: Phase, e: Event): Phase {
    match (p, e)
    case (Fresh, MessageStart(_, _, _, _)) => Body(-1, None, NoTool)
    case (Body(last, None, NoTool), StartText(i)) => if i > last then Body(i, Some((TextKind, i)), NoTool) else Bad
    case (Body(last, None, NoTool), StartThinking(i, _)) => if i > last then Body(i, Some((ThinkingKind, i)), NoTool) else Bad
    case (Body(last, open, NoTool), StartToolUse(i, _, _)) => if i > last then Body(i, open, Started(i)) else Bad
    case (Body(last, open, Started(t)), DeltaInput(i, _)) => if i == t then Body(last, open, Filled(t)) else Bad
    case (Body(last, open, Filled(t)), Stop(i)) => if i == t then Body(last, open, NoTool) else Bad
    case (Body(last, Some(b), NoTool), DeltaText(i, _)) => if b == (TextKind, i) then p else Bad
    case (Body(last, Some(b), NoTool), DeltaThinking(i, _)) => if b == (ThinkingKind, i) then p else Bad
    case (Body(last, Some(b), NoTool), Stop(i)) => if b.1 == i then Body(last, None, NoTool) else Bad
    case (Body(_, None, NoTool), MessageDelta(_, _)) => Ended
    case (Ended, MessageStop) => Done
    case _ => Bad
  }

  function Read(t: seq<Event>): Phase {
    if t == [] then Fresh else Step(Read(t[..|t| - 1]), t[|t| - 1])
  }

  lemma ReadSnoc(t: seq<Event>, e: Event)
    ensures Read(t + [e]) == Step(Read(t), e)
  {
    assert (t + [e])[..|t|] == t;
  }

  /** A finished or spoilt stream is spoilt by anything more. */
  lemma {:induction false} NothingAfterDone(t: seq<Event>, u: seq<Event>)
    requires t <= u && (Read(t) == Done || Read(t) == Bad) && |u| > |t|
    ensures Read(u) == Bad
  {
    if |u| > |t| + 1 {
      NothingAfterDone(t, u[..|u| - 1]);
    } else {
      assert u[..|u| - 1] == t;
    }
  }

  // ------------------------------------------------------------------- what acceptance means

  predicate IsStart(e: Event) { e.StartText? || e.StartThinking? || e.StartToolUse? }

  predicate IsDelta(e: Event) { e.DeltaText? || e.DeltaThinking? || e.DeltaInput? }

  predicate IsBlockEvent(e: Event) { IsStart(e) || IsDelta(e) || e.Stop? }

  /** `d` is a delta for the block that `s` starts. */
  predicate DeltaOf(s: Event, d: Event) {
    || (s.StartText? && d.DeltaText? && d.index == s.index)
    || (s.StartThinking? && d.DeltaThinking? && d.index == s.index)
    || (s.StartToolUse? && d.DeltaInput? && d.index == s.index)
  }

  /** The block started at `a` is not stopped before position `n`. */
  predicate OpenUntil(t: seq<Event>, a: nat, n: nat)
    requires a < n <= |t| && IsStart(t[a])
  {
    forall b :: a < b < n ==> t[b] != Stop(t[a].index)
  }

  /** Start indices strictly increase. */
  ghost predicate Increasing(t: seq<Event>) {
    forall a, b :: 0 <= a < b < |t| && IsStart(t[a]) && IsStart(t[b]) ==> t[a].index < t[b].index
  }

  /** Every delta at `b` is for a block of its own kind that is open. */
  ghost predicate DeltasInOpenBlocks(t: seq<Event>) { forall b :: 0 <= b < |t| && IsDelta(t[b]) ==> DeltaInOpenBlock(t, b) }

  ghost predicate DeltaInOpenBlock(t: seq<Event>, b: nat)
    requires b < |t|
  {
    exists a :: 0 <= a < b && DeltaOf(t[a], t[b]) && OpenUntil(t, a, b)
  }

  /** Every stop at `b` is for a block that is open. */
  ghost predicate StopsOpenBlocks(t: seq<Event>) {
    forall b :: 0 <= b < |t| && t[b].Stop? ==> StopOfOpenBlock(t, b)
  }

  ghost predicate StopOfOpenBlock(t: seq<Event>, b: nat)
    requires b < |t|
  {
    exists a :: 0 <= a < b && IsStart(t[a]) && t[b] == Stop(t[a].index) && OpenUntil(t, a, b)
  }

  /** A text or thinking block starts only when every earlier one is stopped. */
  ghost predicate OneTextBlock(t: seq<Event>) {
    forall a, b :: 0 <= a < b < |t| && IsStart(t[a]) && IsStart(t[b]) && !t[a].StartToolUse? && !t[b].StartToolUse? ==>
      !OpenUntil(t, a, b)
  }

  /** A tool block is written whole: its start, its input, its stop, with nothing in between. */
  ghost predicate WholeTools(t: seq<Event>) {
    forall a :: 0 <= a < |t| && t[a].StartToolUse? ==>
      (a + 1 < |t| ==> DeltaOf(t[a], t[a + 1])) && (a + 2 < |t| ==> t[a + 2] == Stop(t[a].index))
  }

  /** A complete response: one message_start, block events, one message_delta, one message_stop, and every
      block that is started is stopped exactly once. */
  ghost predicate WellFormed(t: seq<Event>) {
    && |t| >= 3 && t[0].MessageStart? && t[|t| - 2].MessageDelta? && t[|t| - 1].MessageStop?
    && (forall a :: 0 < a < |t| - 2 ==> IsBlockEvent(t[a]))
    && Increasing(t) && DeltasInOpenBlocks(t) && StopsOpenBlocks(t) && OneTextBlock(t) && WholeTools(t)
    && (forall a :: 0 <= a < |t| && IsStart(t[a]) ==> exists b :: a < b < |t| && t[b] == Stop(t[a].index))
    && (forall b, c :: 0 <= b < c < |t| && t[b].Stop? ==> t[c] != t[b])
  }

  // -------------------------------------------------------------------------------- the proofs

  /** The block of start `s` is open in phase `p`. */
  predicate IsOpenIn(p: Phase, s: Event)
    requires IsStart(s)
  {
    p.Body? &&
    match s
    case StartText(i) => p.open == Some((TextKind, i))
    case StartThinking(i, _) => p.open == Some((ThinkingKind, i))
    case StartToolUse(i, _, _) => p.tool == Started(i) || p.tool == Filled(i)
    case _ => false
  }

  predicate Sane(p: Phase) {
    p.Body? ==>
      && (p.open.Some? ==> p.open.value.1 <= p.last)
      && (p.tool != NoTool ==> p.tool.index == p.last && (p.open.Some? ==> p.open.value.1 < p.last))
  }

  lemma {:induction false} ReadSane(t: seq<Event>)
    ensures Sane(Read(t)) && (t == [] <==> Read(t) == Fresh)
  {
    if t != [] { ReadSane(t[..|t| - 1]); }
  }

  lemma {:induction false} StartsBelowLast(t: seq<Event>)
    requires Read(t) != Bad
    ensures Increasing(t)
    ensures Read(t).Body? ==> forall a :: 0 <= a < |t| && IsStart(t[a]) ==> t[a].index <= Read(t).last
  {
    if t != [] {
      var u := t[..|t| - 1];
      ReadSane(u);
      StartsBelowLast(u);
      assert forall a :: 0 <= a < |u| ==> t[a] == u[a];
      assert Read(t) == Step(Read(u), t[|u|]);
    }
  }

  /** A block is still open exactly when the recogniser says so. */
  lemma {:induction false} OpenBlocks(t: seq<Event>)
    requires Read(t) != Bad
    ensures forall a :: 0 <= a < |t| && IsStart(t[a]) ==> (OpenUntil(t, a, |t|) <==> IsOpenIn(Read(t), t[a]))
  {
    if t != [] {
      var u, e := t[..|t| - 1], t[|t| - 1];
      ReadSane(u);
      StartsBelowLast(u);
      OpenBlocks(u);
      forall a | 0 <= a < |t| && IsStart(t[a]) ensures OpenUntil(t, a, |t|) <==> IsOpenIn(Read(t), t[a]) {
        if a < |u| {
          assert u[a] == t[a];
          assert OpenUntil(t, a, |t|) <==> OpenUntil(u, a, |u|) && e != Stop(t[a].index);
        }
      }
    }
  }

  /** `s` starts the block that `open` describes. */
  predicate Starts(s: Event, open: (Kind, int)) {
    match open.0
    case TextKind => s == StartText(open.1)
    case ThinkingKind => s.StartThinking? && s.index == open.1
  }

  /** What the recogniser calls open was started. */
  lemma {:induction false} OpenWasStarted(t: seq<Event>)
    requires Read(t).Body?
    ensures Read(t).open.Some? ==> exists a :: 0 <= a < |t| && Starts(t[a], Read(t).open.value)
    ensures Read(t).tool != NoTool ==> exists a :: 0 <= a < |t| && t[a].StartToolUse? && t[a].index == Read(t).tool.index
  {
    var u := t[..|t| - 1];
    if Read(u).Body? {
      OpenWasStarted(u);
      if Read(u).open.Some? {
        var a :| 0 <= a < |u| && Starts(u[a], Read(u).open.value);
        assert t[a] == u[a];
      }
      if Read(u).tool != NoTool {
        var a :| 0 <= a < |u| && u[a].StartToolUse? && u[a].index == Read(u).tool.index;
        assert t[a] == u[a];
      }
      assert t[|t| - 1] == t[|u|];
    }
  }

  /** `e`, a delta or a stop, is for the block started at `a`, open until position `n`. */
  predicate Hits(t: seq<Event>, a: nat, n: nat, e: Event)
    requires n <= |t|
  {
    a < n && IsStart(t[a]) && (DeltaOf(t[a], e) || e == Stop(t[a].index)) && OpenUntil(t, a, n)
  }

  /** A delta or stop that is accepted belongs to a block that is open. */
  lemma LastHitsOpenBlock(u: seq<Event>, e: Event)
    requires Step(Read(u), e) != Bad && (IsDelta(e) || e.Stop?)
    ensures exists a :: Hits(u, a, |u|, e)
  {
    OpenBlocks(u);
    OpenWasStarted(u);
    var p := Read(u);
    if p.tool != NoTool {
      var a :| 0 <= a < |u| && u[a].StartToolUse? && u[a].index == p.tool.index;
      assert Hits(u, a, |u|, e);
    } else {
      var a :| 0 <= a < |u| && Starts(u[a], p.open.value);
      assert Hits(u, a, |u|, e);
    }
  }

  /** What holds at a position of a prefix holds at that position. */
  lemma HitsLater(u: seq<Event>, t: seq<Event>, b: nat)
    requires u <= t && b < |u|
    ensures DeltaInOpenBlock(u, b) ==> DeltaInOpenBlock(t, b)
    ensures StopOfOpenBlock(u, b) ==> StopOfOpenBlock(t, b)
  {
    assert t[b] == u[b];
    if DeltaInOpenBlock(u, b) {
      var a :| 0 <= a < b && DeltaOf(u[a], u[b]) && OpenUntil(u, a, b);
      assert t[a] == u[a] && OpenUntil(t, a, b);
    }
    if StopOfOpenBlock(u, b) {
      var a :| 0 <= a < b && IsStart(u[a]) && u[b] == Stop(u[a].index) && OpenUntil(u, a, b);
      assert t[a] == u[a] && OpenUntil(t, a, b);
    }
  }

  lemma HitAtEnd(u: seq<Event>, e: Event, a: nat)
    requires Hits(u, a, |u|, e)
    ensures IsDelta(e) ==> DeltaInOpenBlock(u + [e], |u|)
    ensures e.Stop? ==> StopOfOpenBlock(u + [e], |u|)
  {
    var t := u + [e];
    assert t[a] == u[a] && OpenUntil(t, a, |u|);
  }

  lemma LastHits(u: seq<Event>, e: Event)
    requires Step(Read(u), e) != Bad
    ensures IsDelta(e) ==> DeltaInOpenBlock(u + [e], |u|)
    ensures e.Stop? ==> StopOfOpenBlock(u + [e], |u|)
  {
    if IsDelta(e) || e.Stop? {
      LastHitsOpenBlock(u, e);
      var a: nat :| Hits(u, a, |u|, e);
      HitAtEnd(u, e, a);
    }
  }

  lemma {:induction false} DeltasAndStopsHit(t: seq<Event>)
    requires Read(t) != Bad
    ensures DeltasInOpenBlocks(t) && StopsOpenBlocks(t)
  {
    if t != [] {
      var u := t[..|t| - 1];
      DeltasAndStopsHit(u);
      LastHits(u, t[|t| - 1]);
      assert u + [t[|t| - 1]] == t;
      forall b | 0 <= b < |t| ensures (IsDelta(t[b]) ==> DeltaInOpenBlock(t, b)) && (t[b].Stop? ==> StopOfOpenBlock(t, b)) {
        if b < |u| { HitsLater(u, t, b); }
      }
    }
  }

  lemma {:induction false} TextBlocksDoNotOverlap(t: seq<Event>)
    requires Read(t) != Bad
    ensures OneTextBlock(t)
  {
    if t != [] {
      var u, e := t[..|t| - 1], t[|t| - 1];
      TextBlocksDoNotOverlap(u);
      OpenBlocks(u);
      forall a, b | 0 <= a < b < |t| && IsStart(t[a]) && IsStart(t[b]) && !t[a].StartToolUse? && !t[b].StartToolUse?
        ensures !OpenUntil(t, a, b)
      {
        assert t[a] == u[a];
        if b < |u| { assert t[b] == u[b]; }
        assert OpenUntil(t, a, b) <==> OpenUntil(u, a, b);
      }
    }
  }

  lemma {:induction false} ToolsAreWhole(t: seq<Event>)
    requires Read(t) != Bad
    ensures WholeTools(t)
    ensures t != [] && t[|t| - 1].StartToolUse? ==> Read(t).Body? && Read(t).tool == Started(t[|t| - 1].index)
    ensures |t| > 1 && t[|t| - 2].StartToolUse? ==> Read(t).Body? && Read(t).tool == Filled(t[|t| - 2].index)
  {
    if t != [] {
      var u := t[..|t| - 1];
      ToolsAreWhole(u);
      forall a | 0 <= a < |t| && t[a].StartToolUse?
        ensures (a + 1 < |t| ==> DeltaOf(t[a], t[a + 1])) && (a + 2 < |t| ==> t[a + 2] == Stop(t[a].index))
      {
        if a < |u| { assert u[a] == t[a]; }
        if a + 1 < |u| { assert u[a + 1] == t[a + 1]; }
        if a + 2 < |u| { assert u[a + 2] == t[a + 2]; }
      }
    }
  }

  lemma {:induction false} BodyIsBlocks(t: seq<Event>)
    requires Read(t).Body?
    ensures t != [] && t[0].MessageStart? && forall a :: 0 < a < |t| ==> IsBlockEvent(t[a])
  {
    ReadSane(t);
    var u := t[..|t| - 1];
    ReadSane(u);
    if Read(u).Body? { BodyIsBlocks(u); }
  }

  /** No index is stopped twice. */
  lemma StopsAreUnique(t: seq<Event>)
    requires Increasing(t) && StopsOpenBlocks(t)
    ensures forall b, c :: 0 <= b < c < |t| && t[b].Stop? ==> t[c] != t[b]
  {
  }

  lemma EveryStartIsStopped(t: seq<Event>)
    requires Read(t) == Done
    ensures forall a :: 0 <= a < |t| && IsStart(t[a]) ==> exists b :: a < b < |t| && t[b] == Stop(t[a].index)
  {
    OpenBlocks(t);
    forall a | 0 <= a < |t| && IsStart(t[a]) ensures exists b :: a < b < |t| && t[b] == Stop(t[a].index) {
      assert !OpenUntil(t, a, |t|);
    }
  }

  lemma DoneEnds(t: seq<Event>)
    requires Read(t) == Done
    ensures |t| >= 3 && t[0].MessageStart? && t[|t| - 2].MessageDelta? && t[|t| - 1].MessageStop?
    ensures forall a :: 0 < a < |t| - 2 ==> IsBlockEvent(t[a])
  {
    ReadSane(t);
    var u := t[..|t| - 1];
    ReadSane(u);
    var v := u[..|u| - 1];
    assert Read(u) == Ended && Read(v).Body?;
    BodyIsBlocks(v);
    assert forall a :: 0 <= a < |v| ==> v[a] == t[a];
  }

  /** Whatever the recogniser accepts is well formed. */
  lemma AcceptedIsWellFormed(t: seq<Event>)
    requires Read(t) == Done
    ensures WellFormed(t)
  {
    DoneEnds(t);
    StartsBelowLast(t);
    DeltasAndStopsHit(t);
    TextBlocksDoNotOverlap(t);
    ToolsAreWhole(t);
    StopsAreUnique(t);
    EveryStartIsStopped(t);
  }
}
