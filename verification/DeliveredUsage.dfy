/** The output token count of a response, read off the events that were delivered. */
module DeliveredUsage {
  import opened Bytes
  import opened SseEvent
  import opened HandlerSpec
  import opened HandlerRuns
  import opened HandlerModes
  import opened Delivered
  import opened DeliveredCalls
  import BlockOrder

  // ---------------------------------------------------------------- the count, by position

  /** The output count that an event reports, negative when it counts only the input. */
  function Report(m: Input): Option<int> { if m.TokensUsed? || m.Finish? then m.usage else None }

  predicate ReportsAt(ms: seq<Input>, k: int) { 0 <= k < |ms| && !Closed(ms, k) && Report(ms[k]).Some? }

  predicate Reported(ms: seq<Input>, n: int) { exists k :: 0 <= k < n && ReportsAt(ms, k) }

  /** The last output count reported before event `n`. */
  function LastCount(ms: seq<Input>, n: nat): Option<int>
    requires n <= |ms|
  {
    if n == 0 then None
    else if ReportsAt(ms, n - 1) && Report(ms[n - 1]).value >= 0 then Report(ms[n - 1])
    else LastCount(ms, n - 1)
  }

  /** What event `k` adds to the text that is counted when the upstream reports nothing: the text it says, or what it
      takes to write the call it completes. */
  function Piece(env: Env, seen: set<Bytes>, seeds: set<Bytes>, ms: seq<Input>, k: int): Bytes
    requires 0 <= k < |ms|
  {
    if IsText(ms, k) then (if Says(env, seen, ms, k) == [] then "" else Text(env, ms, k))
    else if env.isStream && Accepts(env, seeds, ms, k) then
      var c := Offer(env, ms, k).value;
      if ms[k].ToolInputEnd? then c.input + c.name else c.name
    else ""
  }

  function Estimated(env: Env, seen: set<Bytes>, seeds: set<Bytes>, ms: seq<Input>, n: nat): Bytes
    requires n <= |ms|
  {
    if n == 0 then ""
    else if Closed(ms, n - 1) || Reported(ms, n - 1) then Estimated(env, seen, seeds, ms, n - 1)
    else Estimated(env, seen, seeds, ms, n - 1) + Piece(env, seen, seeds, ms, n - 1)
  }

  /** The tokens of the thoughts that were streamed before anything was reported. */
  function ThoughtTokens(env: Env, ms: seq<Input>, n: nat): int
    requires n <= |ms|
  {
    if n == 0 then 0
    else
      ThoughtTokens(env, ms, n - 1) +
      if env.isStream && !env.suppressThinking && ms[n - 1].ReasoningDelta? && ms[n - 1].delta != ""
         && !Closed(ms, n - 1) && !Reported(ms, n - 1) then env.tokens(ms[n - 1].delta)
      else 0
  }

  /** The names and inputs of queued calls. */
  function Queued(calls: seq<Call>): Bytes { if calls == [] then "" else calls[0].name + calls[0].input + Queued(calls[1..]) }

  function Running(env: Env, ms: seq<Input>, n: nat): int
    requires n <= |ms|
  {
    if LastCount(ms, n).Some? then LastCount(ms, n).value else ThoughtTokens(env, ms, n)
  }

  /** The count the response ends with: what the upstream last reported, and when it never did, that of the text. */
  function Total(env: Env, seen: set<Bytes>, seeds: set<Bytes>, ms: seq<Input>, n: nat): int
    requires n <= |ms|
  {
    if Reported(ms, n) then Running(env, ms, n)
    else env.tokens(Estimated(env, seen, seeds, ms, n) + if env.isStream then "" else Queued(AcceptedCalls(env, seeds, ms, n)))
  }

  // ---------------------------------------------------------------------- the usage fields

  /** What an event does to the usage fields, given what it says and the call it completes. */
  function UsageAfter(env: Env, u: Usage, m: Input, said: seq<Said>, calls: seq<Call>): Usage {
    if m.TokensUsed? then SetUsage(u, m.usage)
    else if said != [] then
      match said[0]
      case Spoke(text) => AddOutput(u, text)
      case Thought(text) => if env.isStream && !u.upstream then u.(tokens := u.tokens + env.tokens(text)) else u
    else if env.isStream && calls != [] then
      AddOutput(if m.ToolInputEnd? then AddOutput(u, calls[0].input) else u, calls[0].name)
    else u
  }

  lemma EndUsage(env: Env, s: State, id: Bytes)
    requires NamesNeeded(env) && !s.out.hasReturn && (env.isStream ==> s.tools.emitted == s.tools.handled)
    ensures OnToolInputEnd(env, s, id).usage == UsageAfter(env, s.usage, ToolInputEnd(id), [], CallOf(env, s, ToolInputEnd(id)))
  {
  }

  lemma CallUsage(env: Env, s: State, id: Bytes, name0: Bytes, input0: Bytes)
    requires NamesNeeded(env) && !s.out.hasReturn && (env.isStream ==> s.tools.emitted == s.tools.handled)
    ensures OnToolCall(env, s, id, name0, input0).usage
      == UsageAfter(env, s.usage, ToolCall(id, name0, input0), [], CallOf(env, s, ToolCall(id, name0, input0)))
  {
  }

  lemma HandleUsage(env: Env, s: State, m: Input)
    requires NamesNeeded(env) && !s.out.hasReturn && !m.Finish? && (env.isStream ==> s.tools.emitted == s.tools.handled)
    ensures Handle(env, s, m).usage == UsageAfter(env, s.usage, m, Uttered(env, s.memory, m), CallOf(env, s, m))
  {
    match m
    case ToolInputEnd(id) => EndUsage(env, s, id);
    case ToolCall(id, name, input) => CallUsage(env, s, id, name, input);
    case _ =>
  }

  ghost predicate UsageMeans(env: Env, seen: set<Bytes>, seeds: set<Bytes>, ms: seq<Input>, n: nat, u: Usage)
    requires n <= |ms|
  {
    && u.upstream == Reported(ms, n) && u.text == Estimated(env, seen, seeds, ms, n) && u.tokens == Running(env, ms, n)
  }

  lemma ReportedNext(ms: seq<Input>, n: nat)
    ensures Reported(ms, n + 1) <==> Reported(ms, n) || ReportsAt(ms, n)
  {
    if ReportsAt(ms, n) { assert Reported(ms, n + 1); }
  }

  lemma NoReports(ms: seq<Input>, n: nat)
    requires n <= |ms| && !Reported(ms, n)
    ensures LastCount(ms, n).None?
  {
  }

  lemma UsageNext(env: Env, seen: set<Bytes>, seeds: set<Bytes>, ms: seq<Input>, n: nat, u: Usage)
    requires n < |ms| && !Closed(ms, n) && !ms[n].Finish? && UsageMeans(env, seen, seeds, ms, n, u)
    ensures UsageMeans(env, seen, seeds, ms, n + 1, UsageAfter(env, u, ms[n], Says(env, seen, ms, n), CallAt(env, seeds, ms, n)))
  {
    ReportedNext(ms, n);
    if !Reported(ms, n) { NoReports(ms, n); }
    var e := Estimated(env, seen, seeds, ms, n);
    assert e + "" == e;
    if ms[n].ToolInputEnd? && Accepts(env, seeds, ms, n) {
      var c := Offer(env, ms, n).value;
      assert (e + c.input) + c.name == e + (c.input + c.name);
    }
  }

  lemma {:induction false} FlushedUsage(env: Env, u: Usage, calls: seq<Call>)
    requires !env.isStream
    ensures FlushUsage(env, u, calls) == if u.upstream then u else u.(text := u.text + Queued(calls))
    decreases |calls|
  {
    if calls == [] {
      assert u.text + "" == u.text;
    } else {
      var v := CountCall(env, u, calls[0]);
      FlushedUsage(env, v, calls[1..]);
      var a, b, c, d := u.text, calls[0].name, calls[0].input, Queued(calls[1..]);
      assert ((a + b) + c) + d == a + (b + c + d);
    }
  }

  /** What the response is ended with once its events are in. */
  lemma FinalUsage(env: Env, seen: set<Bytes>, seeds: set<Bytes>, ms: seq<Input>, n: nat, u: Usage, pending: seq<Call>)
    requires n <= |ms| && UsageMeans(env, seen, seeds, ms, n, u)
    requires pending == if env.isStream then [] else AcceptedCalls(env, seeds, ms, n)
    ensures CountTokens(env, FlushUsage(env, u, pending)).tokens == Total(env, seen, seeds, ms, n)
  {
    if env.isStream { assert u.text + "" == u.text; } else { FlushedUsage(env, u, pending); }
  }

  // ------------------------------------------------------------------------ whole attempts

  lemma TotalStays(env: Env, seen: set<Bytes>, seeds: set<Bytes>, ms: seq<Input>, n: nat)
    requires n < |ms| && Closed(ms, n)
    ensures Total(env, seen, seeds, ms, n + 1) == Total(env, seen, seeds, ms, n)
  {
    ReportedNext(ms, n);
    assert LastCount(ms, n + 1) == LastCount(ms, n) && ThoughtTokens(env, ms, n + 1) == ThoughtTokens(env, ms, n);
    assert AcceptedCalls(env, seeds, ms, n) + [] == AcceptedCalls(env, seeds, ms, n);
  }

  lemma FinishMeans(env: Env, seen: set<Bytes>, seeds: set<Bytes>, ms: seq<Input>, n: nat, u: Usage)
    requires n < |ms| && !Closed(ms, n) && ms[n].Finish? && UsageMeans(env, seen, seeds, ms, n, u)
    ensures UsageMeans(env, seen, seeds, ms, n + 1, SetUsage(u, ms[n].usage))
    ensures AcceptedCalls(env, seeds, ms, n + 1) == AcceptedCalls(env, seeds, ms, n)
  {
    ReportedNext(ms, n);
    if !Reported(ms, n) { NoReports(ms, n); }
    var e := Estimated(env, seen, seeds, ms, n);
    assert e + "" == e;
    assert AcceptedCalls(env, seeds, ms, n) + [] == AcceptedCalls(env, seeds, ms, n);
  }

  lemma FinishUsage(env: Env, s: State, reason: Bytes, count: Option<int>)
    requires !s.out.hasReturn
    ensures OnFinish(env, s, reason, count).usage == CountTokens(env, FlushUsage(env, SetUsage(s.usage, count), s.tools.pending))
  {
    FinishStops(env, s.(out := CloseActive(env, s.out), usage := SetUsage(s.usage, count)), AskedReason(s.tools, reason));
  }

  ghost predicate CountIs(env: Env, seen: set<Bytes>, seeds: set<Bytes>, ms: seq<Input>, n: nat, t: State)
    requires n <= |ms|
  {
    if Closed(ms, n) then t.usage.tokens == Total(env, seen, seeds, ms, n) else UsageMeans(env, seen, seeds, ms, n, t.usage)
  }

  /** Where an attempt stands after `n` events: what it said, accepted and counted. */
  ghost predicate Followed(env: Env, seen: set<Bytes>, ms: seq<Input>, n: nat, s: State, t: State, calls: seq<Call>)
    requires n <= |ms|
  {
    && HasSaid(env, seen, ms, n, s, t) && HasTaken(env, s.tools.seeds, ms, n, t, calls) && Standing(env, s.tools, ms, n, t, calls)
    && CountIs(env, seen, s.tools.seeds, ms, n, t)
  }

  lemma StepUsage(env: Env, seen: set<Bytes>, ms: seq<Input>, n: nat, s: State, t: State, calls: seq<Call>)
    requires NamesNeeded(env) && n < |ms| && Followed(env, seen, ms, n, s, t, calls)
    ensures CountIs(env, seen, s.tools.seeds, ms, n + 1, Handle(env, t, ms[n]))
  {
    ClosedNext(ms, n);
    if Closed(ms, n) { ClosedUsage(env, seen, s.tools.seeds, ms, n, t); } else { OpenUsage(env, seen, s.tools.seeds, ms, n, t); }
  }

  lemma ClosedUsage(env: Env, seen: set<Bytes>, seeds: set<Bytes>, ms: seq<Input>, n: nat, t: State)
    requires n < |ms| && Closed(ms, n) && t.out.hasReturn && CountIs(env, seen, seeds, ms, n, t)
    ensures CountIs(env, seen, seeds, ms, n + 1, Handle(env, t, ms[n]))
  {
    ClosedNext(ms, n);
    TotalStays(env, seen, seeds, ms, n);
  }

  lemma OpenUsage(env: Env, seen: set<Bytes>, seeds: set<Bytes>, ms: seq<Input>, n: nat, t: State)
    requires NamesNeeded(env) && n < |ms| && !Closed(ms, n) && !t.out.hasReturn && UsageMeans(env, seen, seeds, ms, n, t.usage)
    requires Remembers(env, seen, ms, n, t.memory) && FieldsMean(env, seeds, ms, n, t.tools)
    requires env.isStream ==> t.tools.emitted == t.tools.handled
    requires t.tools.pending == if env.isStream then [] else AcceptedCalls(env, seeds, ms, n)
    ensures ms[n].Finish? ==> Handle(env, t, ms[n]).usage.tokens == Total(env, seen, seeds, ms, n + 1)
    ensures !ms[n].Finish? ==> UsageMeans(env, seen, seeds, ms, n + 1, Handle(env, t, ms[n]).usage)
  {
    if ms[n].Finish? {
      FinishCount(env, seen, seeds, ms, n, t, ms[n].reason, ms[n].usage);
      HandleIsFinish(env, t, ms[n]);
    } else {
      EventUsage(env, seen, seeds, ms, n, t);
    }
  }

  lemma HandleIsFinish(env: Env, t: State, m: Input)
    requires !t.out.hasReturn && m.Finish?
    ensures Handle(env, t, m) == OnFinish(env, t, m.reason, m.usage)
  {
  }

  lemma FinishCount(env: Env, seen: set<Bytes>, seeds: set<Bytes>, ms: seq<Input>, n: nat, t: State, reason: Bytes, count: Option<int>)
    requires n < |ms| && !Closed(ms, n) && ms[n] == Finish(reason, count) && UsageMeans(env, seen, seeds, ms, n, t.usage) && !t.out.hasReturn
    requires t.tools.pending == if env.isStream then [] else AcceptedCalls(env, seeds, ms, n)
    ensures OnFinish(env, t, reason, count).usage.tokens == Total(env, seen, seeds, ms, n + 1)
  {
    FinishMeans(env, seen, seeds, ms, n, t.usage);
    FinishUsage(env, t, reason, count);
    FinalUsage(env, seen, seeds, ms, n + 1, SetUsage(t.usage, count), t.tools.pending);
  }

  lemma EventUsage(env: Env, seen: set<Bytes>, seeds: set<Bytes>, ms: seq<Input>, n: nat, t: State)
    requires NamesNeeded(env) && n < |ms| && !Closed(ms, n) && !ms[n].Finish? && !t.out.hasReturn
    requires Remembers(env, seen, ms, n, t.memory) && FieldsMean(env, seeds, ms, n, t.tools)
    requires (env.isStream ==> t.tools.emitted == t.tools.handled) && UsageMeans(env, seen, seeds, ms, n, t.usage)
    ensures UsageMeans(env, seen, seeds, ms, n + 1, Handle(env, t, ms[n]).usage)
  {
    HandleUsage(env, t, ms[n]);
    StepUtters(env, seen, ms, n, t.memory);
    OfferMeans(env, seeds, ms, n, t);
    UsageNext(env, seen, seeds, ms, n, t.usage);
  }

  /** The state in which an attempt begins. */
  predicate Blank(s: State, seen: set<Bytes>) {
    && !s.out.hasReturn && s.memory.lastSource == "" && s.memory.introSeen == seen && s.usage == Usage(false, "", 0)
    && s.tools.names == map[] && s.tools.handled == {} && s.tools.emitted == {} && s.tools.pending == [] && s.tools.count == 0
    && s.tools.dedup == s.tools.seeds
  }

  lemma {:induction false} DeliverFollows(env: Env, seen: set<Bytes>, ms: seq<Input>, n: nat, s: State)
    requires NamesNeeded(env) && n <= |ms| && Blank(s, seen)
    ensures Followed(env, seen, ms, n, s, Deliver(env, s, ms[..n]), HandlerModes.Taken(env, s, ms[..n]))
  {
    DeliverSays(env, seen, ms, n, s);
    DeliverTakes(env, s.tools.seeds, ms, n, s);
    DeliverStands(env, ms, n, s);
    if n > 0 {
      DeliverFollows(env, seen, ms, n - 1, s);
      DeliverNext(env, s, ms, n - 1);
      StepUsage(env, seen, ms, n - 1, s, Deliver(env, s, ms[..n - 1]), HandlerModes.Taken(env, s, ms[..n - 1]));
    }
  }

  lemma AttemptFollows(env: Env, s: State, ms: seq<Input>)
    requires NamesNeeded(env)
    ensures Followed(env, s.memory.introSeen, ms, |ms|, Reset(env, s), Deliver(env, Reset(env, s), ms), HandlerModes.Taken(env, Reset(env, s), ms))
  {
    DeliverFollows(env, s.memory.introSeen, ms, |ms|, Reset(env, s));
    assert ms[..|ms|] == ms;
  }

  // ----------------------------------------------------------------------------- whole runs

  /** The count that the response of an attempt that is not retried ends with. */
  function TotalOf(env: Env, seeds: set<Bytes>, ms: seq<Input>): int { Total(env, {}, seeds, ms, |ms|) }

  lemma FinishTotals(env: Env, seen: set<Bytes>, ms: seq<Input>, s: State, t: State, calls: seq<Call>, reason: Bytes)
    requires Followed(env, seen, ms, |ms|, s, t, calls)
    ensures FinishResponse(env, t, reason).usage.tokens == Total(env, seen, s.tools.seeds, ms, |ms|)
  {
    if !t.out.hasReturn {
      FinishStops(env, t, reason);
      FinalUsage(env, seen, s.tools.seeds, ms, |ms|, t.usage, t.tools.pending);
    }
  }

  lemma InjectFollows(env: Env, seen: set<Bytes>, ms: seq<Input>, s: State, t: State, calls: seq<Call>, text: Bytes)
    requires Followed(env, seen, ms, |ms|, s, t, calls)
    ensures FinishResponse(env, Inject(env, t, text), "end_turn").usage.tokens == Total(env, seen, s.tools.seeds, ms, |ms|)
  {
    InjectKeepsEnd(env, t, text);
    if !t.out.hasReturn {
      FinishStops(env, Inject(env, t, text), "end_turn");
      FinalUsage(env, seen, s.tools.seeds, ms, |ms|, t.usage, t.tools.pending);
    }
  }

  lemma AfterTotals(env: Env, seen: set<Bytes>, s: State, t: State, a: Attempt, retries: nat, calls: seq<Call>)
    requires Followed(env, seen, a.events, |a.events|, s, t, calls)
    ensures BlockOrder.After(env, t, a, retries).usage.tokens == Total(env, seen, s.tools.seeds, a.events, |a.events|)
  {
    var text := BlockOrder.Shown(t, a.result, retries);
    if a.result.Success? {
      FinishTotals(env, seen, a.events, s, t, calls, if HasToolCalls(t.tools) then "tool_use" else "end_turn");
    } else if text.Some? {
      InjectFollows(env, seen, a.events, s, t, calls, text.value);
    } else {
      FinishTotals(env, seen, a.events, s, t, calls, "end_turn");
    }
  }

  ghost predicate TotalsRest(env: Env, seeds: set<Bytes>, s: State, attempts: seq<Attempt>, retries: nat) {
    |attempts| > retries && s.tools.seeds == seeds && s.memory.introSeen == {} ==>
      RunFrom(env, s, attempts, retries).usage.tokens == TotalOf(env, seeds, Final(env, s, attempts, retries).events)
  }

  ghost predicate TotalsFrom(env: Env, seeds: set<Bytes>, attempts: seq<Attempt>, retries: nat) {
    forall s :: TotalsRest(env, seeds, s, attempts, retries)
  }

  lemma TurnTotals(env: Env, seeds: set<Bytes>, s: State, attempts: seq<Attempt>, retries: nat)
    requires NamesNeeded(env) && |attempts| > retries && (retries > 0 ==> TotalsFrom(env, seeds, attempts[1..], retries - 1))
    ensures TotalsRest(env, seeds, s, attempts, retries)
  {
    if s.tools.seeds == seeds && s.memory.introSeen == {} {
      var t := Attempted(env, s, attempts[0]);
      if Retried(t, attempts[0], retries) {
        RetryTakesNothing(env, s, attempts[0], retries);
        DeliverUnheard(env, Reset(env, s), attempts[0].events);
        RunSteps(env, s, attempts, retries);
        assert TotalsRest(env, seeds, t, attempts[1..], retries - 1);
      } else {
        AttemptFollows(env, s, attempts[0].events);
        BlockOrder.LastState(env, s, attempts, retries);
        AfterTotals(env, {}, Reset(env, s), t, attempts[0], retries, HandlerModes.Taken(env, Reset(env, s), attempts[0].events));
      }
    }
  }

  lemma {:induction false} RunFromTotals(env: Env, seeds: set<Bytes>, attempts: seq<Attempt>, retries: nat)
    requires NamesNeeded(env) && |attempts| > retries
    ensures TotalsFrom(env, seeds, attempts, retries)
    decreases retries
  {
    if retries > 0 { RunFromTotals(env, seeds, attempts[1..], retries - 1); }
    forall s ensures TotalsRest(env, seeds, s, attempts, retries) { TurnTotals(env, seeds, s, attempts, retries); }
  }

  /** The output count of a whole response, retries included and in either mode, is what the upstream last reported in
      the last attempt, or that of what was said and called. */
  lemma RunTotals(env: Env, start: Event, seeds: set<Bytes>, attempts: seq<Attempt>, retries: nat)
    requires NamesNeeded(env) && |attempts| > retries
    ensures var s := Opened(env, start, seeds);
      Run(env, start, seeds, attempts, retries).usage.tokens == TotalOf(env, seeds, Final(env, s, attempts, retries).events)
  {
    var s := Opened(env, start, seeds);
    RunFromTotals(env, seeds, attempts, retries);
    assert TotalsRest(env, seeds, s, attempts, retries);
    RunEnds(env, s, attempts, retries);
  }
}
