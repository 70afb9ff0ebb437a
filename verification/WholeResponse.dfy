/** A whole response, read off the events of its attempts: how often it is retried, what a client hears, which calls it is
    given, and how it ends. */
module WholeResponse {
  import opened Bytes
  import opened SseEvent
  import opened HandlerSpec
  import opened HandlerRuns
  import opened HandlerModes
  import opened Delivered
  import opened DeliveredCalls
  import opened DeliveredUsage
  import BlockOrder

  // ---------------------------------------------------------------------- output, by position

  /** Event `k` of an attempt has something to show: it opens a block, says something or completes an accepted call. */
  predicate ShowsAt(env: Env, seeds: set<Bytes>, ms: seq<Input>, k: int) {
    0 <= k < |ms| && !Closed(ms, k) &&
    match ms[k]
    case TextStart => true
    case TextDelta(_, _, _) => Says(env, {}, ms, k) != []
    case ReasoningStart(sig) => !env.suppressThinking && sig != ""
    case ReasoningDelta(sig, delta) => !env.suppressThinking && (sig != "" || delta != "")
    case _ => Accepts(env, seeds, ms, k)
  }

  predicate ShowsAny(env: Env, seeds: set<Bytes>, ms: seq<Input>, n: int) { exists k :: 0 <= k < n && ShowsAt(env, seeds, ms, k) }

  /** An attempt that is followed by another: it failed in a way that passes, had nothing to show, and the budget, the
      accounts and the client last. */
  predicate Passes(env: Env, seeds: set<Bytes>, a: Attempt, retries: nat) {
    a.result.Failed? && (var f := a.result.failure;
      && f.retryable && !f.clientGone && retries > 0 && f.noAccount.None? && !f.interrupted
      && !ShowsAny(env, seeds, a.events, |a.events|))
  }

  /** How many attempts are retried. */
  function Passed(env: Env, seeds: set<Bytes>, attempts: seq<Attempt>, retries: nat): (n: nat)
    requires |attempts| > retries
    ensures n <= retries
    decreases retries
  {
    if Passes(env, seeds, attempts[0], retries) then 1 + Passed(env, seeds, attempts[1..], retries - 1) else 0
  }

  /** The error text that an attempt leaves behind. */
  function ErrorOf(env: Env, seeds: set<Bytes>, a: Attempt, retries: nat): seq<Said> {
    if a.result.Success? || Closed(a.events, |a.events|) then []
    else
      var f := a.result.failure;
      if ShowsAny(env, seeds, a.events, |a.events|) then [Spoke(f.upstreamText)]
      else if f.retryable then
        if f.clientGone then []
        else if retries == 0 then [Spoke(if f.category in {"auth", "auth_blocked"} then f.authText else f.exhaustedText)]
        else if f.noAccount.Some? then [Spoke(f.noAccount.value)]
        else []
      else if f.category in {"auth", "auth_blocked"} then [Spoke(f.authText)]
      else if f.category == "canceled" then []
      else [Spoke(f.upstreamText)]
  }

  // ---------------------------------------------------------------------------- one more event

  /** Nothing has been shown, and nothing is pending that would be. */
  predicate Bare(t: State) { !HasAnyOutput(t) && t.out.pendingSig == "" && t.out.active == NoBlock }

  lemma BareNext(env: Env, t: State, m: Input)
    requires Bare(t) && !t.out.hasReturn && !m.Finish? && !IsToolInput(m) && !m.TextDelta? && !IsThinkingInput(m)
    ensures if m.TextStart? then HasAnyOutput(Handle(env, t, m)) else Bare(Handle(env, t, m))
  {
  }

  lemma BareThinking(env: Env, t: State, m: Input)
    requires Bare(t) && !t.out.hasReturn && IsThinkingInput(m)
    ensures if !env.suppressThinking && ((m.ReasoningStart? && m.sig != "") || (m.ReasoningDelta? && (m.sig != "" || m.delta != "")))
      then HasAnyOutput(Handle(env, t, m)) else Bare(Handle(env, t, m))
  {
  }

  lemma BareText(env: Env, t: State, m: Input)
    requires Bare(t) && !t.out.hasReturn && m.TextDelta?
    ensures if Uttered(env, t.memory, m) != [] then HasAnyOutput(Handle(env, t, m)) else Bare(Handle(env, t, m))
  {
  }

  lemma BareTools(env: Env, s: Tools, t: State, m: Input)
    requires NamesNeeded(env) && Bare(t) && !t.out.hasReturn && IsToolInput(m) && Counts(env, s, t.tools, [])
    ensures if CallOf(env, t, m) != [] then HasAnyOutput(Handle(env, t, m)) else Bare(Handle(env, t, m))
  {
    HandleCountsCalls(env, s, t, m, []);
    if CallOf(env, t, m) == [] { NoCallIsBare(env, t, m); }
  }

  lemma NoCallIsBare(env: Env, t: State, m: Input)
    requires Bare(t) && !t.out.hasReturn && IsToolInput(m) && CallOf(env, t, m) == []
    ensures Bare(Handle(env, t, m))
  {
  }

  lemma BareFinish(env: Env, t: State, m: Input)
    requires Bare(t) && !t.out.hasReturn && m.Finish?
    ensures Bare(Handle(env, t, m))
  {
  }

  /** Something has been shown, as the fields that matter have it. */
  predicate Strong(t: State) { t.memory.hasTextOutput || t.tools.count > 0 || t.out.blocks != [] }

  predicate Tidy(t: State) { TextSeen(t) && (t.tools.pending != [] || t.tools.emitted != {} ==> t.tools.count > 0) }

  lemma StrongIs(t: State)
    requires Tidy(t)
    ensures HasAnyOutput(t) <==> Strong(t)
  {
  }

  lemma TidyPlain(env: Env, t: State, m: Input)
    requires Tidy(t) && !t.out.hasReturn && !m.Finish? && !IsToolInput(m)
    ensures Tidy(Handle(env, t, m)) && (Strong(t) ==> Strong(Handle(env, t, m)))
  {
  }

  lemma TidyTake(env: Env, t: State, call: Call)
    requires call.id != "" && call.name != "" && (env.isStream ==> call.id !in t.tools.emitted)
    requires t.memory.responseText != "" ==> t.memory.hasTextOutput
    ensures Tidy(TakeCall(env, t, call)) && TakeCall(env, t, call).tools.count > 0
  {
  }

  lemma TidyTools(env: Env, t: State, m: Input)
    requires NamesNeeded(env) && Tidy(t) && !t.out.hasReturn && IsToolInput(m) && (env.isStream ==> t.tools.emitted == t.tools.handled)
    ensures Tidy(Handle(env, t, m)) && (Strong(t) ==> Strong(Handle(env, t, m)))
  {
    match m
    case ToolInputEnd(id) =>
      if id != "" && id in t.tools.names && t.tools.names[id] != "" && id !in t.tools.handled {
        var (name, input) := env.rewrite(t.tools.names[id], Buffered(t.tools, id));
        var (ok, u) := Accept(env, ForgetInput(t.tools, id), name, input);
        if ok { TidyTake(env, t.(tools := u, usage := if env.isStream then AddOutput(t.usage, input) else t.usage), Call(id, name, input)); }
      }
    case ToolCall(id, name0, input0) =>
      var (name, input) := env.rewrite(name0, input0);
      var (ok, u) := Accept(env, t.tools, name, input);
      if id != "" && id !in t.tools.handled && ok { TidyTake(env, t.(tools := ForgetInput(u, id)), Call(id, name, input)); }
    case _ =>
  }

  lemma {:induction false} FlushGrows(env: Env, o: Out, calls: seq<Call>)
    ensures |FlushOut(env, o, calls).blocks| >= |o.blocks|
    decreases |calls|
  {
    if calls != [] { FlushGrows(env, FlushOne(env, o, calls[0]), calls[1..]); }
  }

  lemma TidyFinish(env: Env, t: State, reason: Bytes)
    requires Tidy(t) && !t.out.hasReturn
    ensures Tidy(FinishResponse(env, t, reason)) && (Strong(t) ==> Strong(FinishResponse(env, t, reason)))
  {
    var stop := if reason == "tool_use" && !HasToolCalls(t.tools) then "end_turn" else reason;
    FlushGrows(env, StopOpen(env, t.out.(hasReturn := true, stopReason := stop)), t.tools.pending);
  }

  lemma TidyNext(env: Env, t: State, m: Input)
    requires NamesNeeded(env) && Tidy(t) && !t.out.hasReturn && (env.isStream ==> t.tools.emitted == t.tools.handled)
    ensures Tidy(Handle(env, t, m)) && (Strong(t) ==> Strong(Handle(env, t, m)))
  {
    if m.Finish? {
      HandleIsFinish(env, t, m);
      TidyFinish(env, t.(out := CloseActive(env, t.out), usage := SetUsage(t.usage, m.usage)), AskedReason(t.tools, m.reason));
    } else if IsToolInput(m) {
      TidyTools(env, t, m);
    } else {
      TidyPlain(env, t, m);
    }
  }

  // ------------------------------------------------------------------------ whole attempts

  /** Whether something was shown in `n` events. */
  ghost predicate Showing(env: Env, seeds: set<Bytes>, ms: seq<Input>, n: nat, t: State) {
    Tidy(t) && if ShowsAny(env, seeds, ms, n) then Strong(t) else Bare(t)
  }

  lemma ShowsNext(env: Env, seeds: set<Bytes>, ms: seq<Input>, n: nat)
    ensures ShowsAny(env, seeds, ms, n + 1) <==> ShowsAny(env, seeds, ms, n) || ShowsAt(env, seeds, ms, n)
  {
    if ShowsAt(env, seeds, ms, n) { assert ShowsAny(env, seeds, ms, n + 1); }
  }

  /** With nothing shown before, an event shows something when it has something to show. */
  lemma BareStep(env: Env, s: Tools, ms: seq<Input>, n: nat, t: State)
    requires NamesNeeded(env) && n < |ms| && !Closed(ms, n) && !t.out.hasReturn && Bare(t)
    requires Remembers(env, {}, ms, n, t.memory) && FieldsMean(env, s.seeds, ms, n, t.tools) && Counts(env, s, t.tools, [])
    ensures if ShowsAt(env, s.seeds, ms, n) then HasAnyOutput(Handle(env, t, ms[n])) else Bare(Handle(env, t, ms[n]))
  {
    if IsToolInput(ms[n]) {
      OfferMeans(env, s.seeds, ms, n, t);
      BareTools(env, s, t, ms[n]);
    } else if ms[n].TextDelta? {
      StepUtters(env, {}, ms, n, t.memory);
      BareText(env, t, ms[n]);
    } else if IsThinkingInput(ms[n]) {
      BareThinking(env, t, ms[n]);
    } else if ms[n].Finish? {
      BareFinish(env, t, ms[n]);
    } else {
      BareNext(env, t, ms[n]);
    }
  }

  lemma BareCounts(env: Env, s: Tools, t: State, calls: seq<Call>)
    requires Counts(env, s, t.tools, calls) && Bare(t)
    ensures calls == []
  {
  }

  lemma StepShows(env: Env, ms: seq<Input>, n: nat, s: State, t: State, calls: seq<Call>)
    requires NamesNeeded(env) && n < |ms| && Followed(env, {}, ms, n, s, t, calls) && Showing(env, s.tools.seeds, ms, n, t)
    ensures Showing(env, s.tools.seeds, ms, n + 1, Handle(env, t, ms[n]))
  {
    ShowsNext(env, s.tools.seeds, ms, n);
    if !t.out.hasReturn {
      TidyNext(env, t, ms[n]);
      if !ShowsAny(env, s.tools.seeds, ms, n) {
        BareCounts(env, s.tools, t, calls);
        BareStep(env, s.tools, ms, n, t);
        StrongIs(Handle(env, t, ms[n]));
      }
    }
  }

  lemma {:induction false} DeliverShows(env: Env, ms: seq<Input>, n: nat, s: State)
    requires NamesNeeded(env) && n <= |ms| && Blank(s, {}) && Bare(s) && Tidy(s)
    ensures Showing(env, s.tools.seeds, ms, n, Deliver(env, s, ms[..n]))
  {
    if n > 0 {
      DeliverShows(env, ms, n - 1, s);
      DeliverFollows(env, {}, ms, n - 1, s);
      DeliverNext(env, s, ms, n - 1);
      StepShows(env, ms, n - 1, s, Deliver(env, s, ms[..n - 1]), HandlerModes.Taken(env, s, ms[..n - 1]));
    }
  }

  /** What an attempt starts from. */
  predicate Starts(s: State, seeds: set<Bytes>) {
    s.tools.seeds == seeds && s.memory.introSeen == {} && s.out.pendingSig == "" && s.out.active == NoBlock
  }

  lemma AttemptShows(env: Env, seeds: set<Bytes>, s: State, a: Attempt)
    requires NamesNeeded(env) && Starts(s, seeds)
    ensures var t := Attempted(env, s, a);
      && HasAnyOutput(t) == ShowsAny(env, seeds, a.events, |a.events|)
      && (!HasAnyOutput(t) ==> Bare(t))
  {
    DeliverShows(env, a.events, |a.events|, Reset(env, s));
    assert a.events[..|a.events|] == a.events;
    StrongIs(Attempted(env, s, a));
  }

  /** Whether an attempt is retried is in its events and its result. */
  lemma RetriedMeans(env: Env, seeds: set<Bytes>, s: State, a: Attempt, retries: nat)
    requires NamesNeeded(env) && Starts(s, seeds)
    ensures Retried(Attempted(env, s, a), a, retries) == Passes(env, seeds, a, retries)
    ensures Passes(env, seeds, a, retries) ==> Starts(Attempted(env, s, a), seeds)
  {
    AttemptShows(env, seeds, s, a);
    if a.result.Failed? { WhichAreRetried(a.result.failure, retries); }
    if Passes(env, seeds, a, retries) {
      RetryTakesNothing(env, s, a, retries);
      DeliverUnheard(env, Reset(env, s), a.events);
    }
  }

  lemma ErrorMeans(env: Env, seeds: set<Bytes>, s: State, a: Attempt, retries: nat)
    requires NamesNeeded(env) && Starts(s, seeds) && !Passes(env, seeds, a, retries)
    ensures ErrorSaid(Attempted(env, s, a), a, retries) == ErrorOf(env, seeds, a, retries)
  {
    AttemptShows(env, seeds, s, a);
    if a.result.Failed? { WhichAreRetried(a.result.failure, retries); }
  }

  // ----------------------------------------------------------------------------- whole runs

  ghost predicate PassedRest(env: Env, seeds: set<Bytes>, s: State, attempts: seq<Attempt>, retries: nat) {
    |attempts| > retries && Starts(s, seeds) ==>
      var n := Passed(env, seeds, attempts, retries);
      && Retries(env, s, attempts, retries) == n
      && Final(env, s, attempts, retries) == attempts[n]
      && RunSaid(env, s, attempts, retries)
           == SaidIn(env, {}, attempts[n].events, |attempts[n].events|) + ErrorOf(env, seeds, attempts[n], retries - n)
  }

  ghost predicate PassedFrom(env: Env, seeds: set<Bytes>, attempts: seq<Attempt>, retries: nat) {
    forall s :: PassedRest(env, seeds, s, attempts, retries)
  }

  lemma TurnPasses(env: Env, seeds: set<Bytes>, s: State, attempts: seq<Attempt>, retries: nat)
    requires NamesNeeded(env) && |attempts| > retries && (retries > 0 ==> PassedFrom(env, seeds, attempts[1..], retries - 1))
    ensures PassedRest(env, seeds, s, attempts, retries)
  {
    if Starts(s, seeds) {
      var t, a := Attempted(env, s, attempts[0]), attempts[0];
      RetriedMeans(env, seeds, s, a, retries);
      if Passes(env, seeds, a, retries) {
        assert PassedRest(env, seeds, t, attempts[1..], retries - 1);
        PassedOne(env, seeds, s, attempts, retries);
      } else {
        ErrorMeans(env, seeds, s, a, retries);
      }
    }
  }

  lemma PassedOne(env: Env, seeds: set<Bytes>, s: State, attempts: seq<Attempt>, retries: nat)
    requires |attempts| > retries > 0 && Passes(env, seeds, attempts[0], retries)
    requires Retried(Attempted(env, s, attempts[0]), attempts[0], retries) && Starts(Attempted(env, s, attempts[0]), seeds)
    requires PassedRest(env, seeds, Attempted(env, s, attempts[0]), attempts[1..], retries - 1)
    ensures PassedRest(env, seeds, s, attempts, retries)
  {
    var n := Passed(env, seeds, attempts[1..], retries - 1);
    assert attempts[1..][n] == attempts[n + 1];
  }

  lemma {:induction false} RunFromPasses(env: Env, seeds: set<Bytes>, attempts: seq<Attempt>, retries: nat)
    requires NamesNeeded(env) && |attempts| > retries
    ensures PassedFrom(env, seeds, attempts, retries)
    decreases retries
  {
    if retries > 0 { RunFromPasses(env, seeds, attempts[1..], retries - 1); }
    forall s ensures PassedRest(env, seeds, s, attempts, retries) { TurnPasses(env, seeds, s, attempts, retries); }
  }

  /** How many attempts a response takes, in either mode: the first ones pass, having nothing to show, and the next does
      not. */
  lemma RunRetries(env: Env, start: Event, seeds: set<Bytes>, attempts: seq<Attempt>, retries: nat)
    requires NamesNeeded(env) && |attempts| > retries
    ensures Retries(env, Opened(env, start, seeds), attempts, retries) == Passed(env, seeds, attempts, retries)
  {
    RunFromPasses(env, seeds, attempts, retries);
    assert PassedRest(env, seeds, Opened(env, start, seeds), attempts, retries);
  }

  lemma FinalIs(env: Env, start: Event, seeds: set<Bytes>, attempts: seq<Attempt>, retries: nat, a: Attempt)
    requires NamesNeeded(env) && |attempts| > retries && a == attempts[Passed(env, seeds, attempts, retries)]
    ensures var s := Opened(env, start, seeds);
      && Final(env, s, attempts, retries) == a
      && RunSaid(env, s, attempts, retries)
           == SaidIn(env, {}, a.events, |a.events|) + ErrorOf(env, seeds, a, retries - Passed(env, seeds, attempts, retries))
  {
    RunFromPasses(env, seeds, attempts, retries);
    assert PassedRest(env, seeds, Opened(env, start, seeds), attempts, retries);
  }

  /** A whole streamed response is what the events of its last attempt make it: first what is heard of text and thinking,
      and an error; the attempts before it show nothing... */
  lemma ResponseSays(env: Env, start: Event, seeds: set<Bytes>, attempts: seq<Attempt>, retries: nat)
    requires env.isStream && NamesNeeded(env) && |attempts| > retries && start.MessageStart?
    ensures var n := Passed(env, seeds, attempts, retries);
      var a := attempts[n];
      SaidOn(Run(env, start, seeds, attempts, retries).out.trace) == SaidIn(env, {}, a.events, |a.events|) + ErrorOf(env, seeds, a, retries - n)
  {
    FinalIs(env, start, seeds, attempts, retries, attempts[Passed(env, seeds, attempts, retries)]);
    RunSays(env, start, seeds, attempts, retries);
  }

  /** ... then the calls that are given... */
  lemma ResponseCalls(env: Env, start: Event, seeds: set<Bytes>, attempts: seq<Attempt>, retries: nat)
    requires env.isStream && NamesNeeded(env) && |attempts| > retries && start.MessageStart?
    ensures var ms := attempts[Passed(env, seeds, attempts, retries)].events;
      CallsAre(Heard(Run(env, start, seeds, attempts, retries).out.trace, true), AcceptedCalls(env, seeds, ms, |ms|))
  {
    FinalIs(env, start, seeds, attempts, retries, attempts[Passed(env, seeds, attempts, retries)]);
    RunHears(env, start, seeds, attempts, retries);
  }

  /** ... and the stop reason and the count it ends with, which are kept in either mode. */
  lemma ResponseEnds(env: Env, start: Event, seeds: set<Bytes>, attempts: seq<Attempt>, retries: nat)
    requires NamesNeeded(env) && |attempts| > retries
    ensures var a, r := attempts[Passed(env, seeds, attempts, retries)], Run(env, start, seeds, attempts, retries);
      && r.out.stopReason == ReasonOf(env, seeds, a) && r.usage.tokens == TotalOf(env, seeds, a.events)
      && (env.isStream ==>
            |r.out.trace| >= 2 && r.out.trace[|r.out.trace| - 1] == MessageStop
            && r.out.trace[|r.out.trace| - 2] == MessageDelta(ReasonOf(env, seeds, a), TotalOf(env, seeds, a.events)))
  {
    FinalIs(env, start, seeds, attempts, retries, attempts[Passed(env, seeds, attempts, retries)]);
    RunStops(env, start, seeds, attempts, retries);
    RunTotals(env, start, seeds, attempts, retries);
  }
}
