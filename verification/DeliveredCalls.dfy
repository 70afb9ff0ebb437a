/** The tool calls an attempt accepts, read off the events that were delivered, and the stop reason they give. */
module DeliveredCalls {
  import opened Bytes
  import opened SseEvent
  import opened HandlerSpec
  import opened HandlerRuns
  import opened HandlerModes
  import opened Delivered
  import opened BlockOrder

  // ---------------------------------------------------------------- the calls, by position

  /** Event `k` starts the input of a tool call. */
  predicate Begins(ms: seq<Input>, k: int, id: Bytes) {
    0 <= k < |ms| && ms[k].ToolInputStart? && ms[k].id == id && id != "" && TrimSpace(ms[k].name) != ""
  }

  /** Event `i` starts or ends the input. */
  predicate Disturbs(ms: seq<Input>, i: int, id: Bytes) { Begins(ms, i, id) || (0 <= i < |ms| && ms[i] == ToolInputEnd(id)) }

  /** The last start of the id before event `n`, when no end of the id has come since. */
  predicate OpenSince(ms: seq<Input>, n: int, id: Bytes, j: int) {
    j < n && Begins(ms, j, id) && forall i :: j < i < n ==> !Disturbs(ms, i, id)
  }

  function StartOf(ms: seq<Input>, n: nat, id: Bytes): (r: int)
    requires n <= |ms|
    ensures r >= 0 ==> OpenSince(ms, n, id, r)
    ensures r < 0 ==> forall j :: !OpenSince(ms, n, id, j)
  {
    if n == 0 then -1
    else if Begins(ms, n - 1, id) then n - 1
    else if ms[n - 1] == ToolInputEnd(id) then
      EndCloses(ms, n, id);
      -1
    else
      OpenSinceNext(ms, n, id);
      StartOf(ms, n - 1, id)
  }

  lemma EndCloses(ms: seq<Input>, n: nat, id: Bytes)
    requires 0 < n <= |ms| && ms[n - 1] == ToolInputEnd(id)
    ensures forall j :: !OpenSince(ms, n, id, j)
  {
    forall j ensures !OpenSince(ms, n, id, j) {
      assert Disturbs(ms, n - 1, id);
      if j == n - 1 { assert !Begins(ms, j, id); }
    }
  }

  lemma OpenSinceNext(ms: seq<Input>, n: nat, id: Bytes)
    requires 0 < n <= |ms| && !Begins(ms, n - 1, id) && ms[n - 1] != ToolInputEnd(id)
    ensures forall j :: OpenSince(ms, n, id, j) <==> OpenSince(ms, n - 1, id, j)
  {
    assert !Disturbs(ms, n - 1, id);
    forall j ensures OpenSince(ms, n, id, j) <==> OpenSince(ms, n - 1, id, j) { OneOpenNext(ms, n, n - 1, id, j, Begins(ms, j, id)); }
  }

  /** A start stays the last one over an event that leaves the input alone. */
  lemma OneOpenNext(ms: seq<Input>, n: nat, m: nat, id: Bytes, j: int, begins: bool)
    requires n == m + 1 && !Disturbs(ms, m, id) && begins == Begins(ms, j, id) && (begins ==> Disturbs(ms, j, id))
    ensures OpenSince(ms, n, id, j) <==> OpenSince(ms, m, id, j)
  {
    assert j == m ==> !begins;
    assert (forall i :: j < i < n ==> !Disturbs(ms, i, id)) <==> (forall i :: j < i < m ==> !Disturbs(ms, i, id));
  }

  /** The input fragments of the id between two events. */
  function Joined(ms: seq<Input>, id: Bytes, from: int, n: int): Bytes
    requires n <= |ms|
    decreases n
  {
    if n <= from + 1 || n <= 0 then ""
    else Joined(ms, id, from, n - 1) + if ms[n - 1].ToolInputDelta? && ms[n - 1].id == id then ms[n - 1].delta else ""
  }

  /** The trimmed name and the fragments of an input that is open before event `n`. */
  function OpenInput(ms: seq<Input>, n: nat, id: Bytes): Option<(Bytes, Bytes)>
    requires n <= |ms|
  {
    var j := StartOf(ms, n, id);
    if j < 0 then None else Some((TrimSpace(ms[j].name), Joined(ms, id, j, n)))
  }

  /** The call that event `k` completes: the end of an open input gives the trimmed name of its start and its trimmed
      fragments, a whole call its own. */
  function Offer(env: Env, ms: seq<Input>, k: int): Option<Call>
    requires 0 <= k < |ms|
  {
    match ms[k]
    case ToolInputEnd(id) =>
      var o := OpenInput(ms, k, id);
      if o.None? then None
      else
        var (name, input) := env.rewrite(o.value.0, TrimSpace(o.value.1));
        Some(Call(id, name, input))
    case ToolCall(id, name0, input0) =>
      if id == "" then None
      else
        var (name, input) := env.rewrite(name0, input0);
        Some(Call(id, name, input))
    case _ => None
  }

  /** The call may be made at all. */
  predicate Admitted(env: Env, c: Call) {
    !env.disallowTools && env.allowed(c.name, c.input) && !env.sandboxed(c.name, c.input) && env.evaluate(c.name, c.input).Some?
  }

  function KeyOf(env: Env, c: Call): Bytes
    requires env.evaluate(c.name, c.input).Some?
  {
    env.evaluate(c.name, c.input).value
  }

  /** Event `k` completes a call that is accepted: it may be made, no call with its id was accepted before, and its
      dedup key, if it has one, is neither seeded nor that of a call accepted before. */
  predicate Accepts(env: Env, seeds: set<Bytes>, ms: seq<Input>, k: int)
    decreases k
  {
    && 0 <= k < |ms| && !Closed(ms, k) && Offer(env, ms, k).Some? && Admitted(env, Offer(env, ms, k).value)
    && var c := Offer(env, ms, k).value;
      && (forall j :: 0 <= j < k && Accepts(env, seeds, ms, j) ==> Offer(env, ms, j).value.id != c.id)
      && (KeyOf(env, c) != "" ==> KeyOf(env, c) !in seeds)
      && (forall j :: 0 <= j < k && Accepts(env, seeds, ms, j) && KeyOf(env, c) != "" ==> KeyOf(env, Offer(env, ms, j).value) != KeyOf(env, c))
  }

  function AcceptedCalls(env: Env, seeds: set<Bytes>, ms: seq<Input>, n: int): seq<Call>
    requires 0 <= n <= |ms|
    decreases n
  {
    if n == 0 then []
    else AcceptedCalls(env, seeds, ms, n - 1) + if Accepts(env, seeds, ms, n - 1) then [Offer(env, ms, n - 1).value] else []
  }

  // ------------------------------------------------------------------------ the tool fields

  predicate TakenAt(env: Env, seeds: set<Bytes>, ms: seq<Input>, k: int, id: Bytes) {
    Accepts(env, seeds, ms, k) && Offer(env, ms, k).value.id == id
  }

  predicate KeyedAt(env: Env, seeds: set<Bytes>, ms: seq<Input>, k: int, key: Bytes) {
    Accepts(env, seeds, ms, k) && KeyOf(env, Offer(env, ms, k).value) == key
  }

  predicate Taken(env: Env, seeds: set<Bytes>, ms: seq<Input>, n: int, id: Bytes) {
    exists k :: 0 <= k < n && TakenAt(env, seeds, ms, k, id)
  }

  predicate Keyed(env: Env, seeds: set<Bytes>, ms: seq<Input>, n: int, key: Bytes) {
    exists k :: 0 <= k < n && KeyedAt(env, seeds, ms, k, key)
  }

  /** The name and the buffer of an id are those of its open input. */
  predicate Buffers(o: Option<(Bytes, Bytes)>, t: Tools, id: Bytes) {
    match o
    case None => id !in t.names
    case Some((name, input)) => name != "" && id in t.names && id in t.buffers && t.names[id] == name && t.buffers[id] == input
  }

  /** The tool fields after `n` events. */
  ghost predicate FieldsMean(env: Env, seeds: set<Bytes>, ms: seq<Input>, n: nat, t: Tools)
    requires n <= |ms|
  {
    && (forall id :: id in t.handled <==> Taken(env, seeds, ms, n, id))
    && (forall key :: key != "" ==> (key in t.dedup <==> key in seeds || Keyed(env, seeds, ms, n, key)))
    && (forall id :: id !in t.handled ==> Buffers(OpenInput(ms, n, id), t, id))
  }

  /** Nothing about tools but the calls written or queued. */
  predicate SameFields(t: Tools, u: Tools) { t.names == u.names && t.buffers == u.buffers && t.handled == u.handled && t.dedup == u.dedup }

  /** What an event does to the tool fields. */
  function ToolsAfter(env: Env, t: Tools, m: Input): Tools {
    match m
    case ToolInputStart(id, name) =>
      var n := TrimSpace(name);
      if id == "" || n == "" then t else t.(names := t.names[id := n], buffers := t.buffers[id := ""])
    case ToolInputDelta(id, delta) => OnToolInputDelta(t, id, delta)
    case ToolInputEnd(id) =>
      if id == "" then t
      else
        var f := ForgetInput(t, id);
        if id !in t.names || t.names[id] == "" || id in t.handled then f
        else
          var (name, input) := env.rewrite(t.names[id], Buffered(t, id));
          var (ok, u) := Accept(env, f, name, input);
          if ok then u.(handled := u.handled + {id}) else u
    case ToolCall(id, name0, input0) =>
      var (name, input) := env.rewrite(name0, input0);
      if id == "" || id in t.handled then t
      else
        var (ok, u) := Accept(env, t, name, input);
        if ok then ForgetInput(u, id).(handled := u.handled + {id}) else u
    case _ => t
  }

  lemma HandleTools(env: Env, s: State, m: Input)
    requires !s.out.hasReturn && !m.Finish?
    ensures SameFields(Handle(env, s, m).tools, ToolsAfter(env, s.tools, m))
  {
    match m
    case ToolInputEnd(id) => InputEndTools(env, s, id);
    case ToolCall(id, name, input) => ToolCallTools(env, s, id, name, input);
    case _ =>
  }

  lemma InputEndTools(env: Env, s: State, id: Bytes)
    ensures SameFields(OnToolInputEnd(env, s, id).tools, ToolsAfter(env, s.tools, ToolInputEnd(id)))
  {
  }

  lemma ToolCallTools(env: Env, s: State, id: Bytes, name: Bytes, input: Bytes)
    ensures SameFields(OnToolCall(env, s, id, name, input).tools, ToolsAfter(env, s.tools, ToolCall(id, name, input)))
  {
  }

  // ------------------------------------------------------------------------- one more event

  lemma SameMean(env: Env, seeds: set<Bytes>, ms: seq<Input>, n: nat, t: Tools, u: Tools)
    requires n <= |ms| && FieldsMean(env, seeds, ms, n, t) && SameFields(t, u)
    ensures FieldsMean(env, seeds, ms, n, u)
  {
  }

  /** The handler accepts what is accepted by position. */
  lemma AcceptsMeans(env: Env, seeds: set<Bytes>, ms: seq<Input>, n: nat, t: Tools, c: Call)
    requires n < |ms| && FieldsMean(env, seeds, ms, n, t) && !Closed(ms, n) && Offer(env, ms, n) == Some(c)
    ensures Accepts(env, seeds, ms, n) <==> c.id !in t.handled && Accept(env, t, c.name, c.input).0
  {
    assert c.id in t.handled <==> Taken(env, seeds, ms, n, c.id);
    if Admitted(env, c) {
      var key := KeyOf(env, c);
      assert key != "" ==> (key in t.dedup <==> key in seeds || Keyed(env, seeds, ms, n, key));
      AcceptsIs(env, seeds, ms, n, c);
    }
  }

  lemma AcceptsIs(env: Env, seeds: set<Bytes>, ms: seq<Input>, n: nat, c: Call)
    requires n < |ms| && !Closed(ms, n) && Offer(env, ms, n) == Some(c) && Admitted(env, c)
    ensures Accepts(env, seeds, ms, n) <==>
      !Taken(env, seeds, ms, n, c.id) && (KeyOf(env, c) != "" ==> KeyOf(env, c) !in seeds && !Keyed(env, seeds, ms, n, KeyOf(env, c)))
  {
    var key := KeyOf(env, c);
    assert forall j :: 0 <= j < n ==> (TakenAt(env, seeds, ms, j, c.id) <==> Accepts(env, seeds, ms, j) && Offer(env, ms, j).value.id == c.id);
    assert forall j :: 0 <= j < n ==> (KeyedAt(env, seeds, ms, j, key) <==> Accepts(env, seeds, ms, j) && KeyOf(env, Offer(env, ms, j).value) == key);
  }

  lemma TakenNext(env: Env, seeds: set<Bytes>, ms: seq<Input>, n: nat, id: Bytes)
    ensures Taken(env, seeds, ms, n + 1, id) <==> Taken(env, seeds, ms, n, id) || TakenAt(env, seeds, ms, n, id)
  {
    if TakenAt(env, seeds, ms, n, id) { assert Taken(env, seeds, ms, n + 1, id); }
  }

  lemma KeyedNext(env: Env, seeds: set<Bytes>, ms: seq<Input>, n: nat, key: Bytes)
    ensures Keyed(env, seeds, ms, n + 1, key) <==> Keyed(env, seeds, ms, n, key) || KeyedAt(env, seeds, ms, n, key)
  {
    if KeyedAt(env, seeds, ms, n, key) { assert Keyed(env, seeds, ms, n + 1, key); }
  }

  lemma {:induction false} NamelessClosed(ms: seq<Input>, n: nat)
    requires n <= |ms|
    ensures OpenInput(ms, n, "").None?
  {
    var j := StartOf(ms, n, "");
    assert j >= 0 ==> Begins(ms, j, "");
  }

  /** What one event does to the open input of an id. */
  function InputAfter(o: Option<(Bytes, Bytes)>, m: Input, id: Bytes): Option<(Bytes, Bytes)> {
    if m.ToolInputStart? && m.id == id && id != "" && TrimSpace(m.name) != "" then Some((TrimSpace(m.name), ""))
    else if m == ToolInputEnd(id) then None
    else if m.ToolInputDelta? && m.id == id && o.Some? then Some((o.value.0, o.value.1 + m.delta))
    else o
  }

  lemma InputNext(ms: seq<Input>, n: nat, id: Bytes)
    requires n < |ms|
    ensures OpenInput(ms, n + 1, id) == InputAfter(OpenInput(ms, n, id), ms[n], id)
  {
    var j := StartOf(ms, n, id);
    var k := StartOf(ms, n + 1, id);
    if Begins(ms, n, id) {
      assert k == n && Joined(ms, id, n, n + 1) == "";
    } else if ms[n] == ToolInputEnd(id) {
      assert k == -1;
    } else {
      assert k == j;
      if j >= 0 { JoinedNext(ms, id, j, n); }
    }
  }

  lemma JoinedNext(ms: seq<Input>, id: Bytes, j: nat, n: nat)
    requires j < n < |ms|
    ensures Joined(ms, id, j, n + 1) ==
      if ms[n].ToolInputDelta? && ms[n].id == id then Joined(ms, id, j, n) + ms[n].delta else Joined(ms, id, j, n)
  {
    assert Joined(ms, id, j, n) + "" == Joined(ms, id, j, n);
  }

  lemma BuffersNext(env: Env, o: Option<(Bytes, Bytes)>, m: Input, t: Tools, id: Bytes)
    requires id !in ToolsAfter(env, t, m).handled && Buffers(o, t, id) && (id == "" ==> o.None?)
    ensures Buffers(InputAfter(o, m, id), ToolsAfter(env, t, m), id)
  {
  }

  /** What is accepted at event `n`. */
  function CallAt(env: Env, seeds: set<Bytes>, ms: seq<Input>, n: int): seq<Call> {
    if Accepts(env, seeds, ms, n) then [Offer(env, ms, n).value] else []
  }

  lemma OfferMeans(env: Env, seeds: set<Bytes>, ms: seq<Input>, n: nat, s: State)
    requires n < |ms| && FieldsMean(env, seeds, ms, n, s.tools) && !Closed(ms, n) && !s.out.hasReturn
    ensures CallOf(env, s, ms[n]) == CallAt(env, seeds, ms, n)
  {
    if Offer(env, ms, n).Some? { AcceptsMeans(env, seeds, ms, n, s.tools, Offer(env, ms, n).value); }
    NamelessClosed(ms, n);
    if ms[n].ToolInputEnd? && ms[n].id !in s.tools.handled { assert Buffers(OpenInput(ms, n, ms[n].id), s.tools, ms[n].id); }
  }

  /** What accepting at event `n` adds to the ids and the keys. */
  lemma TakesMean(env: Env, seeds: set<Bytes>, ms: seq<Input>, n: nat, t: Tools)
    requires n < |ms| && FieldsMean(env, seeds, ms, n, t) && !Closed(ms, n)
    ensures var u := ToolsAfter(env, t, ms[n]);
      && (forall id :: id in u.handled <==> id in t.handled || TakenAt(env, seeds, ms, n, id))
      && (forall key :: key != "" ==> (key in u.dedup <==> key in t.dedup || KeyedAt(env, seeds, ms, n, key)))
  {
    if Offer(env, ms, n).Some? { AcceptsMeans(env, seeds, ms, n, t, Offer(env, ms, n).value); }
    NamelessClosed(ms, n);
    match ms[n]
    case ToolInputEnd(id) =>
      if id !in t.handled { assert Buffers(OpenInput(ms, n, id), t, id); }
      EndTakes(env, OpenInput(ms, n, id), t, id);
    case ToolCall(id, name, input) => CallTakes(env, t, id, name, input);
    case _ =>
  }

  /** What accepting a call does to the ids and the keys. */
  predicate Takes(env: Env, t: Tools, u: Tools, c: Call) {
    if c.id !in t.handled && Accept(env, t, c.name, c.input).0 then
      && u.handled == t.handled + {c.id} && Admitted(env, c)
      && u.dedup == if KeyOf(env, c) == "" then t.dedup else t.dedup + {KeyOf(env, c)}
    else u.handled == t.handled && u.dedup == t.dedup
  }

  lemma EndTakes(env: Env, o: Option<(Bytes, Bytes)>, t: Tools, id: Bytes)
    requires id !in t.handled ==> Buffers(o, t, id)
    ensures var u := ToolsAfter(env, t, ToolInputEnd(id));
      if o.None? || id == "" then u.handled == t.handled && u.dedup == t.dedup
      else
        var (name, input) := env.rewrite(o.value.0, TrimSpace(o.value.1));
        Takes(env, t, u, Call(id, name, input))
  {
    if o.Some? {
      var (name, input) := env.rewrite(o.value.0, TrimSpace(o.value.1));
      AcceptNeeds(env, t, Call(id, name, input));
    }
  }

  lemma AcceptNeeds(env: Env, t: Tools, c: Call)
    ensures Accept(env, t, c.name, c.input).0 ==> Admitted(env, c)
  {
    assert env.evaluate(c.name, c.input).None? || env.evaluate(c.name, c.input).Some?;
  }

  lemma CallTakes(env: Env, t: Tools, id: Bytes, name0: Bytes, input0: Bytes)
    ensures var u := ToolsAfter(env, t, ToolCall(id, name0, input0));
      var (name, input) := env.rewrite(name0, input0);
      if id == "" then u == t else Takes(env, t, u, Call(id, name, input))
  {
    var (name, input) := env.rewrite(name0, input0);
    AcceptNeeds(env, t, Call(id, name, input));
  }

  lemma FieldsNext(env: Env, seeds: set<Bytes>, ms: seq<Input>, n: nat, t: Tools)
    requires n < |ms| && FieldsMean(env, seeds, ms, n, t) && !Closed(ms, n)
    ensures FieldsMean(env, seeds, ms, n + 1, ToolsAfter(env, t, ms[n]))
  {
    var u := ToolsAfter(env, t, ms[n]);
    TakesMean(env, seeds, ms, n, t);
    NamelessClosed(ms, n);
    forall id ensures id in u.handled <==> Taken(env, seeds, ms, n + 1, id) { TakenNext(env, seeds, ms, n, id); }
    forall key | key != "" ensures key in u.dedup <==> key in seeds || Keyed(env, seeds, ms, n + 1, key) { KeyedNext(env, seeds, ms, n, key); }
    forall id | id !in u.handled ensures Buffers(OpenInput(ms, n + 1, id), u, id) {
      assert Buffers(OpenInput(ms, n, id), t, id);
      BuffersNext(env, OpenInput(ms, n, id), ms[n], t, id);
      InputNext(ms, n, id);
    }
  }

  // ------------------------------------------------------------------------ whole attempts

  /** After `n` events the accepted calls are those accepted by position. */
  ghost predicate HasTaken(env: Env, seeds: set<Bytes>, ms: seq<Input>, n: nat, t: State, calls: seq<Call>)
    requires n <= |ms|
  {
    && calls == AcceptedCalls(env, seeds, ms, n)
    && t.out.hasReturn == Closed(ms, n)
    && (!Closed(ms, n) ==> FieldsMean(env, seeds, ms, n, t.tools))
  }

  lemma StepTakes(env: Env, seeds: set<Bytes>, ms: seq<Input>, n: nat, t: State, calls: seq<Call>)
    requires n < |ms| && HasTaken(env, seeds, ms, n, t, calls)
    ensures HasTaken(env, seeds, ms, n + 1, Handle(env, t, ms[n]), calls + CallOf(env, t, ms[n]))
  {
    ClosedNext(ms, n);
    HandleEnds(env, t, ms[n]);
    if !Closed(ms, n) {
      OfferMeans(env, seeds, ms, n, t);
      if !ms[n].Finish? {
        HandleTools(env, t, ms[n]);
        FieldsNext(env, seeds, ms, n, t.tools);
        SameMean(env, seeds, ms, n + 1, ToolsAfter(env, t.tools, ms[n]), Handle(env, t, ms[n]).tools);
      }
    }
  }

  lemma NothingTaken(env: Env, seeds: set<Bytes>, ms: seq<Input>, s: State)
    requires !s.out.hasReturn && s.tools.handled == {} && s.tools.names == map[] && s.tools.dedup == seeds
    ensures HasTaken(env, seeds, ms, 0, s, [])
  {
  }

  lemma TakenGrows(env: Env, s: State, ms: seq<Input>, n: nat)
    requires n < |ms|
    ensures HandlerModes.Taken(env, s, ms[..n + 1]) == HandlerModes.Taken(env, s, ms[..n]) + CallOf(env, Deliver(env, s, ms[..n]), ms[n])
  {
    assert ms[..n + 1][..n] == ms[..n];
  }

  lemma {:induction false} DeliverTakes(env: Env, seeds: set<Bytes>, ms: seq<Input>, n: nat, s: State)
    requires n <= |ms| && !s.out.hasReturn && s.tools.handled == {} && s.tools.names == map[] && s.tools.dedup == seeds
    ensures HasTaken(env, seeds, ms, n, Deliver(env, s, ms[..n]), HandlerModes.Taken(env, s, ms[..n]))
  {
    if n == 0 {
      NothingTaken(env, seeds, ms, s);
    } else {
      DeliverTakes(env, seeds, ms, n - 1, s);
      DeliverNext(env, s, ms, n - 1);
      TakenGrows(env, s, ms, n - 1);
      StepTakes(env, seeds, ms, n - 1, Deliver(env, s, ms[..n - 1]), HandlerModes.Taken(env, s, ms[..n - 1]));
    }
  }

  /** The calls an attempt accepts, in either mode, are those that its events offer and the rules accept. */
  lemma AttemptTakes(env: Env, s: State, ms: seq<Input>)
    ensures HandlerModes.Taken(env, Reset(env, s), ms) == AcceptedCalls(env, s.tools.seeds, ms, |ms|)
  {
    DeliverTakes(env, s.tools.seeds, ms, |ms|, Reset(env, s));
    assert ms[..|ms|] == ms;
  }

  // ---------------------------------------------------------------------- the stop reason

  /** The reason that the first `model.finish` before event `n` gives. */
  function ReasonGiven(ms: seq<Input>, n: nat): (r: Option<Bytes>)
    requires n <= |ms|
    ensures r.None? <==> !Closed(ms, n)
    ensures r.Some? ==> exists k :: 0 <= k < n && ms[k].Finish? && !Closed(ms, k) && ms[k].reason == r.value
  {
    if n == 0 then None
    else
      var r := ReasonGiven(ms, n - 1);
      if r.None? && ms[n - 1].Finish? then Some(ms[n - 1].reason) else r
  }

  /** Why a response stops: a tool is to be used when a call was accepted and, unless the calls are streamed, the
      upstream says so; without a `model.finish`, when the client came to its end. */
  function StopReason(env: Env, given: Option<Bytes>, completed: bool, calls: seq<Call>): Bytes {
    if calls == [] then "end_turn"
    else if given.None? then (if completed then "tool_use" else "end_turn")
    else if env.isStream || given.value == "tool-calls" || given.value == "tool_use" then "tool_use"
    else "end_turn"
  }

  /** The call fields while the response goes on: every accepted call is counted, and written or queued. */
  predicate Counts(env: Env, s: Tools, t: Tools, calls: seq<Call>) {
    && t.count == |calls| && (calls == [] ==> t.seeds == s.seeds) && (calls == [] <==> t.handled == {})
    && if env.isStream then t.emitted == t.handled && t.pending == [] else t.emitted == {} && t.pending == calls
  }

  lemma StreamCounts(env: Env, s: State, m: Input)
    requires env.isStream && NamesNeeded(env) && !s.out.hasReturn && !m.Finish? && s.tools.emitted == s.tools.handled && s.tools.pending == []
    ensures var t, c := Handle(env, s, m).tools, CallOf(env, s, m);
      && t.count == s.tools.count + |c| && t.emitted == t.handled && t.pending == []
      && t.handled == (if c != [] then s.tools.handled + {c[0].id} else s.tools.handled)
      && |c| <= 1 && (c == [] ==> t.seeds == s.tools.seeds)
  {
    match m
    case ToolInputEnd(id) => EndCounts(env, s, id);
    case ToolCall(id, name, input) => CallCounts(env, s, id, name, input);
    case _ => OtherCounts(env, s, m);
  }

  lemma OtherCounts(env: Env, s: State, m: Input)
    requires !m.Finish? && !m.ToolInputEnd? && !m.ToolCall?
    ensures CallOf(env, s, m) == [] && Handle(env, s, m).tools.(names := s.tools.names, buffers := s.tools.buffers) == s.tools
  {
  }

  /** An accepted call is written and counted once. */
  lemma TakeCounts(env: Env, s: State, call: Call)
    requires env.isStream && call.id != "" && call.name != "" && call.id !in s.tools.emitted && s.tools.emitted == s.tools.handled
    ensures var t := TakeCall(env, s, call).tools;
      && t.count == s.tools.count + 1 && t.handled == s.tools.handled + {call.id} && t.emitted == t.handled && t.pending == s.tools.pending
  {
  }

  lemma EndCounts(env: Env, s: State, id: Bytes)
    requires env.isStream && NamesNeeded(env) && !s.out.hasReturn && s.tools.emitted == s.tools.handled && s.tools.pending == []
    ensures var t, c := OnToolInputEnd(env, s, id).tools, CallOf(env, s, ToolInputEnd(id));
      && t.count == s.tools.count + |c| && t.emitted == t.handled && t.pending == []
      && t.handled == (if c != [] then s.tools.handled + {c[0].id} else s.tools.handled)
      && |c| <= 1 && (c == [] ==> t.seeds == s.tools.seeds)
  {
    if id != "" && id in s.tools.names && s.tools.names[id] != "" && id !in s.tools.handled {
      var (name, input) := env.rewrite(s.tools.names[id], Buffered(s.tools, id));
      var (ok, u) := Accept(env, ForgetInput(s.tools, id), name, input);
      if ok { TakeCounts(env, s.(tools := u, usage := AddOutput(s.usage, input)), Call(id, name, input)); }
    }
  }

  lemma CallCounts(env: Env, s: State, id: Bytes, name0: Bytes, input0: Bytes)
    requires env.isStream && NamesNeeded(env) && !s.out.hasReturn && s.tools.emitted == s.tools.handled && s.tools.pending == []
    ensures var t, c := OnToolCall(env, s, id, name0, input0).tools, CallOf(env, s, ToolCall(id, name0, input0));
      && t.count == s.tools.count + |c| && t.emitted == t.handled && t.pending == []
      && t.handled == (if c != [] then s.tools.handled + {c[0].id} else s.tools.handled)
      && |c| <= 1 && (c == [] ==> t.seeds == s.tools.seeds)
  {
    var (name, input) := env.rewrite(name0, input0);
    if id != "" && id !in s.tools.handled {
      var (ok, u) := Accept(env, s.tools, name, input);
      if ok { TakeCounts(env, s.(tools := ForgetInput(u, id)), Call(id, name, input)); }
    }
  }

  lemma QueueCounts(env: Env, s: State, m: Input)
    requires !env.isStream && !s.out.hasReturn && !m.Finish? && s.tools.emitted == {}
    ensures var t, c := Handle(env, s, m).tools, CallOf(env, s, m);
      && t.count == s.tools.count + |c| && t.emitted == {} && t.pending == s.tools.pending + c
      && t.handled == (if c != [] then s.tools.handled + {c[0].id} else s.tools.handled)
      && |c| <= 1 && (c == [] ==> t.seeds == s.tools.seeds)
  {
  }

  lemma HandleCountsCalls(env: Env, s: Tools, t: State, m: Input, calls: seq<Call>)
    requires NamesNeeded(env) && !t.out.hasReturn && !m.Finish? && Counts(env, s, t.tools, calls)
    ensures Counts(env, s, Handle(env, t, m).tools, calls + CallOf(env, t, m))
  {
    if env.isStream { StreamCounts(env, t, m); } else { QueueCounts(env, t, m); }
  }

  lemma {:induction false} FlushStops(env: Env, o: Out, calls: seq<Call>)
    ensures FlushOut(env, o, calls).stopReason == o.stopReason
    decreases |calls|
  {
    if calls != [] { FlushStops(env, FlushOne(env, o, calls[0]), calls[1..]); }
  }

  /** The response has ended for this reason with this count, and the client was told so. */
  predicate ToldEnd(env: Env, o: Out, reason: Bytes, tokens: int) {
    && o.hasReturn && o.stopReason == reason
    && (env.isStream ==> |o.trace| >= 2 && o.trace[|o.trace| - 2] == MessageDelta(reason, tokens) && o.trace[|o.trace| - 1] == MessageStop)
  }

  /** The count is the one the handler keeps. */
  predicate Stopped(env: Env, t: State, reason: Bytes) { ToldEnd(env, t.out, reason, t.usage.tokens) }

  lemma CloseStops(env: Env, o: Out, reason: Bytes, tokens: int)
    requires o.hasReturn && o.stopReason == reason
    ensures ToldEnd(env, Close(env, o, reason, tokens), reason, tokens)
  {
  }

  lemma FinishStops(env: Env, s: State, reason: Bytes)
    requires !s.out.hasReturn
    ensures Stopped(env, FinishResponse(env, s, reason), if reason == "tool_use" && !HasToolCalls(s.tools) then "end_turn" else reason)
    ensures FinishResponse(env, s, reason).tools == s.tools.(pending := [])
    ensures FinishResponse(env, s, reason).usage == CountTokens(env, FlushUsage(env, s.usage, s.tools.pending))
  {
    var stop := if reason == "tool_use" && !HasToolCalls(s.tools) then "end_turn" else reason;
    var o := StopOpen(env, s.out.(hasReturn := true, stopReason := stop));
    FlushStops(env, o, s.tools.pending);
    FlushEnds(env, o, s.tools.pending);
    CloseStops(env, FlushOut(env, o, s.tools.pending), stop, CountTokens(env, FlushUsage(env, s.usage, s.tools.pending)).tokens);
  }

  lemma HasCalls(env: Env, s: Tools, t: Tools, calls: seq<Call>)
    requires Counts(env, s, t, calls)
    ensures HasToolCalls(t) <==> calls != []
    ensures env.isStream ==> (t.emitted != {} <==> calls != [])
    ensures !env.isStream ==> t.emitted == {}
  {
  }

  /** Where an attempt stands after `n` events. */
  ghost predicate Standing(env: Env, s: Tools, ms: seq<Input>, n: nat, t: State, calls: seq<Call>)
    requires n <= |ms|
  {
    && t.out.hasReturn == Closed(ms, n)
    && (if Closed(ms, n) then
          Stopped(env, t, StopReason(env, ReasonGiven(ms, n), true, calls)) && t.tools.count == |calls| && (calls == [] ==> t.tools.seeds == s.seeds)
        else Counts(env, s, t.tools, calls))
  }

  lemma AskedMeans(env: Env, s: Tools, t: Tools, calls: seq<Call>, reason: Bytes)
    requires Counts(env, s, t, calls)
    ensures AskedReason(t, reason) == StopReason(env, Some(reason), true, calls)
    ensures AskedReason(t, reason) == "tool_use" ==> HasToolCalls(t)
  {
    HasCalls(env, s, t, calls);
  }

  lemma FinishStands(env: Env, s: Tools, t: State, calls: seq<Call>, reason: Bytes, count: Option<int>)
    requires Counts(env, s, t.tools, calls) && !t.out.hasReturn
    ensures var u := OnFinish(env, t, reason, count);
      Stopped(env, u, StopReason(env, Some(reason), true, calls)) && u.tools.count == |calls| && (calls == [] ==> u.tools.seeds == s.seeds)
  {
    AskedMeans(env, s, t.tools, calls, reason);
    FinishStops(env, t.(out := CloseActive(env, t.out), usage := SetUsage(t.usage, count)), AskedReason(t.tools, reason));
  }

  lemma StepStands(env: Env, s: Tools, ms: seq<Input>, n: nat, t: State, calls: seq<Call>)
    requires NamesNeeded(env) && n < |ms| && Standing(env, s, ms, n, t, calls)
    ensures Standing(env, s, ms, n + 1, Handle(env, t, ms[n]), calls + CallOf(env, t, ms[n]))
  {
    ClosedNext(ms, n);
    HandleEnds(env, t, ms[n]);
    if Closed(ms, n) || ms[n].Finish? {
      assert CallOf(env, t, ms[n]) == [] && calls + [] == calls;
      if !Closed(ms, n) { FinishStands(env, s, t, calls, ms[n].reason, ms[n].usage); }
    } else {
      HandleCountsCalls(env, s, t, ms[n], calls);
    }
  }

  lemma {:induction false} DeliverStands(env: Env, ms: seq<Input>, n: nat, s: State)
    requires NamesNeeded(env) && n <= |ms| && !s.out.hasReturn && Counts(env, s.tools, s.tools, [])
    ensures Standing(env, s.tools, ms, n, Deliver(env, s, ms[..n]), HandlerModes.Taken(env, s, ms[..n]))
  {
    if n > 0 {
      DeliverStands(env, ms, n - 1, s);
      DeliverNext(env, s, ms, n - 1);
      TakenGrows(env, s, ms, n - 1);
      StepStands(env, s.tools, ms, n - 1, Deliver(env, s, ms[..n - 1]), HandlerModes.Taken(env, s, ms[..n - 1]));
    }
  }

  /** Where an attempt leaves the handler, with the calls accepted by position. */
  lemma AttemptStands(env: Env, s: State, ms: seq<Input>)
    requires NamesNeeded(env)
    ensures var t, calls := Deliver(env, Reset(env, s), ms), AcceptedCalls(env, s.tools.seeds, ms, |ms|);
      Standing(env, Reset(env, s).tools, ms, |ms|, t, calls)
  {
    DeliverStands(env, ms, |ms|, Reset(env, s));
    AttemptTakes(env, s, ms);
    assert ms[..|ms|] == ms;
  }

  // ----------------------------------------------------------------------------- whole runs

  lemma InjectKeepsEnd(env: Env, s: State, text: Bytes)
    ensures var t := Inject(env, s, text); t.out.hasReturn == s.out.hasReturn && t.out.stopReason == s.out.stopReason && t.tools == s.tools && t.usage == s.usage
    ensures s.out.hasReturn ==> Inject(env, s, text).out.trace == s.out.trace
  {
  }

  lemma EndStops(env: Env, t: State, text: Option<Bytes>)
    ensures EndWith(env, t, text).out.hasReturn
    ensures t.out.hasReturn ==>
      var e := EndWith(env, t, text); e.out.trace == t.out.trace && e.out.stopReason == t.out.stopReason && e.usage == t.usage
    ensures !t.out.hasReturn ==> Stopped(env, EndWith(env, t, text), "end_turn")
  {
    if text.Some? { InjectKeepsEnd(env, t, text.value); }
    var u := if text.Some? then Inject(env, t, text.value) else t;
    if !u.out.hasReturn { FinishStops(env, u, "end_turn"); }
  }

  /** Why the response of an attempt that is not retried stops. */
  function ReasonOf(env: Env, seeds: set<Bytes>, a: Attempt): Bytes {
    StopReason(env, ReasonGiven(a.events, |a.events|), a.result.Success?, AcceptedCalls(env, seeds, a.events, |a.events|))
  }

  lemma LastStops(env: Env, s: State, attempts: seq<Attempt>, retries: nat)
    requires NamesNeeded(env) && |attempts| > retries && !Retried(Attempted(env, s, attempts[0]), attempts[0], retries)
    ensures Stopped(env, RunFrom(env, s, attempts, retries), ReasonOf(env, s.tools.seeds, attempts[0]))
  {
    var t, ms := Attempted(env, s, attempts[0]), attempts[0].events;
    var calls := AcceptedCalls(env, s.tools.seeds, ms, |ms|);
    AttemptStands(env, s, ms);
    LastState(env, s, attempts, retries);
    AfterStops(env, Reset(env, s).tools, t, attempts[0], retries, calls);
  }

  lemma AfterStops(env: Env, s: Tools, t: State, a: Attempt, retries: nat, calls: seq<Call>)
    requires Standing(env, s, a.events, |a.events|, t, calls)
    ensures Stopped(env, BlockOrder.After(env, t, a, retries), StopReason(env, ReasonGiven(a.events, |a.events|), a.result.Success?, calls))
  {
    match a.result
    case Success => SuccessStops(env, s, a.events, t, calls);
    case Failed(_) => EndStops(env, t, Shown(t, a.result, retries));
  }

  lemma SuccessStops(env: Env, s: Tools, ms: seq<Input>, t: State, calls: seq<Call>)
    requires Standing(env, s, ms, |ms|, t, calls)
    ensures Stopped(env, ForceFinish(env, t), StopReason(env, ReasonGiven(ms, |ms|), true, calls))
  {
    if !Closed(ms, |ms|) {
      HasCalls(env, s, t.tools, calls);
      FinishStops(env, t, if HasToolCalls(t.tools) then "tool_use" else "end_turn");
    }
  }

  /** A retried attempt has accepted nothing and seeds nothing. */
  lemma RetryTakesNothing(env: Env, s: State, a: Attempt, retries: nat)
    requires NamesNeeded(env) && Retried(Attempted(env, s, a), a, retries)
    ensures AcceptedCalls(env, s.tools.seeds, a.events, |a.events|) == [] && Attempted(env, s, a).tools.seeds == s.tools.seeds
  {
    AttemptStands(env, s, a.events);
  }

  /** The attempt that is not retried. */
  function Final(env: Env, s: State, attempts: seq<Attempt>, retries: nat): Attempt
    requires |attempts| > retries
    decreases retries
  {
    var t := Attempted(env, s, attempts[0]);
    if Retried(t, attempts[0], retries) then Final(env, t, attempts[1..], retries - 1) else attempts[0]
  }

  ghost predicate EndsRest(env: Env, seeds: set<Bytes>, s: State, attempts: seq<Attempt>, retries: nat) {
    |attempts| > retries && s.tools.seeds == seeds ==>
      var a := Final(env, s, attempts, retries);
      && Stopped(env, RunFrom(env, s, attempts, retries), ReasonOf(env, seeds, a))
      && LastCalls(env, s, attempts, retries) == AcceptedCalls(env, seeds, a.events, |a.events|)
  }

  ghost predicate EndsFrom(env: Env, seeds: set<Bytes>, attempts: seq<Attempt>, retries: nat) {
    forall s :: EndsRest(env, seeds, s, attempts, retries)
  }

  lemma TurnEnds(env: Env, seeds: set<Bytes>, s: State, attempts: seq<Attempt>, retries: nat)
    requires NamesNeeded(env) && |attempts| > retries && (retries > 0 ==> EndsFrom(env, seeds, attempts[1..], retries - 1))
    ensures EndsRest(env, seeds, s, attempts, retries)
  {
    if s.tools.seeds == seeds {
      var t := Attempted(env, s, attempts[0]);
      if Retried(t, attempts[0], retries) {
        RetryTakesNothing(env, s, attempts[0], retries);
        RunSteps(env, s, attempts, retries);
        assert EndsRest(env, seeds, t, attempts[1..], retries - 1);
      } else {
        LastStops(env, s, attempts, retries);
        AttemptTakes(env, s, attempts[0].events);
      }
    }
  }

  lemma {:induction false} RunFromEnds(env: Env, seeds: set<Bytes>, attempts: seq<Attempt>, retries: nat)
    requires NamesNeeded(env) && |attempts| > retries
    ensures EndsFrom(env, seeds, attempts, retries)
    decreases retries
  {
    if retries > 0 { RunFromEnds(env, seeds, attempts[1..], retries - 1); }
    forall s ensures EndsRest(env, seeds, s, attempts, retries) { TurnEnds(env, seeds, s, attempts, retries); }
  }

  /** Over a whole response, retries included and in either mode: the calls of the last attempt are those that its
      events offer and the rules accept, and the response stops for the reason that its events and these calls give. */
  lemma RunStops(env: Env, start: Event, seeds: set<Bytes>, attempts: seq<Attempt>, retries: nat)
    requires NamesNeeded(env) && |attempts| > retries
    ensures var s := Opened(env, start, seeds);
      var a := Final(env, s, attempts, retries);
      && LastCalls(env, s, attempts, retries) == AcceptedCalls(env, seeds, a.events, |a.events|)
      && Stopped(env, Run(env, start, seeds, attempts, retries), ReasonOf(env, seeds, a))
  {
    RunFromEnds(env, seeds, attempts, retries);
    assert EndsRest(env, seeds, Opened(env, start, seeds), attempts, retries);
  }

  // ------------------------------------------------------------- the calls that a client hears

  /** Being accepted does not depend on the mode. */
  lemma {:induction false} SameAccepts(p: Env, n: Env, seeds: set<Bytes>, ms: seq<Input>, k: nat)
    requires Modes(p, n)
    ensures Accepts(p, seeds, ms, k) == Accepts(n, seeds, ms, k)
    decreases k
  {
    forall j | 0 <= j < k ensures Accepts(p, seeds, ms, j) == Accepts(n, seeds, ms, j) { SameAccepts(p, n, seeds, ms, j); }
    if k < |ms| && !Closed(ms, k) && Offer(p, ms, k).Some? && Admitted(p, Offer(p, ms, k).value) {
      SameTaken(p, n, seeds, ms, k, Offer(p, ms, k).value);
    }
  }

  lemma SameTaken(p: Env, n: Env, seeds: set<Bytes>, ms: seq<Input>, k: nat, c: Call)
    requires Modes(p, n) && k < |ms| && !Closed(ms, k) && Offer(p, ms, k) == Some(c) && Admitted(p, c)
    requires forall j :: 0 <= j < k ==> Accepts(p, seeds, ms, j) == Accepts(n, seeds, ms, j)
    ensures Accepts(p, seeds, ms, k) == Accepts(n, seeds, ms, k)
  {
    AcceptsIs(p, seeds, ms, k, c);
    AcceptsIs(n, seeds, ms, k, c);
    var key := KeyOf(p, c);
    assert forall j :: 0 <= j < k ==> TakenAt(p, seeds, ms, j, c.id) == TakenAt(n, seeds, ms, j, c.id);
    assert forall j :: 0 <= j < k ==> KeyedAt(p, seeds, ms, j, key) == KeyedAt(n, seeds, ms, j, key);
    assert Taken(p, seeds, ms, k, c.id) == Taken(n, seeds, ms, k, c.id) && Keyed(p, seeds, ms, k, key) == Keyed(n, seeds, ms, k, key);
  }

  lemma {:induction false} SameAccepted(p: Env, n: Env, seeds: set<Bytes>, ms: seq<Input>, k: nat)
    requires Modes(p, n) && k <= |ms|
    ensures AcceptedCalls(p, seeds, ms, k) == AcceptedCalls(n, seeds, ms, k)
  {
    if k > 0 {
      SameAccepted(p, n, seeds, ms, k - 1);
      SameAccepts(p, n, seeds, ms, k - 1);
    }
  }

  /** What ends a response says nothing about tools. */
  lemma AfterHears(p: Env, n: Env, t: State, v: State, a: Attempt, retries: nat)
    requires Modes(p, n) && (if t.out.hasReturn then HandlerModes.Ended(n, t, v) else Rel(t, v))
    ensures Heard(BlockOrder.After(p, t, a, retries).out.trace, true) == Heard(t.out.trace, true)
  {
    if a.result.Success? {
      if !t.out.hasReturn { FinishHeard(p, t, if HasToolCalls(t.tools) then "tool_use" else "end_turn", true); }
    } else if t.out.hasReturn {
      EndStops(p, t, Shown(t, a.result, retries));
    } else {
      EndAgrees(p, n, t, v, Shown(t, a.result, retries));
    }
  }

  lemma LastHears(p: Env, n: Env, s: State, u: State, attempts: seq<Attempt>, retries: nat)
    requires Modes(p, n) && NamesNeeded(p) && AtLoop(p, n, s, u) && |attempts| > retries
    requires !Retried(Attempted(p, s, attempts[0]), attempts[0], retries)
    ensures var ms := attempts[0].events;
      CallsAre(Heard(RunFrom(p, s, attempts, retries).out.trace, true), AcceptedCalls(p, u.tools.seeds, ms, |ms|))
  {
    var a := attempts[0];
    var t, v := Attempted(p, s, a), Attempted(n, u, a);
    AttemptAgrees(p, n, s, u, a);
    AttemptTakes(n, u, a.events);
    SameAccepted(p, n, u.tools.seeds, a.events, |a.events|);
    LastState(p, s, attempts, retries);
    assert !HasFinish(a.events) ==> !t.out.hasReturn;
    assert HasFinish(a.events) ==> t.out.hasReturn;
    AfterHears(p, n, t, v, a, retries);
  }

  ghost predicate HearsRest(p: Env, n: Env, seeds: set<Bytes>, s: State, u: State, attempts: seq<Attempt>, retries: nat) {
    |attempts| > retries && AtLoop(p, n, s, u) && u.tools.seeds == seeds ==>
      var ms := Final(p, s, attempts, retries).events;
      CallsAre(Heard(RunFrom(p, s, attempts, retries).out.trace, true), AcceptedCalls(p, seeds, ms, |ms|))
  }

  ghost predicate HearsFrom(p: Env, n: Env, seeds: set<Bytes>, attempts: seq<Attempt>, retries: nat) {
    forall s, u :: HearsRest(p, n, seeds, s, u, attempts, retries)
  }

  lemma TurnHears(p: Env, n: Env, seeds: set<Bytes>, s: State, u: State, attempts: seq<Attempt>, retries: nat)
    requires Modes(p, n) && NamesNeeded(p) && |attempts| > retries
    requires retries > 0 ==> HearsFrom(p, n, seeds, attempts[1..], retries - 1)
    ensures HearsRest(p, n, seeds, s, u, attempts, retries)
  {
    if AtLoop(p, n, s, u) && u.tools.seeds == seeds {
      var t, v := Attempted(p, s, attempts[0]), Attempted(n, u, attempts[0]);
      if Retried(t, attempts[0], retries) {
        RetryAgrees(p, n, s, u, attempts[0], retries);
        RetryTakesNothing(n, u, attempts[0], retries);
        RunSteps(p, s, attempts, retries);
        assert HearsRest(p, n, seeds, t, v, attempts[1..], retries - 1);
      } else {
        LastHears(p, n, s, u, attempts, retries);
      }
    }
  }

  lemma {:induction false} RunFromHears(p: Env, n: Env, seeds: set<Bytes>, attempts: seq<Attempt>, retries: nat)
    requires Modes(p, n) && NamesNeeded(p) && |attempts| > retries
    ensures HearsFrom(p, n, seeds, attempts, retries)
    decreases retries
  {
    if retries > 0 { RunFromHears(p, n, seeds, attempts[1..], retries - 1); }
    forall s, u ensures HearsRest(p, n, seeds, s, u, attempts, retries) { TurnHears(p, n, seeds, s, u, attempts, retries); }
  }

  /** The tool blocks of a whole streamed response, retries included, are the calls that the events of the last attempt
      offer and the rules accept, in order, each with its trimmed input. */
  lemma RunHears(p: Env, start: Event, seeds: set<Bytes>, attempts: seq<Attempt>, retries: nat)
    requires p.isStream && NamesNeeded(p) && |attempts| > retries && start.MessageStart?
    ensures var ms := Final(p, Opened(p, start, seeds), attempts, retries).events;
      CallsAre(Heard(Run(p, start, seeds, attempts, retries).out.trace, true), AcceptedCalls(p, seeds, ms, |ms|))
  {
    var n := p.(isStream := false);
    var s, u := Opened(p, start, seeds), Opened(n, start, seeds);
    RunIsOnCourse(p, n, start, seeds, attempts, retries);
    RunFromHears(p, n, seeds, attempts, retries);
    assert HearsRest(p, n, seeds, s, u, attempts, retries);
    RunEnds(p, s, attempts, retries);
  }
}
