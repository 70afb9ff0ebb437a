/** Provider chunks to upstream events: which tool inputs are open, and the events of each tool id. */
module StreamParser {
  import opened Bytes
  import opened Picking

  /** One entry of `tool_calls`; a member that is absent reads as empty or zero. */
  datatype CallDelta = NotACall | CallDelta(id: Bytes, index: int, name: Bytes, args: Bytes)

  /** A decoded chunk: nothing usable, or its first choice. */
  datatype Chunk = NoChoice | Choice(content: Bytes, reasoning: Bytes, calls: seq<CallDelta>, finish: Bytes, usage: map<Bytes, int>)

  datatype Msg =
    | TextStart
    | TextDelta(text: Bytes)
    | TextEnd
    | Thinking(thinking: Bytes)
    | ToolStart(id: Bytes, name: Bytes)
    | ToolDelta(id: Bytes, args: Bytes)
    | ToolEnd(id: Bytes)
    | FinishMsg(reason: Bytes, usage: map<Bytes, int>)

  // ------------------------------------------------------------------- the events of one id

  datatype Mode = Closed | Open | Broken

  predicate StartOf(m: Msg, id: Bytes) { m.ToolStart? && m.id == id }
  predicate DeltaOf(m: Msg, id: Bytes) { m.ToolDelta? && m.id == id }
  predicate EndOf(m: Msg, id: Bytes) { m.ToolEnd? && m.id == id }

  /** The automaton of (start, delta*, end)*. */
  function ModeStep(mode: Mode, m: Msg, id: Bytes): Mode {
    if StartOf(m, id) then (if mode == Closed then Open else Broken)
    else if DeltaOf(m, id) then (if mode == Open then Open else Broken)
    else if EndOf(m, id) then (if mode == Open then Closed else Broken)
    else mode
  }

  function ModeOf(t: seq<Msg>, id: Bytes): Mode {
    if t == [] then Closed else ModeStep(ModeOf(t[..|t| - 1], id), t[|t| - 1], id)
  }

  /** `open` is exactly the set of ids open in the trace, and no id is out of order. */
  ghost predicate Tracks(t: seq<Msg>, open: set<Bytes>) {
    "" !in open && forall id :: id != "" ==> ModeOf(t, id) == if id in open then Open else Closed
  }

  lemma TracksSnoc(t: seq<Msg>, open: set<Bytes>, m: Msg, open2: set<Bytes>)
    requires Tracks(t, open) && "" !in open2
    requires forall id :: id != "" ==> ModeStep(if id in open then Open else Closed, m, id) == if id in open2 then Open else Closed
    ensures Tracks(t + [m], open2)
  {
    assert (t + [m])[..|t|] == t;
    forall id | id != "" ensures ModeOf(t + [m], id) == if id in open2 then Open else Closed {
      assert ModeOf(t + [m], id) == ModeStep(ModeOf(t, id), m, id);
    }
  }

  // -------------------------------------------------------- what the automaton's verdict means

  /** The start at `a` is not ended before position `n`. */
  predicate Unended(t: seq<Msg>, id: Bytes, a: int, n: int) {
    0 <= a < n <= |t| && StartOf(t[a], id) && forall c :: a < c < n ==> !EndOf(t[c], id)
  }

  /** Deltas and ends of the id come after a start not yet ended; a start comes when none is open. */
  ghost predicate InOrder(t: seq<Msg>, id: Bytes) {
    && (forall b :: 0 <= b < |t| && (DeltaOf(t[b], id) || EndOf(t[b], id)) ==> exists a :: Unended(t, id, a, b))
    && (forall b :: 0 <= b < |t| && StartOf(t[b], id) ==> !exists a :: Unended(t, id, a, b))
  }

  lemma UnendedSame(t: seq<Msg>, u: seq<Msg>, id: Bytes, a: int, n: int)
    requires u <= t && n <= |u|
    ensures Unended(t, id, a, n) <==> Unended(u, id, a, n)
  {
    assert forall c :: 0 <= c < n ==> t[c] == u[c];
  }

  lemma {:induction false} OpenMeansUnended(t: seq<Msg>, id: Bytes)
    requires ModeOf(t, id) != Broken
    ensures ModeOf(t, id) == Open <==> exists a :: Unended(t, id, a, |t|)
  {
    if t != [] {
      var u, m := t[..|t| - 1], t[|t| - 1];
      OpenMeansUnended(u, id);
      if ModeOf(t, id) == Open {
        if StartOf(m, id) { assert Unended(t, id, |u|, |t|); }
        else {
          var a :| Unended(u, id, a, |u|);
          assert Unended(t, id, a, |t|);
        }
      } else if exists a :: Unended(t, id, a, |t|) {
        var a :| Unended(t, id, a, |t|);
        assert t[a] == u[a] && Unended(u, id, a, |u|);
      }
    }
  }

  /** A trace whose id is never broken has its events in order. */
  lemma {:induction false} UnbrokenIsInOrder(t: seq<Msg>, id: Bytes)
    requires ModeOf(t, id) != Broken
    ensures InOrder(t, id)
  {
    if t != [] {
      var u := t[..|t| - 1];
      UnbrokenIsInOrder(u, id);
      OpenMeansUnended(u, id);
      forall a, b | 0 <= b < |t| ensures Unended(t, id, a, b) <==> Unended(u, id, a, b) { UnendedSame(t, u, id, a, b); }
      forall b | 0 <= b < |t| && (DeltaOf(t[b], id) || EndOf(t[b], id)) ensures exists a :: Unended(t, id, a, b) {
        if b < |u| { assert t[b] == u[b]; }
        var a :| Unended(u, id, a, b);
        assert Unended(t, id, a, b);
      }
      forall b | 0 <= b < |t| && StartOf(t[b], id) ensures !exists a :: Unended(t, id, a, b) {
        if b < |u| { assert t[b] == u[b]; }
      }
    }
  }

  // ------------------------------------------------------------------ what a chunk decodes to

  /** The parser's fields while the calls of a chunk are read: the ids of the chunk, and what was emitted. */
  datatype Scan = Scan(open: set<Bytes>, index: map<int, Bytes>, seen: set<Bytes>, msgs: seq<Msg>)

  /** The id a call is for: its own, else the one its index had last. */
  function Resolve(index: map<int, Bytes>, c: CallDelta): Bytes
    requires c.CallDelta?
  {
    if c.id != "" then c.id else if c.index in index then index[c.index] else ""
  }

  function ScanCall(s: Scan, c: CallDelta): Scan {
    if c.NotACall? then s
    else
      var id := Resolve(s.index, c);
      var start := if id != "" && id !in s.open then [ToolStart(id, c.name)] else [];
      var delta := if c.args != "" then [ToolDelta(id, c.args)] else [];
      Scan(if id != "" then s.open + {id} else s.open,
           if c.id != "" then s.index[c.index := c.id] else s.index,
           if id != "" then s.seen + {id} else s.seen,
           s.msgs + start + delta)
  }

  function ScanCalls(s: Scan, calls: seq<CallDelta>): Scan {
    if calls == [] then s else ScanCall(ScanCalls(s, calls[..|calls| - 1]), calls[|calls| - 1])
  }

  function Ends(ids: seq<Bytes>): seq<Msg> {
    if ids == [] then [] else Ends(ids[..|ids| - 1]) + [ToolEnd(ids[|ids| - 1])]
  }

  /** The ids of a set, in some order. */
  predicate Lists(ids: seq<Bytes>, s: set<Bytes>) {
    (forall k :: 0 <= k < |ids| ==> ids[k] in s) && (forall i :: i in s ==> i in ids)
      && forall j, k :: 0 <= j < k < |ids| ==> ids[j] != ids[k]
  }

  function TextMsgs(c: Chunk): seq<Msg>
    requires c.Choice?
  {
    (if c.content != "" then [TextStart, TextDelta(c.content), TextEnd] else [])
      + if c.reasoning != "" then [Thinking(c.reasoning)] else []
  }

  /** `mapFinishReason`, for a reason already trimmed and lower-cased. */
  function MapFinish(reason: Bytes): Bytes {
    if reason == "length" then "max_tokens"
    else if reason == "tool_calls" then "tool_use"
    else if reason == "content_filter" then "content_filter"
    else if reason == "insufficient_quota" || reason == "quota_exceeded" then "quota"
    else "end_turn"
  }

  function Finishing(c: Chunk, lower: Bytes -> Bytes): (m: Msg)
    requires c.Choice?
    ensures m.FinishMsg?
  {
    FinishMsg(MapFinish(lower(TrimSpace(c.finish))), c.usage)
  }

  function FinishPart(c: Chunk, lower: Bytes -> Bytes): seq<Msg>
    requires c.Choice?
  {
    if c.finish != "" then [Finishing(c, lower)] else []
  }

  /** The scan of a chunk's calls. */
  function Scanned(c: Chunk, open: set<Bytes>, index: map<int, Bytes>): Scan
    requires c.Choice?
  {
    ScanCalls(Scan(open, index, {}, []), c.calls)
  }

  /** What stays open once the ids the chunk does not mention are ended. */
  function Kept(c: Chunk, open: set<Bytes>, index: map<int, Bytes>): set<Bytes>
    requires c.Choice?
  {
    var s := Scanned(c, open, index);
    if c.calls == [] then s.open else s.open * s.seen
  }

  // ------------------------------------------------------- what a stream means, by position

  /** The call names an id for the index. */
  predicate Names(c: CallDelta, index: int) { c.CallDelta? && c.index == index && c.id != "" }

  predicate LastNamed(calls: seq<CallDelta>, index: int, k: int) {
    0 <= k < |calls| && Names(calls[k], index) && forall j :: k < j < |calls| ==> !Names(calls[j], index)
  }

  /** The id of the last call that names one for the index, empty when none does. */
  function LastID(calls: seq<CallDelta>, index: int): (id: Bytes)
    ensures id == "" <==> forall k :: 0 <= k < |calls| ==> !Names(calls[k], index)
    ensures id != "" ==> exists k :: LastNamed(calls, index, k) && calls[k].id == id
  {
    if calls == [] then ""
    else if Names(calls[|calls| - 1], index) then assert LastNamed(calls, index, |calls| - 1); calls[|calls| - 1].id
    else
      var front := calls[..|calls| - 1];
      assert forall k :: LastNamed(front, index, k) ==> LastNamed(calls, index, k) && calls[k] == front[k];
      LastID(front, index)
  }

  /** The id a call is for after other calls: its own, else the last named for its index. */
  function IdOf(before: seq<CallDelta>, c: CallDelta): Bytes
    requires c.CallDelta?
  {
    if c.id != "" then c.id else LastID(before, c.index)
  }

  /** The arguments of all calls, in order, each with the id it is for. */
  function Fragments(calls: seq<CallDelta>): seq<(Bytes, Bytes)> {
    if calls == [] then []
    else
      var front, c := calls[..|calls| - 1], calls[|calls| - 1];
      Fragments(front) + if c.CallDelta? && c.args != "" then [(IdOf(front, c), c.args)] else []
  }

  /** Call `i` of a chunk is for the id. */
  predicate IsFor(before: seq<CallDelta>, calls: seq<CallDelta>, i: int, id: Bytes) {
    0 <= i < |calls| && calls[i].CallDelta? && id != "" && IdOf(before + calls[..i], calls[i]) == id
  }

  predicate IsFirst(before: seq<CallDelta>, calls: seq<CallDelta>, i: int, id: Bytes) {
    IsFor(before, calls, i, id) && forall j :: 0 <= j < i ==> !IsFor(before, calls, j, id)
  }

  /** The name in the first call of a chunk that is for the id. */
  function FirstName(before: seq<CallDelta>, calls: seq<CallDelta>, id: Bytes): (r: Option<Bytes>)
    ensures r.None? <==> forall i :: 0 <= i < |calls| ==> !IsFor(before, calls, i, id)
    ensures r.Some? ==> exists i :: IsFirst(before, calls, i, id) && calls[i].name == r.value
  {
    if calls == [] then None
    else
      var front := calls[..|calls| - 1];
      SameCalls(before, calls, id);
      var r := FirstName(before, front, id);
      if r.Some? then r
      else if IsFor(before, calls, |calls| - 1, id) then assert IsFirst(before, calls, |calls| - 1, id); Some(calls[|calls| - 1].name)
      else None
  }

  lemma SameCalls(before: seq<CallDelta>, calls: seq<CallDelta>, id: Bytes)
    requires calls != []
    ensures forall i :: 0 <= i < |calls| - 1 ==> (IsFor(before, calls, i, id) <==> IsFor(before, calls[..|calls| - 1], i, id))
    ensures forall i :: IsFirst(before, calls[..|calls| - 1], i, id) ==> IsFirst(before, calls, i, id) && calls[i] == calls[..|calls| - 1][i]
  {
    forall i | 0 <= i < |calls| - 1 ensures IsFor(before, calls, i, id) <==> IsFor(before, calls[..|calls| - 1], i, id) {
      assert calls[..|calls| - 1][..i] == calls[..i];
    }
  }

  function CallsOf(c: Chunk): seq<CallDelta> { if c.Choice? then c.calls else [] }

  /** The calls of all chunks. */
  function AllCalls(chunks: seq<Chunk>): seq<CallDelta> {
    if chunks == [] then [] else AllCalls(chunks[..|chunks| - 1]) + CallsOf(chunks[|chunks| - 1])
  }

  /** Chunk `k` has a call for the id. */
  predicate Mentions(chunks: seq<Chunk>, k: int, id: Bytes) {
    0 <= k < |chunks| && FirstName(AllCalls(chunks[..k]), CallsOf(chunks[k]), id).Some?
  }

  /** Chunk `k` finishes the response, or has calls and none for the id. */
  predicate Closes(chunks: seq<Chunk>, k: int, id: Bytes) {
    0 <= k < |chunks| && chunks[k].Choice? && (chunks[k].finish != "" || (chunks[k].calls != [] && !Mentions(chunks, k, id)))
  }

  /** Some chunk has a call for the id, and neither it nor a later one closes it. */
  predicate IsOpen(chunks: seq<Chunk>, id: Bytes) { exists k :: 0 <= k < |chunks| && OpenFrom(chunks, k, |chunks|, id) }

  /** Chunk `k` mentions the id, and neither it nor a later one before chunk `n` closes it. */
  predicate OpenFrom(chunks: seq<Chunk>, k: int, n: int, id: Bytes) {
    0 <= k < n <= |chunks| && Mentions(chunks, k, id) && forall j :: k <= j < n ==> !Closes(chunks, j, id)
  }

  /** The names the id is started with: that of its first call in a chunk before which it is not open. */
  function Openings(chunks: seq<Chunk>, id: Bytes): seq<Bytes> {
    if chunks == [] then []
    else
      var front, c := chunks[..|chunks| - 1], chunks[|chunks| - 1];
      var name := FirstName(AllCalls(front), CallsOf(c), id);
      Openings(front, id) + if name.Some? && !IsOpen(front, id) then [name.value] else []
  }

  function DeltaIn(): Msg -> Option<(Bytes, Bytes)> { (m: Msg) => if m.ToolDelta? then Some((m.id, m.args)) else None }
  function NameIn(id: Bytes): Msg -> Option<Bytes> { (m: Msg) => if m.ToolStart? && m.id == id then Some(m.name) else None }
  function TextIn(): Msg -> Option<Bytes> { (m: Msg) => if m.TextDelta? then Some(m.text) else None }
  function ThoughtIn(): Msg -> Option<Bytes> { (m: Msg) => if m.Thinking? then Some(m.thinking) else None }
  function FinishIn(): Msg -> Option<(Bytes, map<Bytes, int>)> { (m: Msg) => if m.FinishMsg? then Some((m.reason, m.usage)) else None }

  function ContentOf(): Chunk -> Option<Bytes> { (c: Chunk) => if c.Choice? && c.content != "" then Some(c.content) else None }
  function ReasoningOf(): Chunk -> Option<Bytes> { (c: Chunk) => if c.Choice? && c.reasoning != "" then Some(c.reasoning) else None }

  /** The provider's finish reasons and what each is called downstream; any other is an end of turn. */
  const REASONS: map<Bytes, Bytes> := map[
    "length" := "max_tokens", "tool_calls" := "tool_use", "content_filter" := "content_filter",
    "insufficient_quota" := "quota", "quota_exceeded" := "quota"]

  function EndingOf(lower: Bytes -> Bytes): Chunk -> Option<(Bytes, map<Bytes, int>)> {
    (c: Chunk) =>
      if c.NoChoice? || c.finish == "" then None
      else
        var r := lower(TrimSpace(c.finish));
        Some((if r in REASONS then REASONS[r] else "end_turn", c.usage))
  }

  /** The messages carry the texts, thoughts, arguments and finish reasons of the chunks in order, each argument under
      the id its call is for, and start every id with the name of the call that opens it. */
  ghost predicate Carries(t: seq<Msg>, chunks: seq<Chunk>, lower: Bytes -> Bytes) {
    && Picked(t, TextIn()) == Picked(chunks, ContentOf())
    && Picked(t, ThoughtIn()) == Picked(chunks, ReasoningOf())
    && Picked(t, FinishIn()) == Picked(chunks, EndingOf(lower))
    && Picked(t, DeltaIn()) == Fragments(AllCalls(chunks))
    && forall id :: id != "" ==> Picked(t, NameIn(id)) == Openings(chunks, id)
  }

  /** The index map holds the ids last named. */
  ghost predicate IndexIs(index: map<int, Bytes>, calls: seq<CallDelta>) {
    forall k :: LastID(calls, k) == if k in index then index[k] else ""
  }

  // ------------------------------------------------------------------- the parser means that

  lemma IndexSnoc(index: map<int, Bytes>, calls: seq<CallDelta>, c: CallDelta)
    requires IndexIs(index, calls) && c.CallDelta?
    ensures Resolve(index, c) == IdOf(calls, c)
    ensures IndexIs(if c.id != "" then index[c.index := c.id] else index, calls + [c])
  {
    assert (calls + [c])[..|calls|] == calls;
    var after := if c.id != "" then index[c.index := c.id] else index;
    forall k ensures LastID(calls + [c], k) == if k in after then after[k] else "" {
      assert LastID(calls + [c], k) == if Names(c, k) then c.id else LastID(calls, k);
    }
  }

  lemma IndexSame(index: map<int, Bytes>, calls: seq<CallDelta>)
    requires IndexIs(index, calls)
    ensures IndexIs(index, calls + [NotACall])
  {
    assert (calls + [NotACall])[..|calls|] == calls;
    forall k ensures LastID(calls + [NotACall], k) == if k in index then index[k] else "" {
      assert LastID(calls + [NotACall], k) == LastID(calls, k);
    }
  }

  /** What the scan of a chunk's calls has done after calls of earlier chunks. */
  ghost predicate ScanIs(s: Scan, before: seq<CallDelta>, calls: seq<CallDelta>, open: set<Bytes>) {
    && IndexIs(s.index, before + calls)
    && SeenAre(s, before, calls, open)
    && Fragments(before) + Picked(s.msgs, DeltaIn()) == Fragments(before + calls)
    && NamesAre(s.msgs, before, calls, open)
    && Quiet(s.msgs)
  }

  ghost predicate SeenAre(s: Scan, before: seq<CallDelta>, calls: seq<CallDelta>, open: set<Bytes>) {
    s.open == open + s.seen && forall id :: id in s.seen <==> FirstName(before, calls, id).Some?
  }

  ghost predicate NamesAre(msgs: seq<Msg>, before: seq<CallDelta>, calls: seq<CallDelta>, open: set<Bytes>) {
    forall id :: id != "" ==> Picked(msgs, NameIn(id)) == NewName(before, calls, id, id in open)
  }

  ghost predicate Quiet(msgs: seq<Msg>) {
    Picked(msgs, TextIn()) == [] && Picked(msgs, ThoughtIn()) == [] && Picked(msgs, FinishIn()) == []
  }

  function NewName(before: seq<CallDelta>, calls: seq<CallDelta>, id: Bytes, open: bool): seq<Bytes> {
    var name := FirstName(before, calls, id);
    if name.Some? && !open then [name.value] else []
  }

  lemma FirstNameSnoc(before: seq<CallDelta>, calls: seq<CallDelta>, c: CallDelta, id: Bytes)
    ensures FirstName(before, calls + [c], id) ==
      if FirstName(before, calls, id).Some? then FirstName(before, calls, id)
      else if c.CallDelta? && id != "" && IdOf(before + calls, c) == id then Some(c.name)
      else None
  {
    assert (calls + [c])[..|calls|] == calls;
  }

  lemma FragmentsSnoc(calls: seq<CallDelta>, c: CallDelta)
    ensures Fragments(calls + [c]) == Fragments(calls) + if c.CallDelta? && c.args != "" then [(IdOf(calls, c), c.args)] else []
  {
    assert (calls + [c])[..|calls|] == calls;
  }

  /** What a call adds to the messages. */
  function StartFor(s: Scan, c: CallDelta, id: Bytes): seq<Msg>
    requires c.CallDelta?
  {
    if id != "" && id !in s.open then [ToolStart(id, c.name)] else []
  }

  function DeltaFor(c: CallDelta, id: Bytes): seq<Msg>
    requires c.CallDelta?
  {
    if c.args != "" then [ToolDelta(id, c.args)] else []
  }

  /** Picking from messages followed by at most a start and a delta. */
  lemma PickedTwo<T>(msgs: seq<Msg>, start: seq<Msg>, delta: seq<Msg>, f: Msg -> Option<T>)
    requires |start| <= 1 && |delta| <= 1
    ensures Picked(msgs + start + delta, f)
      == Picked(msgs, f) + (if start != [] && f(start[0]).Some? then [f(start[0]).value] else [])
        + (if delta != [] && f(delta[0]).Some? then [f(delta[0]).value] else [])
  {
    if start != [] { PickedSnoc(msgs, start[0], f); assert start == [start[0]]; } else { assert msgs + start == msgs; }
    if delta != [] { PickedSnoc(msgs + start, delta[0], f); assert delta == [delta[0]]; } else { assert msgs + start + delta == msgs + start; }
  }

  lemma PickedName(s: Scan, c: CallDelta, id: Bytes, i: Bytes)
    requires c.CallDelta? && i != ""
    ensures Picked(s.msgs + StartFor(s, c, id) + DeltaFor(c, id), NameIn(i))
      == Picked(s.msgs, NameIn(i)) + if i == id && id !in s.open then [c.name] else []
  {
    var start := StartFor(s, c, id);
    PickedTwo(s.msgs, start, DeltaFor(c, id), NameIn(i));
    assert (start != [] && NameIn(i)(start[0]).Some?) <==> (i == id && id !in s.open);
  }

  lemma StepNames(s: Scan, before: seq<CallDelta>, calls: seq<CallDelta>, c: CallDelta, open: set<Bytes>, id: Bytes)
    requires c.CallDelta? && SeenAre(s, before, calls, open) && NamesAre(s.msgs, before, calls, open) && id == IdOf(before + calls, c)
    ensures NamesAre(s.msgs + StartFor(s, c, id) + DeltaFor(c, id), before, calls + [c], open)
  {
    forall i | i != ""
      ensures Picked(s.msgs + StartFor(s, c, id) + DeltaFor(c, id), NameIn(i)) == NewName(before, calls + [c], i, i in open)
    {
      PickedName(s, c, id, i);
      FirstNameSnoc(before, calls, c, i);
      assert i in s.seen <==> FirstName(before, calls, i).Some?;
    }
  }

  lemma StepSeen(s: Scan, before: seq<CallDelta>, calls: seq<CallDelta>, c: CallDelta, open: set<Bytes>, id: Bytes, s': Scan)
    requires c.CallDelta? && SeenAre(s, before, calls, open) && id == IdOf(before + calls, c)
    requires s'.seen == (if id != "" then s.seen + {id} else s.seen) && s'.open == if id != "" then s.open + {id} else s.open
    ensures SeenAre(s', before, calls + [c], open)
  {
    forall i ensures i in s'.seen <==> FirstName(before, calls + [c], i).Some? { FirstNameSnoc(before, calls, c, i); }
  }

  lemma StepUnheard(s: Scan, c: CallDelta, id: Bytes, f: Msg -> Option<Bytes>)
    requires c.CallDelta? && (forall i, n :: f(ToolStart(i, n)).None?) && (forall i, a :: f(ToolDelta(i, a)).None?)
    ensures Picked(s.msgs + StartFor(s, c, id) + DeltaFor(c, id), f) == Picked(s.msgs, f)
  {
    PickedTwo(s.msgs, StartFor(s, c, id), DeltaFor(c, id), f);
  }

  lemma StepUnfinished(s: Scan, c: CallDelta, id: Bytes)
    requires c.CallDelta?
    ensures Picked(s.msgs + StartFor(s, c, id) + DeltaFor(c, id), FinishIn()) == Picked(s.msgs, FinishIn())
  {
    PickedTwo(s.msgs, StartFor(s, c, id), DeltaFor(c, id), FinishIn());
  }

  lemma StepQuiet(s: Scan, c: CallDelta, id: Bytes)
    requires c.CallDelta? && Quiet(s.msgs)
    ensures Quiet(s.msgs + StartFor(s, c, id) + DeltaFor(c, id))
  {
    StepUnheard(s, c, id, TextIn());
    StepUnheard(s, c, id, ThoughtIn());
    StepUnfinished(s, c, id);
  }

  lemma PickedDelta(s: Scan, c: CallDelta, id: Bytes)
    requires c.CallDelta?
    ensures Picked(s.msgs + StartFor(s, c, id) + DeltaFor(c, id), DeltaIn())
      == Picked(s.msgs, DeltaIn()) + if c.args != "" then [(id, c.args)] else []
  {
    PickedTwo(s.msgs, StartFor(s, c, id), DeltaFor(c, id), DeltaIn());
  }

  lemma AppendTwo<T>(a: seq<T>, b: seq<T>, c: seq<T>)
    ensures (a + b) + c == a + (b + c)
  {
  }

  lemma StepDeltas(s: Scan, all: seq<CallDelta>, before: seq<CallDelta>, c: CallDelta, id: Bytes)
    requires c.CallDelta? && id == IdOf(all, c) && Fragments(before) + Picked(s.msgs, DeltaIn()) == Fragments(all)
    ensures Fragments(before) + Picked(s.msgs + StartFor(s, c, id) + DeltaFor(c, id), DeltaIn()) == Fragments(all + [c])
  {
    PickedDelta(s, c, id);
    FragmentsSnoc(all, c);
    AppendTwo(Fragments(before), Picked(s.msgs, DeltaIn()), if c.args != "" then [(id, c.args)] else []);
  }

  lemma StepNothing(s: Scan, before: seq<CallDelta>, calls: seq<CallDelta>, open: set<Bytes>)
    requires ScanIs(s, before, calls, open)
    ensures ScanIs(s, before, calls + [NotACall], open)
  {
    assert before + (calls + [NotACall]) == (before + calls) + [NotACall];
    IndexSame(s.index, before + calls);
    FragmentsSnoc(before + calls, NotACall);
    forall id ensures FirstName(before, calls + [NotACall], id) == FirstName(before, calls, id) { FirstNameSnoc(before, calls, NotACall, id); }
  }

  lemma ScanStep(s: Scan, before: seq<CallDelta>, calls: seq<CallDelta>, c: CallDelta, open: set<Bytes>)
    requires ScanIs(s, before, calls, open)
    ensures ScanIs(ScanCall(s, c), before, calls + [c], open)
  {
    if c.NotACall? {
      StepNothing(s, before, calls, open);
    } else {
      var all, id := before + calls, Resolve(s.index, c);
      assert before + (calls + [c]) == all + [c];
      IndexSnoc(s.index, all, c);
      StepSeen(s, before, calls, c, open, id, ScanCall(s, c));
      StepNames(s, before, calls, c, open, id);
      StepQuiet(s, c, id);
      StepDeltas(s, all, before, c, id);
      assert ScanCall(s, c).msgs == s.msgs + StartFor(s, c, id) + DeltaFor(c, id);
    }
  }

  lemma NothingScanned(before: seq<CallDelta>, open: set<Bytes>, index: map<int, Bytes>)
    requires IndexIs(index, before)
    ensures ScanIs(Scan(open, index, {}, []), before, [], open)
  {
    assert before + [] == before;
    assert Fragments(before) + [] == Fragments(before);
  }

  lemma ScanCallsSnoc(s: Scan, calls: seq<CallDelta>, c: CallDelta)
    ensures ScanCalls(s, calls + [c]) == ScanCall(ScanCalls(s, calls), c)
  {
    assert (calls + [c])[..|calls|] == calls;
  }

  lemma {:induction false} ScanMeans(before: seq<CallDelta>, calls: seq<CallDelta>, open: set<Bytes>, index: map<int, Bytes>)
    requires IndexIs(index, before)
    ensures ScanIs(ScanCalls(Scan(open, index, {}, []), calls), before, calls, open)
  {
    var s := Scan(open, index, {}, []);
    if calls == [] {
      NothingScanned(before, open, index);
    } else {
      var front, c := calls[..|calls| - 1], calls[|calls| - 1];
      ScanMeans(before, front, open, index);
      ScanStep(ScanCalls(s, front), before, front, c, open);
      ScanCallsSnoc(s, front, c);
      assert front + [c] == calls;
    }
  }

  lemma {:induction false} EndsPickNothing<T>(ids: seq<Bytes>, f: Msg -> Option<T>)
    requires forall id :: f(ToolEnd(id)).None?
    ensures Picked(Ends(ids), f) == []
  {
    if ids != [] {
      EndsPickNothing(ids[..|ids| - 1], f);
      PickedSnoc(Ends(ids[..|ids| - 1]), ToolEnd(ids[|ids| - 1]), f);
    }
  }

  /** The messages of one chunk, whatever the order of the ends. */
  function ChunkMsgs(c: Chunk, s: Scan, ids: seq<Bytes>, last: seq<Bytes>, lower: Bytes -> Bytes): seq<Msg>
    requires c.Choice?
  {
    TextMsgs(c) + ((s.msgs + Ends(ids)) + (Ends(last) + FinishPart(c, lower)))
  }

  lemma PickedParts<T>(t: seq<Msg>, a: seq<Msg>, b: seq<Msg>, c: seq<Msg>, d: seq<Msg>, e: seq<Msg>, f: Msg -> Option<T>)
    ensures Picked(t + (a + ((b + c) + (d + e))), f)
      == Picked(t, f) + (Picked(a, f) + ((Picked(b, f) + Picked(c, f)) + (Picked(d, f) + Picked(e, f))))
  {
    var bc, de := b + c, d + e;
    PickedAdds(t, a + (bc + de), f);
    PickedAdds(a, bc + de, f);
    PickedAdds(bc, de, f);
    PickedAdds(b, c, f);
    PickedAdds(d, e, f);
  }

  lemma DropEmpty<T>(t: seq<T>, a: seq<T>, b: seq<T>, c: seq<T>, d: seq<T>, e: seq<T>)
    requires c == [] && d == []
    ensures t + (a + ((b + c) + (d + e))) == t + (a + (b + e))
  {
    assert b + c == b && d + e == e;
  }

  lemma PickedChunk<T>(t: seq<Msg>, c: Chunk, s: Scan, ids: seq<Bytes>, last: seq<Bytes>, lower: Bytes -> Bytes, f: Msg -> Option<T>)
    requires c.Choice? && forall id :: f(ToolEnd(id)).None?
    ensures Picked(t + ChunkMsgs(c, s, ids, last, lower), f)
      == Picked(t, f) + (Picked(TextMsgs(c), f) + (Picked(s.msgs, f) + Picked(FinishPart(c, lower), f)))
  {
    PickedParts(t, TextMsgs(c), s.msgs, Ends(ids), Ends(last), FinishPart(c, lower), f);
    EndsPickNothing(ids, f);
    EndsPickNothing(last, f);
    DropEmpty(Picked(t, f), Picked(TextMsgs(c), f), Picked(s.msgs, f), Picked(Ends(ids), f), Picked(Ends(last), f), Picked(FinishPart(c, lower), f));
  }

  /** What is picked from the text and the finish of a chunk. */
  function TextBits<T>(c: Chunk, f: Msg -> Option<T>): seq<T>
    requires c.Choice?
  {
    (if c.content != "" && f(TextDelta(c.content)).Some? then [f(TextDelta(c.content)).value] else [])
      + if c.reasoning != "" && f(Thinking(c.reasoning)).Some? then [f(Thinking(c.reasoning)).value] else []
  }

  function FinishBits<T>(c: Chunk, lower: Bytes -> Bytes, f: Msg -> Option<T>): seq<T>
    requires c.Choice?
  {
    if c.finish != "" && f(Finishing(c, lower)).Some? then [f(Finishing(c, lower)).value] else []
  }

  lemma PickedText<T>(c: Chunk, f: Msg -> Option<T>)
    requires c.Choice? && f(TextStart).None? && f(TextEnd).None?
    ensures Picked(TextMsgs(c), f) == TextBits(c, f)
  {
    var text := if c.content != "" then [TextStart, TextDelta(c.content), TextEnd] else [];
    var thought := if c.reasoning != "" then [Thinking(c.reasoning)] else [];
    PickedAdds(text, thought, f);
    if c.content != "" {
      assert text == (([] + [TextStart]) + [TextDelta(c.content)]) + [TextEnd];
      PickedSnoc([], TextStart, f);
      PickedSnoc([] + [TextStart], TextDelta(c.content), f);
      PickedSnoc(([] + [TextStart]) + [TextDelta(c.content)], TextEnd, f);
    }
    if c.reasoning != "" { PickedSnoc([], Thinking(c.reasoning), f); assert [] + [Thinking(c.reasoning)] == thought; }
  }

  lemma PickedFinish<T>(c: Chunk, lower: Bytes -> Bytes, f: Msg -> Option<T>)
    requires c.Choice?
    ensures Picked(FinishPart(c, lower), f) == FinishBits(c, lower, f)
  {
    var m := Finishing(c, lower);
    if c.finish != "" { PickedSnoc([], m, f); assert [] + [m] == FinishPart(c, lower); }
  }

  /** What is picked from the messages with those of another chunk. */
  lemma PickedNext<T>(t: seq<Msg>, c: Chunk, s: Scan, ids: seq<Bytes>, last: seq<Bytes>, lower: Bytes -> Bytes, f: Msg -> Option<T>)
    requires c.Choice? && (forall id :: f(ToolEnd(id)).None?) && f(TextStart).None? && f(TextEnd).None?
    ensures Picked(t + ChunkMsgs(c, s, ids, last, lower), f)
      == Picked(t, f) + (TextBits(c, f) + (Picked(s.msgs, f) + FinishBits(c, lower, f)))
  {
    PickedChunk(t, c, s, ids, last, lower, f);
    PickedText(c, f);
    PickedFinish(c, lower, f);
  }

  lemma MapFinishIs(reason: Bytes)
    ensures MapFinish(reason) == if reason in REASONS then REASONS[reason] else "end_turn"
  {
  }

  lemma FinishingIs(c: Chunk, lower: Bytes -> Bytes)
    requires c.Choice?
    ensures EndingOf(lower)(c) == if c.finish == "" then None else Some((Finishing(c, lower).reason, c.usage))
  {
    if c.finish != "" { MapFinishIs(lower(TrimSpace(c.finish))); }
  }

  lemma AllCallsSnoc(chunks: seq<Chunk>, c: Chunk)
    ensures AllCalls(chunks + [c]) == AllCalls(chunks) + CallsOf(c)
  {
    assert (chunks + [c])[..|chunks|] == chunks;
  }

  lemma SameChunks(chunks: seq<Chunk>, c: Chunk, k: nat, id: Bytes)
    requires k < |chunks|
    ensures Mentions(chunks + [c], k, id) <==> Mentions(chunks, k, id)
    ensures Closes(chunks + [c], k, id) <==> Closes(chunks, k, id)
  {
    var all := chunks + [c];
    assert all[..k] == chunks[..k] && all[k] == chunks[k];
  }

  lemma SameOpen(chunks: seq<Chunk>, c: Chunk, k: int, id: Bytes)
    ensures OpenFrom(chunks + [c], k, |chunks|, id) <==> OpenFrom(chunks, k, |chunks|, id)
  {
    forall j | 0 <= j < |chunks|
      ensures Mentions(chunks + [c], j, id) <==> Mentions(chunks, j, id)
      ensures Closes(chunks + [c], j, id) <==> Closes(chunks, j, id)
    {
      SameChunks(chunks, c, j, id);
    }
  }

  lemma WasOpen(chunks: seq<Chunk>, c: Chunk, id: Bytes)
    requires IsOpen(chunks + [c], id)
    ensures !Closes(chunks + [c], |chunks|, id) && (Mentions(chunks + [c], |chunks|, id) || IsOpen(chunks, id))
  {
    var n := |chunks|;
    var k :| 0 <= k < n + 1 && OpenFrom(chunks + [c], k, n + 1, id);
    if k < n {
      assert OpenFrom(chunks + [c], k, n, id);
      SameOpen(chunks, c, k, id);
    }
  }

  lemma StaysOpen(chunks: seq<Chunk>, c: Chunk, id: Bytes)
    requires IsOpen(chunks, id) && !Closes(chunks + [c], |chunks|, id)
    ensures IsOpen(chunks + [c], id)
  {
    var k :| 0 <= k < |chunks| && OpenFrom(chunks, k, |chunks|, id);
    SameOpen(chunks, c, k, id);
    assert OpenFrom(chunks + [c], k, |chunks| + 1, id);
  }

  /** Another chunk leaves an id open when it has calls for it, or no calls, and does not finish. */
  lemma OpenSnoc(chunks: seq<Chunk>, c: Chunk, id: Bytes)
    ensures IsOpen(chunks + [c], id) <==>
      !Closes(chunks + [c], |chunks|, id) && (Mentions(chunks + [c], |chunks|, id) || IsOpen(chunks, id))
  {
    var n := |chunks|;
    if IsOpen(chunks + [c], id) { WasOpen(chunks, c, id); }
    if !Closes(chunks + [c], n, id) {
      if Mentions(chunks + [c], n, id) { assert OpenFrom(chunks + [c], n, n + 1, id); }
      else if IsOpen(chunks, id) { StaysOpen(chunks, c, id); }
    }
  }

  lemma NewestChunk(chunks: seq<Chunk>, c: Chunk, id: Bytes)
    ensures var found := FirstName(AllCalls(chunks), CallsOf(c), id).Some?;
      && Mentions(chunks + [c], |chunks|, id) == found
      && Closes(chunks + [c], |chunks|, id) == (c.Choice? && (c.finish != "" || (c.calls != [] && !found)))
  {
    assert (chunks + [c])[..|chunks|] == chunks && (chunks + [c])[|chunks|] == c;
  }

  /** What the chunks so far mean, in the messages emitted and in the parser's fields. */
  ghost predicate Decoded(t: seq<Msg>, chunks: seq<Chunk>, lower: Bytes -> Bytes, open: set<Bytes>, index: map<int, Bytes>) {
    && Carries(t, chunks, lower)
    && IndexIs(index, AllCalls(chunks))
    && forall id :: id in open <==> IsOpen(chunks, id)
  }

  lemma NothingDecoded(lower: Bytes -> Bytes)
    ensures Decoded([], [], lower, {}, map[])
  {
  }

  lemma NoChoiceMeans(t: seq<Msg>, chunks: seq<Chunk>, lower: Bytes -> Bytes, open: set<Bytes>, index: map<int, Bytes>)
    requires Decoded(t, chunks, lower, open, index)
    ensures Decoded(t, chunks + [NoChoice], lower, open, index)
  {
    PickedSnoc(chunks, NoChoice, ContentOf());
    PickedSnoc(chunks, NoChoice, ReasoningOf());
    PickedSnoc(chunks, NoChoice, EndingOf(lower));
    AllCallsSnoc(chunks, NoChoice);
    assert AllCalls(chunks) + [] == AllCalls(chunks);
    forall id ensures (IsOpen(chunks + [NoChoice], id) <==> IsOpen(chunks, id)) && Openings(chunks + [NoChoice], id) == Openings(chunks, id) {
      NewestChunk(chunks, NoChoice, id);
      OpenSnoc(chunks, NoChoice, id);
      OpeningsSnoc(chunks, NoChoice, id);
    }
  }

  lemma OpeningsSnoc(chunks: seq<Chunk>, c: Chunk, id: Bytes)
    ensures Openings(chunks + [c], id) == Openings(chunks, id) + NewName(AllCalls(chunks), CallsOf(c), id, IsOpen(chunks, id))
  {
    assert (chunks + [c])[..|chunks|] == chunks;
  }

  lemma PickedCalls<T>(t: seq<Msg>, c: Chunk, s: Scan, ids: seq<Bytes>, last: seq<Bytes>, lower: Bytes -> Bytes, f: Msg -> Option<T>)
    requires c.Choice? && (forall id :: f(ToolEnd(id)).None?) && f(TextStart).None? && f(TextEnd).None?
    requires (forall x :: f(TextDelta(x)).None? && f(Thinking(x)).None?) && forall r, u :: f(FinishMsg(r, u)).None?
    ensures Picked(t + ChunkMsgs(c, s, ids, last, lower), f) == Picked(t, f) + Picked(s.msgs, f)
  {
    PickedNext(t, c, s, ids, last, lower, f);
  }

  lemma TextFound(c: Chunk, lower: Bytes -> Bytes)
    requires c.Choice?
    ensures TextBits(c, TextIn()) == (if c.content != "" then [c.content] else []) && FinishBits(c, lower, TextIn()) == []
  {
  }

  lemma ThoughtFound(c: Chunk, lower: Bytes -> Bytes)
    requires c.Choice?
    ensures TextBits(c, ThoughtIn()) == (if c.reasoning != "" then [c.reasoning] else []) && FinishBits(c, lower, ThoughtIn()) == []
  {
  }

  lemma FinishFound(c: Chunk, lower: Bytes -> Bytes)
    requires c.Choice?
    ensures TextBits(c, FinishIn()) == []
    ensures FinishBits(c, lower, FinishIn()) == if EndingOf(lower)(c).Some? then [EndingOf(lower)(c).value] else []
  {
    FinishingIs(c, lower);
  }

  /** Something of each chunk is picked from its text or from its finish, and nothing from its calls. */
  lemma PlainNext<T>(t: seq<Msg>, chunks: seq<Chunk>, c: Chunk, s: Scan, ids: seq<Bytes>, last: seq<Bytes>, lower: Bytes -> Bytes,
                     f: Msg -> Option<T>, g: Chunk -> Option<T>)
    requires c.Choice? && (forall id :: f(ToolEnd(id)).None?) && f(TextStart).None? && f(TextEnd).None?
    requires Picked(t, f) == Picked(chunks, g) && Picked(s.msgs, f) == []
    requires TextBits(c, f) + FinishBits(c, lower, f) == if g(c).Some? then [g(c).value] else []
    ensures Picked(t + ChunkMsgs(c, s, ids, last, lower), f) == Picked(chunks + [c], g)
  {
    PickedNext(t, c, s, ids, last, lower, f);
    PickedSnoc(chunks, c, g);
    NoMiddle(TextBits(c, f), Picked(s.msgs, f), FinishBits(c, lower, f));
  }

  lemma NoMiddle<T>(a: seq<T>, b: seq<T>, c: seq<T>)
    requires b == []
    ensures a + (b + c) == a + c
  {
    assert b + c == c;
  }

  lemma TextsMean(t: seq<Msg>, chunks: seq<Chunk>, c: Chunk, s: Scan, ids: seq<Bytes>, last: seq<Bytes>, lower: Bytes -> Bytes)
    requires c.Choice? && Picked(t, TextIn()) == Picked(chunks, ContentOf()) && Quiet(s.msgs)
    ensures Picked(t + ChunkMsgs(c, s, ids, last, lower), TextIn()) == Picked(chunks + [c], ContentOf())
  {
    TextFound(c, lower);
    PlainNext(t, chunks, c, s, ids, last, lower, TextIn(), ContentOf());
  }

  lemma ThoughtsMean(t: seq<Msg>, chunks: seq<Chunk>, c: Chunk, s: Scan, ids: seq<Bytes>, last: seq<Bytes>, lower: Bytes -> Bytes)
    requires c.Choice? && Picked(t, ThoughtIn()) == Picked(chunks, ReasoningOf()) && Quiet(s.msgs)
    ensures Picked(t + ChunkMsgs(c, s, ids, last, lower), ThoughtIn()) == Picked(chunks + [c], ReasoningOf())
  {
    ThoughtFound(c, lower);
    PlainNext(t, chunks, c, s, ids, last, lower, ThoughtIn(), ReasoningOf());
  }

  lemma FinishesMean(t: seq<Msg>, chunks: seq<Chunk>, c: Chunk, s: Scan, ids: seq<Bytes>, last: seq<Bytes>, lower: Bytes -> Bytes)
    requires c.Choice? && Picked(t, FinishIn()) == Picked(chunks, EndingOf(lower)) && Quiet(s.msgs)
    ensures Picked(t + ChunkMsgs(c, s, ids, last, lower), FinishIn()) == Picked(chunks + [c], EndingOf(lower))
  {
    FinishFound(c, lower);
    PlainNext(t, chunks, c, s, ids, last, lower, FinishIn(), EndingOf(lower));
  }

  lemma FragmentsMean(t: seq<Msg>, chunks: seq<Chunk>, c: Chunk, s: Scan, ids: seq<Bytes>, last: seq<Bytes>, lower: Bytes -> Bytes)
    requires c.Choice? && Picked(t, DeltaIn()) == Fragments(AllCalls(chunks))
    requires Fragments(AllCalls(chunks)) + Picked(s.msgs, DeltaIn()) == Fragments(AllCalls(chunks) + c.calls)
    ensures Picked(t + ChunkMsgs(c, s, ids, last, lower), DeltaIn()) == Fragments(AllCalls(chunks + [c]))
  {
    PickedCalls(t, c, s, ids, last, lower, DeltaIn());
    var a, b, d := Fragments(AllCalls(chunks)), Picked(s.msgs, DeltaIn()), c.calls;
    assert a + b == Fragments(AllCalls(chunks) + d);
    AllCallsSnoc(chunks, c);
  }

  lemma NamesMean(t: seq<Msg>, chunks: seq<Chunk>, c: Chunk, s: Scan, ids: seq<Bytes>, last: seq<Bytes>, lower: Bytes -> Bytes, open: set<Bytes>)
    requires c.Choice? && (forall id :: id != "" ==> Picked(t, NameIn(id)) == Openings(chunks, id))
    requires NamesAre(s.msgs, AllCalls(chunks), c.calls, open) && forall id :: id in open <==> IsOpen(chunks, id)
    ensures forall id :: id != "" ==> Picked(t + ChunkMsgs(c, s, ids, last, lower), NameIn(id)) == Openings(chunks + [c], id)
  {
    forall id | id != "" ensures Picked(t + ChunkMsgs(c, s, ids, last, lower), NameIn(id)) == Openings(chunks + [c], id) {
      PickedCalls(t, c, s, ids, last, lower, NameIn(id));
      OpeningsSnoc(chunks, c, id);
    }
  }

  lemma OpenMeans(chunks: seq<Chunk>, c: Chunk, open: set<Bytes>, s: Scan, left: set<Bytes>)
    requires c.Choice? && SeenAre(s, AllCalls(chunks), c.calls, open) && forall id :: id in open <==> IsOpen(chunks, id)
    requires left == if c.finish != "" then {} else if c.calls == [] then s.open else s.open * s.seen
    ensures forall id :: id in left <==> IsOpen(chunks + [c], id)
  {
    forall id ensures id in left <==> IsOpen(chunks + [c], id) {
      NewestChunk(chunks, c, id);
      OpenSnoc(chunks, c, id);
    }
  }

  lemma ChoiceMeans(t: seq<Msg>, chunks: seq<Chunk>, lower: Bytes -> Bytes, open: set<Bytes>, index: map<int, Bytes>,
                    c: Chunk, ids: seq<Bytes>, last: seq<Bytes>)
    requires Decoded(t, chunks, lower, open, index) && c.Choice?
    ensures var s := Scanned(c, open, index);
      Decoded(t + ChunkMsgs(c, s, ids, last, lower), chunks + [c], lower, if c.finish != "" then {} else Kept(c, open, index), s.index)
  {
    ScanMeans(AllCalls(chunks), c.calls, open, index);
    ScannedMeans(t, chunks, lower, open, index, c, Scanned(c, open, index), ids, last, if c.finish != "" then {} else Kept(c, open, index));
  }

  lemma ScannedMeans(t: seq<Msg>, chunks: seq<Chunk>, lower: Bytes -> Bytes, open: set<Bytes>, index: map<int, Bytes>,
                     c: Chunk, s: Scan, ids: seq<Bytes>, last: seq<Bytes>, left: set<Bytes>)
    requires Decoded(t, chunks, lower, open, index) && c.Choice? && ScanIs(s, AllCalls(chunks), c.calls, open)
    requires left == if c.finish != "" then {} else if c.calls == [] then s.open else s.open * s.seen
    ensures Decoded(t + ChunkMsgs(c, s, ids, last, lower), chunks + [c], lower, left, s.index)
  {
    AllCallsSnoc(chunks, c);
    TextsMean(t, chunks, c, s, ids, last, lower);
    ThoughtsMean(t, chunks, c, s, ids, last, lower);
    FinishesMean(t, chunks, c, s, ids, last, lower);
    FragmentsMean(t, chunks, c, s, ids, last, lower);
    NamesMean(t, chunks, c, s, ids, last, lower, open);
    OpenMeans(chunks, c, open, s, left);
  }

  lemma ChunkMeans(t: seq<Msg>, chunks: seq<Chunk>, lower: Bytes -> Bytes, open: set<Bytes>, index: map<int, Bytes>,
                   c: Chunk, msgs: seq<Msg>, ids: seq<Bytes>, last: seq<Bytes>, open': set<Bytes>, index': map<int, Bytes>)
    requires Decoded(t, chunks, lower, open, index)
    requires c.NoChoice? ==> msgs == [] && open' == open && index' == index
    requires c.Choice? ==>
      var s := Scanned(c, open, index);
      msgs == ChunkMsgs(c, s, ids, last, lower) && open' == (if c.finish != "" then {} else Kept(c, open, index)) && index' == s.index
    ensures Decoded(t + msgs, chunks + [c], lower, open', index')
  {
    if c.NoChoice? {
      assert t + msgs == t;
      NoChoiceMeans(t, chunks, lower, open, index);
    } else {
      ChoiceMeans(t, chunks, lower, open, index, c, ids, last);
    }
  }

  // -------------------------------------------------------------------------------- the parser

  class Parser {
    var openToolIDs: set<Bytes>
    var toolIndexToID: map<int, Bytes>
    const lower: Bytes -> Bytes
    /** Every message emitted so far. */
    ghost var trace: seq<Msg>

    ghost predicate Valid()
      reads this
    {
      Tracks(trace, openToolIDs) && (forall i :: i in toolIndexToID ==> toolIndexToID[i] != "")
    }

    constructor (lower: Bytes -> Bytes)
      ensures Valid() && trace == [] && openToolIDs == {} && toolIndexToID == map[]
    {
      openToolIDs, toolIndexToID, trace := {}, map[], [];
      this.lower := lower;
    }

    /** A message about no tool id. */
    method Add(msgs: seq<Msg>, m: Msg) returns (r: seq<Msg>)
      requires Valid() && (!m.ToolStart? && !m.ToolEnd? && (m.ToolDelta? ==> m.id == "" || m.id in openToolIDs))
      modifies `trace
      ensures Valid() && r == msgs + [m] && trace == old(trace) + [m]
    {
      TracksSnoc(trace, openToolIDs, m, openToolIDs);
      trace := trace + [m];
      r := msgs + [m];
    }

    method StartTool(msgs: seq<Msg>, id: Bytes, name: Bytes) returns (r: seq<Msg>)
      requires Valid() && id != "" && id !in openToolIDs
      modifies `trace, `openToolIDs
      ensures Valid() && r == msgs + [ToolStart(id, name)] && trace == old(trace) + [ToolStart(id, name)]
      ensures openToolIDs == old(openToolIDs) + {id}
    {
      TracksSnoc(trace, openToolIDs, ToolStart(id, name), openToolIDs + {id});
      openToolIDs := openToolIDs + {id};
      trace := trace + [ToolStart(id, name)];
      r := msgs + [ToolStart(id, name)];
    }

    /** One call of the chunk. */
    method ReadCall(c: CallDelta, msgs: seq<Msg>, seen: set<Bytes>) returns (r: seq<Msg>, seen2: set<Bytes>)
      requires Valid() && c.CallDelta?
      modifies this
      ensures Valid() && Scan(openToolIDs, toolIndexToID, seen2, r) == ScanCall(Scan(old(openToolIDs), old(toolIndexToID), seen, msgs), c)
      ensures exists es :: r == msgs + es && trace == old(trace) + es
    {
      r, seen2 := msgs, seen;
      ghost var start: seq<Msg>, delta: seq<Msg> := [], [];
      ghost var t := trace;
      var id := c.id;
      if id != "" {
        toolIndexToID := toolIndexToID[c.index := id];
      } else if c.index in toolIndexToID {
        id := toolIndexToID[c.index];
      }
      if id != "" {
        seen2 := seen2 + {id};
        if id !in openToolIDs {
          r := StartTool(r, id, c.name);
          start := [ToolStart(id, c.name)];
        } else {
          assert openToolIDs == openToolIDs + {id};
        }
      }
      assert r == msgs + start && trace == t + start;
      if c.args != "" {
        r := Add(r, ToolDelta(id, c.args));
        delta := [ToolDelta(id, c.args)];
      }
      assert r == (msgs + start) + delta && trace == (t + start) + delta;
      AppendTwo(msgs, start, delta);
      AppendTwo(t, start, delta);
    }

    method EndTool(msgs: seq<Msg>, id: Bytes) returns (r: seq<Msg>)
      requires Valid() && id in openToolIDs
      modifies `trace, `openToolIDs
      ensures Valid() && r == msgs + [ToolEnd(id)] && trace == old(trace) + [ToolEnd(id)] && openToolIDs == old(openToolIDs) - {id}
    {
      TracksSnoc(trace, openToolIDs, ToolEnd(id), openToolIDs - {id});
      openToolIDs := openToolIDs - {id};
      trace := trace + [ToolEnd(id)];
      r := msgs + [ToolEnd(id)];
    }

    /** The loop over a map that ends every id of `todo`, in whatever order the map is walked. */
    method EndAll(todo0: set<Bytes>) returns (r: seq<Msg>, ghost ids: seq<Bytes>)
      requires Valid() && todo0 <= openToolIDs
      modifies `trace, `openToolIDs
      ensures Valid() && Lists(ids, todo0) && r == Ends(ids) && trace == old(trace) + r
      ensures openToolIDs == old(openToolIDs) - todo0
    {
      var todo := todo0;
      ghost var done: set<Bytes> := {};
      r, ids := [], [];
      while todo != {}
        invariant Valid() && todo == todo0 - done && done <= todo0 && openToolIDs == old(openToolIDs) - done
        invariant Lists(ids, done) && r == Ends(ids) && trace == old(trace) + r
        decreases todo
      {
        var id: Bytes :| id in todo;
        EndsSnoc(ids, id);
        AppendAgain(old(trace), r, ToolEnd(id));
        ListsMore(ids, done, id, done + {id});
        r := EndTool(r, id);
        ids := ids + [id];
        done := done + {id};
        todo := todo - {id};
      }
      assert done == todo0;
    }

    /** The calls of a chunk, and the ends of the ids it does not mention. */
    method DecodeCalls(c: Chunk) returns (msgs: seq<Msg>, ghost ids: seq<Bytes>)
      requires Valid() && c.Choice?
      modifies this
      ensures Valid() && trace == old(trace) + msgs
      ensures var s := Scanned(c, old(openToolIDs), old(toolIndexToID));
        && toolIndexToID == s.index && openToolIDs == Kept(c, old(openToolIDs), old(toolIndexToID))
        && Lists(ids, s.open - openToolIDs) && msgs == s.msgs + Ends(ids)
    {
      var seen;
      msgs, seen := ReadCalls(c.calls);
      ids := [];
      if |c.calls| > 0 {
        ghost var t := old(trace);
        var ends;
        ghost var m := msgs;
        ends, ids := EndAll(openToolIDs - seen);
        assert t + (m + ends) == (t + m) + ends;
        msgs := msgs + ends;
      }
    }

    /** The finish of a chunk, which ends every id still open. */
    method DecodeFinish(c: Chunk) returns (msgs: seq<Msg>, ghost last: seq<Bytes>)
      requires Valid() && c.Choice?
      modifies `trace, `openToolIDs
      ensures Valid() && trace == old(trace) + msgs
      ensures openToolIDs == if c.finish != "" then {} else old(openToolIDs)
      ensures Lists(last, old(openToolIDs) - openToolIDs) && msgs == Ends(last) + FinishPart(c, lower)
    {
      msgs, last := [], [];
      if c.finish != "" {
        msgs, last := EndAll(openToolIDs);
        ghost var m := msgs;
        msgs := Add(msgs, Finishing(c, lower));
        assert old(trace) + msgs == (old(trace) + m) + FinishPart(c, lower);
      }
    }

    /** `decodeChunk`. The ends come in the order a map is walked, `ids` and `last`; all else is determined. */
    method DecodeChunk(c: Chunk) returns (msgs: seq<Msg>, ghost ids: seq<Bytes>, ghost last: seq<Bytes>)
      requires Valid()
      modifies this
      ensures Valid() && trace == old(trace) + msgs
      ensures c.NoChoice? ==> msgs == [] && openToolIDs == old(openToolIDs) && toolIndexToID == old(toolIndexToID)
      ensures c.Choice? ==>
        var s := Scanned(c, old(openToolIDs), old(toolIndexToID));
        var kept := Kept(c, old(openToolIDs), old(toolIndexToID));
        && toolIndexToID == s.index && openToolIDs == (if c.finish != "" then {} else kept)
        && Lists(ids, s.open - kept) && Lists(last, kept - openToolIDs)
        && msgs == TextMsgs(c) + ((s.msgs + Ends(ids)) + (Ends(last) + FinishPart(c, lower)))
    {
      msgs, ids, last := [], [], [];
      if c.Choice? {
        var text := TextPart(c);
        var calls, finish;
        calls, ids := DecodeCalls(c);
        finish, last := DecodeFinish(c);
        msgs := text + (calls + finish);
        Regroup(old(trace), text, calls, finish);
      }
    }

    /** A whole stream of chunks: every id's events are in order, and `openToolIDs` are the ids left open. What a new
        parser emits carries what the chunks say, each call's arguments under the id the call is for. */
    method DecodeAll(chunks: seq<Chunk>)
      requires Valid()
      modifies this
      ensures Valid() && old(trace) <= trace
      ensures forall id :: id != "" ==> InOrder(trace, id) && (id in openToolIDs <==> exists a :: Unended(trace, id, a, |trace|))
      ensures chunks != [] && chunks[|chunks| - 1].Choice? && chunks[|chunks| - 1].finish != "" ==> openToolIDs == {}
      ensures old(trace == [] && openToolIDs == {} && toolIndexToID == map[]) ==>
        Carries(trace, chunks, lower) && forall id :: id in openToolIDs <==> IsOpen(chunks, id)
    {
      ghost var wasNew := trace == [] && openToolIDs == {} && toolIndexToID == map[];
      NothingDecoded(lower);
      for i := 0 to |chunks|
        invariant Valid() && old(trace) <= trace
        invariant i > 0 && chunks[i - 1].Choice? && chunks[i - 1].finish != "" ==> openToolIDs == {}
        invariant wasNew ==> Decoded(trace, chunks[..i], lower, openToolIDs, toolIndexToID)
      {
        ghost var t, open, index := trace, openToolIDs, toolIndexToID;
        ghost var ids, last;
        var msgs;
        msgs, ids, last := DecodeChunk(chunks[i]);
        assert chunks[..i + 1] == chunks[..i] + [chunks[i]];
        if wasNew { ChunkMeans(t, chunks[..i], lower, open, index, chunks[i], msgs, ids, last, openToolIDs, toolIndexToID); }
      }
      assert chunks[..|chunks|] == chunks;
      forall id | id != ""
        ensures InOrder(trace, id) && (id in openToolIDs <==> exists a :: Unended(trace, id, a, |trace|))
      {
        UnbrokenIsInOrder(trace, id);
        OpenMeansUnended(trace, id);
      }
    }

    method TextPart(c: Chunk) returns (msgs: seq<Msg>)
      requires Valid() && c.Choice?
      modifies `trace
      ensures Valid() && msgs == TextMsgs(c) && trace == old(trace) + msgs
    {
      msgs := [];
      if c.content != "" {
        msgs := Add(msgs, TextStart);
        msgs := Add(msgs, TextDelta(c.content));
        msgs := Add(msgs, TextEnd);
      }
      if c.reasoning != "" { msgs := Add(msgs, Thinking(c.reasoning)); }
    }

    method ReadCalls(calls: seq<CallDelta>) returns (msgs: seq<Msg>, seen: set<Bytes>)
      requires Valid()
      modifies this
      ensures Valid() && Scan(openToolIDs, toolIndexToID, seen, msgs) == ScanCalls(Scan(old(openToolIDs), old(toolIndexToID), {}, []), calls)
      ensures trace == old(trace) + msgs
    {
      msgs, seen := [], {};
      var i := 0;
      while i < |calls|
        invariant 0 <= i <= |calls| && Valid()
        invariant Scan(openToolIDs, toolIndexToID, seen, msgs) == ScanCalls(Scan(old(openToolIDs), old(toolIndexToID), {}, []), calls[..i])
        invariant trace == old(trace) + msgs
      {
        assert calls[..i + 1][..i] == calls[..i];
        if calls[i].CallDelta? {
          ghost var before, t := msgs, trace;
          msgs, seen := ReadCall(calls[i], msgs, seen);
          ghost var es :| msgs == before + es && trace == t + es;
          assert (old(trace) + before) + es == old(trace) + (before + es);
        }
        i := i + 1;
      }
      assert calls[..|calls|] == calls;
    }
  }

  lemma AppendAgain<T>(a: seq<T>, b: seq<T>, x: T)
    ensures (a + b) + [x] == a + (b + [x])
  {
  }

  lemma Regroup<T>(t: seq<T>, a: seq<T>, b: seq<T>, c: seq<T>)
    ensures t + (a + (b + c)) == ((t + a) + b) + c
  {
  }

  lemma EndsSnoc(ids: seq<Bytes>, id: Bytes)
    ensures Ends(ids + [id]) == Ends(ids) + [ToolEnd(id)]
  {
    assert (ids + [id])[..|ids|] == ids;
  }

  /** A chunk that carries calls leaves open exactly the ids it mentions. */
  lemma {:induction false} KeptAreMentioned(c: Chunk, open: set<Bytes>, index: map<int, Bytes>)
    requires c.Choice? && c.calls != []
    ensures Kept(c, open, index) == Scanned(c, open, index).seen
  {
    SeenAreOpen(Scan(open, index, {}, []), c.calls);
  }

  lemma {:induction false} SeenAreOpen(s: Scan, calls: seq<CallDelta>)
    requires s.seen <= s.open
    ensures ScanCalls(s, calls).seen <= ScanCalls(s, calls).open
  {
    if calls != [] { SeenAreOpen(s, calls[..|calls| - 1]); }
  }

  lemma ListsMore(ids: seq<Bytes>, s: set<Bytes>, id: Bytes, s2: set<Bytes>)
    requires Lists(ids, s) && id !in s && s2 == s + {id}
    ensures Lists(ids + [id], s2)
  {
    forall i | i in s2 ensures i in ids + [id] {
      if i != id { assert i in ids; }
    }
  }
}
