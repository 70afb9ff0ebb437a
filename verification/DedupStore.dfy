/** The in-memory request dedup store: what it answers over any history, with and without its cleaner. */
module DedupStore {
  import opened Bytes
  import SM = ShardedMap

  datatype Record = Record(last: int, inFlight: nat)

  type Table = map<Bytes, Record>

  /** `Register`'s answer: whether the request is a duplicate, and whether the first one still runs. */
  datatype Answer = Answer(duplicate: bool, inFlight: bool)

  // ------------------------------------------------------------------------- one operation

  predicate Recent(window: int, m: Table, h: Bytes, now: int) { h in m && now - m[h].last <= window }

  function Registered(window: int, m: Table, h: Bytes, now: int): (Table, Answer) {
    if Recent(window, m, h, now) then (m, Answer(true, m[h].inFlight > 0))
    else (m[h := Record(now, (if h in m then m[h].inFlight else 0) + 1)], Answer(false, false))
  }

  function Finished(m: Table, h: Bytes, now: int): Table {
    if h !in m then m else m[h := Record(now, if m[h].inFlight > 0 then m[h].inFlight - 1 else 0)]
  }

  /** What the cleaner drops. */
  predicate Stale(cleanup: int, r: Record, now: int) { r.inFlight == 0 && now - r.last > cleanup }

  function Cleaned(cleanup: int, m: Table, now: int): Table { map h | h in m && !Stale(cleanup, m[h], now) :: m[h] }

  // ----------------------------------------------------------------------------- histories

  /** An accepted registration is a token, finished once: each key a request has registered is finished when the
      request ends (handler.go:689-693), or at once when its semantic key is a duplicate. */
  datatype Op = Reg(hash: Bytes, now: int) | Fin(token: nat, now: int) | Cln(now: int)

  /** The store with what is outstanding, and the accepted registrations so far. */
  datatype System = System(table: Table, live: map<nat, Bytes>, next: nat, clock: int, accepted: seq<(Bytes, int)>)

  const START := System(map[], map[], 0, 0, [])

  /** The clock does not go back, and a token is finished once. */
  predicate Enabled(s: System, op: Op) { op.now >= s.clock && (op.Fin? ==> op.token in s.live) }

  function AnswerTo(window: int, s: System, op: Op): Option<Answer> {
    if op.Reg? then Some(Registered(window, s.table, op.hash, op.now).1) else None
  }

  function Next(window: int, cleanup: int, cleaning: bool, s: System, op: Op): System {
    match op
    case Reg(h, now) =>
      var (m, a) := Registered(window, s.table, h, now);
      if a.duplicate then s.(table := m, clock := now)
      else System(m, s.live[s.next := h], s.next + 1, now, s.accepted + [(h, now)])
    case Fin(n, now) =>
      if n !in s.live then s else s.(table := Finished(s.table, s.live[n], now), live := s.live - {n}, clock := now)
    case Cln(now) => s.(table := if cleaning then Cleaned(cleanup, s.table, now) else s.table, clock := now)
  }

  predicate IsRun(window: int, cleanup: int, s: System, ops: seq<Op>)
    decreases |ops|
  {
    ops == [] || (Enabled(s, ops[0]) && IsRun(window, cleanup, Next(window, cleanup, true, s, ops[0]), ops[1..]))
  }

  function Reached(window: int, cleanup: int, cleaning: bool, s: System, ops: seq<Op>): System
    decreases |ops|
  {
    if ops == [] then s else Reached(window, cleanup, cleaning, Next(window, cleanup, cleaning, s, ops[0]), ops[1..])
  }

  function Answers(window: int, cleanup: int, cleaning: bool, s: System, ops: seq<Op>): seq<Option<Answer>>
    decreases |ops|
  {
    if ops == [] then []
    else [AnswerTo(window, s, ops[0])] + Answers(window, cleanup, cleaning, Next(window, cleanup, cleaning, s, ops[0]), ops[1..])
  }

  // ------------------------------------------------------------------ in flight and outstanding

  function Tokens(live: map<nat, Bytes>, h: Bytes): set<nat> { set n | n in live && live[n] == h }

  lemma TokensAdd(live: map<nat, Bytes>, n: nat, h: Bytes, g: Bytes)
    requires n !in live
    ensures |Tokens(live[n := h], g)| == |Tokens(live, g)| + if g == h then 1 else 0
  {
    assert Tokens(live[n := h], g) == if g == h then Tokens(live, g) + {n} else Tokens(live, g);
  }

  lemma TokensRemove(live: map<nat, Bytes>, n: nat, g: Bytes)
    requires n in live
    ensures |Tokens(live - {n}, g)| == |Tokens(live, g)| - if g == live[n] then 1 else 0
  {
    assert Tokens(live, g) == if g == live[n] then Tokens(live - {n}, g) + {n} else Tokens(live - {n}, g);
  }

  /** The number of requests running on a hash, as the table has it. */
  function InFlight(m: Table, h: Bytes): nat { if h in m then m[h].inFlight else 0 }

  /** In-flight counts are outstanding registrations. */
  ghost predicate Flight(s: System) {
    && (forall h :: InFlight(s.table, h) == |Tokens(s.live, h)|)
    && (forall h :: h in s.table ==> s.table[h].last <= s.clock)
    && (forall n :: n in s.live ==> n < s.next)
  }

  /** Accepted registrations are older than the window or recorded, and apart. */
  ghost predicate Apart(window: int, s: System) {
    && (forall i :: 0 <= i < |s.accepted| ==> Settled(window, s.table, s.clock, s.accepted[i]))
    && Spaced(window, s.accepted)
  }

  ghost predicate Inv(window: int, s: System) { Flight(s) && Apart(window, s) }

  /** An accepted registration is not newer than its record, or lies outside the window. */
  predicate Settled(window: int, m: Table, clock: int, a: (Bytes, int)) {
    a.1 <= clock && (if a.0 in m then a.1 <= m[a.0].last else clock - a.1 > window)
  }

  /** Two accepted registrations of one hash are more than the window apart. */
  predicate Spaced(window: int, accepted: seq<(Bytes, int)>) {
    forall i, j :: 0 <= i < j < |accepted| && accepted[i].0 == accepted[j].0 ==> accepted[j].1 - accepted[i].1 > window
  }

  lemma RegisterFlies(window: int, cleanup: int, s: System, h: Bytes, now: int)
    requires Flight(s) && now >= s.clock
    ensures Flight(Next(window, cleanup, true, s, Reg(h, now)))
  {
    var t := Next(window, cleanup, true, s, Reg(h, now));
    if !Recent(window, s.table, h, now) {
      forall g ensures InFlight(t.table, g) == |Tokens(t.live, g)| { TokensAdd(s.live, s.next, h, g); }
    }
  }

  lemma RegisterKeeps(window: int, cleanup: int, s: System, h: Bytes, now: int)
    requires Inv(window, s) && now >= s.clock
    ensures Inv(window, Next(window, cleanup, true, s, Reg(h, now)))
  {
    var t := Next(window, cleanup, true, s, Reg(h, now));
    RegisterFlies(window, cleanup, s, h, now);
    if !Recent(window, s.table, h, now) {
      forall i | 0 <= i < |t.accepted| ensures Settled(window, t.table, t.clock, t.accepted[i]) {
        if i < |s.accepted| { assert t.accepted[i] == s.accepted[i]; }
      }
      forall i, j | 0 <= i < j < |t.accepted| && t.accepted[i].0 == t.accepted[j].0 ensures t.accepted[j].1 - t.accepted[i].1 > window {
        assert t.accepted[i] == s.accepted[i];
        if j < |s.accepted| { assert t.accepted[j] == s.accepted[j]; }
      }
    }
  }

  lemma FinishKeeps(window: int, cleanup: int, s: System, n: nat, now: int)
    requires Flight(s) && now >= s.clock && n in s.live
    ensures Flight(Next(window, cleanup, true, s, Fin(n, now)))
    ensures Apart(window, s) ==> Apart(window, Next(window, cleanup, true, s, Fin(n, now)))
    ensures s.live[n] in s.table && s.table[s.live[n]].inFlight > 0
  {
    var t := Next(window, cleanup, true, s, Fin(n, now));
    assert n in Tokens(s.live, s.live[n]);
    forall g ensures InFlight(t.table, g) == |Tokens(t.live, g)| { TokensRemove(s.live, n, g); }
  }

  lemma CleanKeeps(window: int, cleanup: int, s: System, now: int)
    requires Flight(s) && now >= s.clock
    ensures Flight(Next(window, cleanup, true, s, Cln(now)))
    ensures cleanup >= window && Apart(window, s) ==> Apart(window, Next(window, cleanup, true, s, Cln(now)))
  {
  }

  lemma {:induction false} RunKeeps(window: int, cleanup: int, s: System, ops: seq<Op>)
    requires Flight(s) && IsRun(window, cleanup, s, ops)
    ensures Flight(Reached(window, cleanup, true, s, ops))
    ensures cleanup >= window && Apart(window, s) ==> Apart(window, Reached(window, cleanup, true, s, ops))
    decreases |ops|
  {
    if ops != [] {
      match ops[0] {
        case Reg(h, now) =>
          RegisterFlies(window, cleanup, s, h, now);
          if Apart(window, s) { RegisterKeeps(window, cleanup, s, h, now); }
        case Fin(n, now) => FinishKeeps(window, cleanup, s, n, now);
        case Cln(now) => CleanKeeps(window, cleanup, s, now);
      }
      RunKeeps(window, cleanup, Next(window, cleanup, true, s, ops[0]), ops[1..]);
    }
  }

  /** Over any history and whatever the cleaner's window, in-flight is the outstanding registrations. */
  lemma AnyHistory(window: int, cleanup: int, ops: seq<Op>)
    requires IsRun(window, cleanup, START, ops)
    ensures var s := Reached(window, cleanup, true, START, ops); forall h :: InFlight(s.table, h) == |Tokens(s.live, h)|
  {
    assert forall h :: Tokens(START.live, h) == {};
    RunKeeps(window, cleanup, START, ops);
  }

  // --------------------------------------------------------------------- the cleaner is unseen

  /** `s` cleans, `z` does not: what is missing from `s` is idle and out of the window. */
  ghost predicate Shadows(window: int, s: System, z: System) {
    && s == z.(table := s.table)
    && (forall h :: h in s.table ==> h in z.table && s.table[h] == z.table[h])
    && (forall h :: h in z.table && h !in s.table ==> z.table[h].inFlight == 0 && s.clock - z.table[h].last > window)
  }

  lemma StepShadows(window: int, cleanup: int, s: System, z: System, op: Op)
    requires Shadows(window, s, z) && Enabled(s, op) && cleanup >= window
    requires op.Fin? ==> s.live[op.token] in s.table
    ensures AnswerTo(window, s, op) == AnswerTo(window, z, op)
    ensures Shadows(window, Next(window, cleanup, true, s, op), Next(window, cleanup, false, z, op))
  {
  }

  lemma {:induction false} RunShadows(window: int, cleanup: int, s: System, z: System, ops: seq<Op>)
    requires Shadows(window, s, z) && Inv(window, s) && IsRun(window, cleanup, s, ops) && cleanup >= window
    ensures Answers(window, cleanup, true, s, ops) == Answers(window, cleanup, false, z, ops)
    decreases |ops|
  {
    if ops != [] {
      match ops[0] {
        case Reg(h, now) => RegisterKeeps(window, cleanup, s, h, now);
        case Fin(n, now) => FinishKeeps(window, cleanup, s, n, now);
        case Cln(now) => CleanKeeps(window, cleanup, s, now);
      }
      StepShadows(window, cleanup, s, z, ops[0]);
      RunShadows(window, cleanup, Next(window, cleanup, true, s, ops[0]), Next(window, cleanup, false, z, ops[0]), ops[1..]);
    }
  }

  /** No history can tell whether the cleaner runs. */
  ghost predicate CleanerUnseen(window: int, cleanup: int) {
    forall ops :: IsRun(window, cleanup, START, ops) ==>
      Answers(window, cleanup, true, START, ops) == Answers(window, cleanup, false, START, ops)
  }

  lemma Unroll(window: int, cleanup: int, cleaning: bool, s: System, op: Op, ops: seq<Op>)
    ensures IsRun(window, cleanup, s, [op] + ops) <==> Enabled(s, op) && IsRun(window, cleanup, Next(window, cleanup, true, s, op), ops)
    ensures Answers(window, cleanup, cleaning, s, [op] + ops)
      == [AnswerTo(window, s, op)] + Answers(window, cleanup, cleaning, Next(window, cleanup, cleaning, s, op), ops)
  {
    assert ([op] + ops)[1..] == ops;
  }

  /** A history that sees a cleaner with too short a window: a duplicate is let through. */
  function Witness(window: int): seq<Op> { [Reg("h", 0)] + ([Fin(0, 0)] + ([Cln(window)] + ([Reg("h", window)] + []))) }

  lemma WitnessAnswers(window: int, cleanup: int, cleaning: bool)
    requires 0 <= cleanup < window
    ensures IsRun(window, cleanup, START, Witness(window))
    ensures Answers(window, cleanup, cleaning, START, Witness(window)) ==
      [Some(Answer(false, false))] + ([None] + ([None] + ([Some(Answer(!cleaning, false))] + [])))
  {
    var a, b, c, d := Reg("h", 0), Fin(0, 0), Cln(window), Reg("h", window);
    var s1 := System(map["h" := Record(0, 1)], map[0 := "h"], 1, 0, [("h", 0)]);
    var s2 := System(map["h" := Record(0, 0)], map[], 1, 0, [("h", 0)]);
    var gone := System(map[], map[], 1, window, [("h", 0)]);
    var kept := System(map["h" := Record(0, 0)], map[], 1, window, [("h", 0)]);
    assert Next(window, cleanup, true, START, a) == s1 == Next(window, cleanup, false, START, a);
    assert Next(window, cleanup, true, s1, b) == s2 == Next(window, cleanup, false, s1, b);
    assert Next(window, cleanup, true, s2, c) == gone && Next(window, cleanup, false, s2, c) == kept;
    Unroll(window, cleanup, cleaning, START, a, [b] + ([c] + ([d] + [])));
    Unroll(window, cleanup, cleaning, s1, b, [c] + ([d] + []));
    Unroll(window, cleanup, cleaning, s2, c, [d] + []);
    Unroll(window, cleanup, cleaning, gone, d, []);
    Unroll(window, cleanup, cleaning, kept, d, []);
  }

  /** Two accepted registrations of one hash are more than the window apart in every history exactly when the cleaner
      waits at least the window. */
  lemma SpacedIff(window: int, cleanup: int)
    requires window >= 0 && cleanup >= 0
    ensures (forall ops :: IsRun(window, cleanup, START, ops) ==> Spaced(window, Reached(window, cleanup, true, START, ops).accepted))
      <==> cleanup >= window
  {
    if cleanup >= window {
      assert forall h :: Tokens(START.live, h) == {};
      forall ops | IsRun(window, cleanup, START, ops) ensures Spaced(window, Reached(window, cleanup, true, START, ops).accepted) {
        RunKeeps(window, cleanup, START, ops);
      }
    } else {
      WitnessAnswers(window, cleanup, true);
      WitnessAccepts(window, cleanup);
      assert IsRun(window, cleanup, START, Witness(window));
    }
  }

  lemma UnrollReached(window: int, cleanup: int, s: System, op: Op, ops: seq<Op>)
    ensures Reached(window, cleanup, true, s, [op] + ops) == Reached(window, cleanup, true, Next(window, cleanup, true, s, op), ops)
  {
    assert ([op] + ops)[1..] == ops;
  }

  lemma WitnessAccepts(window: int, cleanup: int)
    requires 0 <= cleanup < window
    ensures Reached(window, cleanup, true, START, Witness(window)).accepted == [("h", 0), ("h", window)]
    ensures !Spaced(window, Reached(window, cleanup, true, START, Witness(window)).accepted)
  {
    var a, b, c, d := Reg("h", 0), Fin(0, 0), Cln(window), Reg("h", window);
    var s1 := System(map["h" := Record(0, 1)], map[0 := "h"], 1, 0, [("h", 0)]);
    var s2 := System(map["h" := Record(0, 0)], map[], 1, 0, [("h", 0)]);
    var gone := System(map[], map[], 1, window, [("h", 0)]);
    assert Next(window, cleanup, true, START, a) == s1;
    assert Next(window, cleanup, true, s1, b) == s2;
    assert Next(window, cleanup, true, s2, c) == gone;
    UnrollReached(window, cleanup, START, a, [b] + ([c] + ([d] + [])));
    UnrollReached(window, cleanup, s1, b, [c] + ([d] + []));
    UnrollReached(window, cleanup, s2, c, [d] + []);
    UnrollReached(window, cleanup, gone, d, []);
    var accepted := [("h", 0), ("h", window)];
    assert accepted[0].0 == accepted[1].0 && accepted[1].1 - accepted[0].1 == window;
  }

  lemma ShortCleanupIsSeen(window: int, cleanup: int)
    requires 0 <= cleanup < window
    ensures IsRun(window, cleanup, START, Witness(window))
    ensures Answers(window, cleanup, true, START, Witness(window)) != Answers(window, cleanup, false, START, Witness(window))
  {
    WitnessAnswers(window, cleanup, true);
    WitnessAnswers(window, cleanup, false);
    assert Answers(window, cleanup, true, START, Witness(window))[3] == Some(Answer(false, false));
    assert Answers(window, cleanup, false, START, Witness(window))[3] == Some(Answer(true, false));
  }

  /** The cleaner changes no answer of any history exactly when it waits at least the window. */
  lemma CleanerUnseenIff(window: int, cleanup: int)
    requires window >= 0 && cleanup >= 0
    ensures CleanerUnseen(window, cleanup) <==> cleanup >= window
  {
    if cleanup >= window {
      assert forall h :: Tokens(START.live, h) == {};
      forall ops | IsRun(window, cleanup, START, ops)
        ensures Answers(window, cleanup, true, START, ops) == Answers(window, cleanup, false, START, ops)
      {
        RunShadows(window, cleanup, START, START, ops);
      }
    } else {
      ShortCleanupIsSeen(window, cleanup);
    }
  }

  // ---------------------------------------------------------------- the answers, by the history

  /** The times at which a history touched a hash: an accepted registration, or the finish of one. */
  function Touched(window: int, s: System, op: Op): seq<(Bytes, int)> {
    match op
    case Reg(h, now) => if AnswerTo(window, s, op) == Some(Answer(false, false)) then [(h, now)] else []
    case Fin(n, now) => if n in s.live then [(s.live[n], now)] else []
    case Cln(_) => []
  }

  function Touches(window: int, cleanup: int, s: System, ops: seq<Op>): seq<(Bytes, int)>
    decreases |ops|
  {
    if ops == [] then [] else Touched(window, s, ops[0]) + Touches(window, cleanup, Next(window, cleanup, true, s, ops[0]), ops[1..])
  }

  predicate TouchAt(touches: seq<(Bytes, int)>, i: int, window: int, h: Bytes, now: int) {
    0 <= i < |touches| && touches[i].0 == h && now - touches[i].1 <= window
  }

  /** The hash was touched within the window. */
  predicate Within(touches: seq<(Bytes, int)>, window: int, h: Bytes, now: int) {
    exists i :: 0 <= i < |touches| && TouchAt(touches, i, window, h, now)
  }

  /** The table recalls what was touched within the window of any time to come. */
  ghost predicate Recalls(window: int, touches: seq<(Bytes, int)>, s: System) {
    && (forall h, now: int :: now >= s.clock ==> (Recent(window, s.table, h, now) <==> Within(touches, window, h, now)))
    && (forall i :: 0 <= i < |touches| ==> touches[i].1 <= s.clock)
  }

  lemma WithinSnoc(touches: seq<(Bytes, int)>, x: (Bytes, int), window: int, h: Bytes, now: int)
    ensures Within(touches + [x], window, h, now) <==> Within(touches, window, h, now) || (x.0 == h && now - x.1 <= window)
  {
    var all := touches + [x];
    if Within(touches, window, h, now) {
      var i :| 0 <= i < |touches| && TouchAt(touches, i, window, h, now);
      assert TouchAt(all, i, window, h, now);
    }
    if x.0 == h && now - x.1 <= window { assert TouchAt(all, |touches|, window, h, now); }
    if Within(all, window, h, now) {
      var i :| 0 <= i < |all| && TouchAt(all, i, window, h, now);
      if i < |touches| { assert TouchAt(touches, i, window, h, now); }
    }
  }

  /** One hash touched now: within the window of now exactly as long as the window lasts. */
  lemma TouchRecalls(window: int, touches: seq<(Bytes, int)>, s: System, t: System, h: Bytes, r: Record)
    requires Recalls(window, touches, s) && t.clock == r.last >= s.clock && t.table == s.table[h := r]
    ensures Recalls(window, touches + [(h, r.last)], t)
  {
    forall g, now: int | now >= t.clock
      ensures Recent(window, t.table, g, now) <==> Within(touches + [(h, r.last)], window, g, now)
    {
      WithinSnoc(touches, (h, r.last), window, g, now);
      assert Recent(window, s.table, g, now) <==> Within(touches, window, g, now);
      if g == h && Within(touches, window, h, now) {
        var i :| 0 <= i < |touches| && TouchAt(touches, i, window, h, now);
      }
    }
  }

  lemma StepRecalls(window: int, cleanup: int, touches: seq<(Bytes, int)>, s: System, op: Op)
    requires Recalls(window, touches, s) && Flight(s) && Enabled(s, op) && cleanup >= window
    ensures Recalls(window, touches + Touched(window, s, op), Next(window, cleanup, true, s, op))
  {
    var t := Next(window, cleanup, true, s, op);
    assert touches + [] == touches;
    match op
    case Reg(h, now) => if !Recent(window, s.table, h, now) { TouchRecalls(window, touches, s, t, h, t.table[h]); }
    case Fin(n, now) =>
      FinishKeeps(window, cleanup, s, n, now);
      TouchRecalls(window, touches, s, t, s.live[n], t.table[s.live[n]]);
    case Cln(now) =>
      forall h, later: int | later >= now ensures Recent(window, t.table, h, later) <==> Recent(window, s.table, h, later) { }
  }

  lemma {:induction false} RunRecalls(window: int, cleanup: int, touches: seq<(Bytes, int)>, s: System, ops: seq<Op>)
    requires Recalls(window, touches, s) && Flight(s) && IsRun(window, cleanup, s, ops) && cleanup >= window
    ensures Recalls(window, touches + Touches(window, cleanup, s, ops), Reached(window, cleanup, true, s, ops))
    decreases |ops|
  {
    if ops == [] {
      assert touches + [] == touches;
    } else {
      var t := Next(window, cleanup, true, s, ops[0]);
      StepRecalls(window, cleanup, touches, s, ops[0]);
      RunKeeps(window, cleanup, s, [ops[0]]);
      OneStep(window, cleanup, s, ops[0]);
      RunRecalls(window, cleanup, touches + Touched(window, s, ops[0]), t, ops[1..]);
      assert (touches + Touched(window, s, ops[0])) + Touches(window, cleanup, t, ops[1..])
        == touches + (Touched(window, s, ops[0]) + Touches(window, cleanup, t, ops[1..]));
    }
  }

  lemma OneStep(window: int, cleanup: int, s: System, op: Op)
    ensures Reached(window, cleanup, true, s, [op]) == Next(window, cleanup, true, s, op)
  {
    assert [op][1..] == [];
  }

  /** A cleaner that waits the window leaves it to the history alone what a registration is answered: it is a duplicate
      if and only if the hash was registered, or finished, within the window before; and one that still runs if a
      registration of it is outstanding then. */
  lemma AnswersByHistory(window: int, cleanup: int, ops: seq<Op>, h: Bytes, now: int)
    requires IsRun(window, cleanup, START, ops) && cleanup >= window
    requires now >= Reached(window, cleanup, true, START, ops).clock
    ensures AnsweredByHistory(window, cleanup, ops, h, now)
  {
    var s := Reached(window, cleanup, true, START, ops);
    assert forall g :: Tokens(START.live, g) == {};
    assert Recalls(window, [], START);
    RunRecalls(window, cleanup, [], START, ops);
    RunKeeps(window, cleanup, START, ops);
    assert [] + Touches(window, cleanup, START, ops) == Touches(window, cleanup, START, ops);
    assert Recent(window, s.table, h, now) <==> Within(Touches(window, cleanup, START, ops), window, h, now);
    assert InFlight(s.table, h) == |Tokens(s.live, h)|;
  }

  /** The answer that the history gives. */
  ghost predicate AnsweredByHistory(window: int, cleanup: int, ops: seq<Op>, h: Bytes, now: int) {
    var s, dup := Reached(window, cleanup, true, START, ops), Within(Touches(window, cleanup, START, ops), window, h, now);
    now >= s.clock ==> AnswerTo(window, s, Reg(h, now)) == Some(Answer(dup, dup && Tokens(s.live, h) != {}))
  }

  /** With a hastier cleaner it does not: a hash is registered, finished and dropped within the window. */
  lemma DroppedTooSoon(window: int, cleanup: int)
    requires 0 <= cleanup < window
    ensures var ops := [Reg("h", 0)] + ([Fin(0, 0)] + ([Cln(window)] + []));
      IsRun(window, cleanup, START, ops) && !AnsweredByHistory(window, cleanup, ops, "h", window)
  {
    var a, b, c := Reg("h", 0), Fin(0, 0), Cln(window);
    var ops := [a] + ([b] + ([c] + []));
    var s1 := System(map["h" := Record(0, 1)], map[0 := "h"], 1, 0, [("h", 0)]);
    var s2 := System(map["h" := Record(0, 0)], map[], 1, 0, [("h", 0)]);
    var gone := System(map[], map[], 1, window, [("h", 0)]);
    assert Next(window, cleanup, true, START, a) == s1;
    assert Next(window, cleanup, true, s1, b) == s2;
    assert Next(window, cleanup, true, s2, c) == gone;
    Unroll(window, cleanup, true, START, a, [b] + ([c] + []));
    Unroll(window, cleanup, true, s1, b, [c] + []);
    Unroll(window, cleanup, true, s2, c, []);
    UnrollReached(window, cleanup, START, a, [b] + ([c] + []));
    UnrollReached(window, cleanup, s1, b, [c] + []);
    UnrollReached(window, cleanup, s2, c, []);
    FirstTouch(window, cleanup, a, [b] + ([c] + []));
    assert TouchAt(Touches(window, cleanup, START, ops), 0, window, "h", window);
  }

  lemma FirstTouch(window: int, cleanup: int, op: Op, ops: seq<Op>)
    requires op.Reg?
    ensures Touches(window, cleanup, START, [op] + ops) != [] && Touches(window, cleanup, START, [op] + ops)[0] == (op.hash, op.now)
  {
  }

  /** In every history a registration is answered by the history alone if and only if the cleaner waits the window. */
  lemma AnswersByHistoryIff(window: int, cleanup: int)
    requires window >= 0 && cleanup >= 0
    ensures (forall ops, h, now :: IsRun(window, cleanup, START, ops) ==> AnsweredByHistory(window, cleanup, ops, h, now))
      <==> cleanup >= window
  {
    if cleanup >= window {
      forall ops, h, now | IsRun(window, cleanup, START, ops) ensures AnsweredByHistory(window, cleanup, ops, h, now) {
        if now >= Reached(window, cleanup, true, START, ops).clock { AnswersByHistory(window, cleanup, ops, h, now); }
      }
    } else {
      DroppedTooSoon(window, cleanup);
    }
  }

  // ------------------------------------------------------------------- requests, as histories

  /** The registrations of `HandleMessages`: the exact key, then the semantic one; when that is a duplicate the exact
      key is finished at once. The keys that stay registered, and the answer that rejects the request. */
  function Admitted(window: int, m: Table, exact: Bytes, semantic: Option<Bytes>, t1: int, t2: int, t3: int): (Table, seq<Bytes>, Option<Answer>) {
    var (m1, a) := Registered(window, m, exact, t1);
    if a.duplicate then (m, [], Some(a))
    else if semantic.None? then (m1, [exact], None)
    else
      var (m2, b) := Registered(window, m1, semantic.value, t2);
      if b.duplicate then (Finished(m1, exact, t3), [], Some(b)) else (m2, [exact, semantic.value], None)
  }

  /** The same as operations of a history. */
  function AdmitOps(window: int, s: System, exact: Bytes, semantic: Option<Bytes>, t1: int, t2: int, t3: int): seq<Op> {
    var (m1, a) := Registered(window, s.table, exact, t1);
    var r := Reg(exact, t1);
    if a.duplicate || semantic.None? then [r] + []
    else if Registered(window, m1, semantic.value, t2).1.duplicate then [r] + ([Reg(semantic.value, t2)] + ([Fin(s.next, t3)] + []))
    else [r] + ([Reg(semantic.value, t2)] + [])
  }

  /** The keys of a request hold the tokens from `base` on. */
  predicate Holds(s: System, base: nat, keys: seq<Bytes>) {
    forall n: nat :: base <= n < base + |keys| ==> n in s.live && s.live[n] == keys[n - base]
  }

  /** From `s`, the operations lead to the table, with the keys as the tokens that came. */
  predicate Leads(window: int, cleanup: int, s: System, ops: seq<Op>, table: Table, keys: seq<Bytes>) {
    var t := Reached(window, cleanup, true, s, ops);
    IsRun(window, cleanup, s, ops) && t.table == table && Holds(t, s.next, keys) && |t.live| == |s.live| + |keys|
  }

  /** What a request registers is a stretch of a history: the tables agree, and the keys that stay are its tokens. */
  lemma AdmitIsHistory(window: int, cleanup: int, s: System, exact: Bytes, semantic: Option<Bytes>, t1: int, t2: int, t3: int)
    requires Flight(s) && s.clock <= t1 <= t2 <= t3
    ensures Leads(window, cleanup, s, AdmitOps(window, s, exact, semantic, t1, t2, t3),
                  Admitted(window, s.table, exact, semantic, t1, t2, t3).0, Admitted(window, s.table, exact, semantic, t1, t2, t3).1)
  {
    var s1 := Next(window, cleanup, true, s, Reg(exact, t1));
    if Registered(window, s.table, exact, t1).1.duplicate || semantic.None? {
      RegisteredOnce(window, cleanup, s, exact, t1);
    } else if Registered(window, s1.table, semantic.value, t2).1.duplicate {
      RegisteredTwice(window, cleanup, s, s1, exact, semantic.value, t1, t2, t3);
    } else {
      RegisteredBoth(window, cleanup, s, s1, exact, semantic.value, t1, t2);
    }
  }

  lemma RegisteredOnce(window: int, cleanup: int, s: System, exact: Bytes, t1: int)
    requires Flight(s) && s.clock <= t1
    ensures var (m, a) := Registered(window, s.table, exact, t1);
      Leads(window, cleanup, s, [Reg(exact, t1)] + [], m, if a.duplicate then [] else [exact])
  {
    Unroll(window, cleanup, true, s, Reg(exact, t1), []);
    UnrollReached(window, cleanup, s, Reg(exact, t1), []);
    assert s.next !in s.live;
  }

  /** The semantic key is a duplicate: the exact one is finished. */
  lemma RegisteredTwice(window: int, cleanup: int, s: System, s1: System, exact: Bytes, semantic: Bytes, t1: int, t2: int, t3: int)
    requires Flight(s) && s.clock <= t1 <= t2 <= t3 && !Registered(window, s.table, exact, t1).1.duplicate
    requires s1 == Next(window, cleanup, true, s, Reg(exact, t1)) && Registered(window, s1.table, semantic, t2).1.duplicate
    ensures Leads(window, cleanup, s, [Reg(exact, t1)] + ([Reg(semantic, t2)] + ([Fin(s.next, t3)] + [])), Finished(s1.table, exact, t3), [])
  {
    var s2 := Next(window, cleanup, true, s1, Reg(semantic, t2));
    assert s.next !in s.live && s2 == s1.(clock := t2);
    FinishedAtOnce(window, cleanup, s, s2, t3);
    RunsThree(window, cleanup, s, Reg(exact, t1), Reg(semantic, t2), Fin(s.next, t3));
  }

  /** Both keys are new. */
  lemma RegisteredBoth(window: int, cleanup: int, s: System, s1: System, exact: Bytes, semantic: Bytes, t1: int, t2: int)
    requires Flight(s) && s.clock <= t1 <= t2 && !Registered(window, s.table, exact, t1).1.duplicate
    requires s1 == Next(window, cleanup, true, s, Reg(exact, t1)) && !Registered(window, s1.table, semantic, t2).1.duplicate
    ensures Leads(window, cleanup, s, [Reg(exact, t1)] + ([Reg(semantic, t2)] + []), Registered(window, s1.table, semantic, t2).0, [exact, semantic])
  {
    NewKey(window, cleanup, s, exact, t1);
    NewKey(window, cleanup, s1, semantic, t2);
    RunsTwo(window, cleanup, s, Reg(exact, t1), Reg(semantic, t2));
    TwoTokens(s.live, s.next, exact, semantic, Next(window, cleanup, true, s1, Reg(semantic, t2)));
  }

  lemma NewKey(window: int, cleanup: int, s: System, h: Bytes, now: int)
    requires !Registered(window, s.table, h, now).1.duplicate
    ensures var t := Next(window, cleanup, true, s, Reg(h, now));
      && t.table == Registered(window, s.table, h, now).0 && t.clock == now
      && t.live == s.live[s.next := h] && t.next == s.next + 1
  {
  }

  lemma TwoTokens(live: map<nat, Bytes>, n: nat, a: Bytes, b: Bytes, t: System)
    requires n !in live && n + 1 !in live && t.live == live[n := a][n + 1 := b]
    ensures |t.live| == |live| + 2 && Holds(t, n, [a, b])
  {
  }

  lemma FinishedAtOnce(window: int, cleanup: int, s: System, t: System, now: int)
    requires s.next !in s.live && t.live.Keys == s.live.Keys + {s.next} && (forall n :: n in s.live ==> t.live[n] == s.live[n])
    ensures var u := Next(window, cleanup, true, t, Fin(s.next, now));
      u.live == s.live && u.table == Finished(t.table, t.live[s.next], now)
  {
  }

  lemma RunsTwo(window: int, cleanup: int, s: System, a: Op, b: Op)
    requires Enabled(s, a) && Enabled(Next(window, cleanup, true, s, a), b)
    ensures var ops := [a] + ([b] + []);
      && IsRun(window, cleanup, s, ops)
      && Reached(window, cleanup, true, s, ops) == Next(window, cleanup, true, Next(window, cleanup, true, s, a), b)
  {
    var s1 := Next(window, cleanup, true, s, a);
    Unroll(window, cleanup, true, s, a, [b] + []);
    Unroll(window, cleanup, true, s1, b, []);
    UnrollReached(window, cleanup, s, a, [b] + []);
    UnrollReached(window, cleanup, s1, b, []);
  }

  lemma RunsThree(window: int, cleanup: int, s: System, a: Op, b: Op, c: Op)
    requires Enabled(s, a) && Enabled(Next(window, cleanup, true, s, a), b)
    requires Enabled(Next(window, cleanup, true, Next(window, cleanup, true, s, a), b), c)
    ensures var ops := [a] + ([b] + ([c] + []));
      && IsRun(window, cleanup, s, ops)
      && Reached(window, cleanup, true, s, ops)
        == Next(window, cleanup, true, Next(window, cleanup, true, Next(window, cleanup, true, s, a), b), c)
  {
    var s1 := Next(window, cleanup, true, s, a);
    RunsTwo(window, cleanup, s1, b, c);
    Unroll(window, cleanup, true, s, a, [b] + ([c] + []));
    UnrollReached(window, cleanup, s, a, [b] + ([c] + []));
  }

  /** The deferred finishes of `n` keys, last registered first. */
  function LeaveOps(base: nat, n: nat, now: int): seq<Op> {
    if n == 0 then [] else [Fin(base + n - 1, now)] + LeaveOps(base, n - 1, now)
  }

  lemma LastLeaves(window: int, cleanup: int, s: System, base: nat, keys: seq<Bytes>, now: int)
    requires Holds(s, base, keys) && keys != [] && now >= s.clock
    ensures var k := |keys| - 1; var op := Fin(base + k, now); var t := Next(window, cleanup, true, s, op);
      && Enabled(s, op) && t.table == Finished(s.table, keys[k], now) && t.clock == now
      && |t.live| == |s.live| - 1 && Holds(t, base, keys[..k])
  {
    var k := |keys| - 1;
    var t := Next(window, cleanup, true, s, Fin(base + k, now));
    assert base + k in s.live && t.live == s.live - {base + k};
    assert s.live.Keys == t.live.Keys + {base + k};
  }

  /** What a request finishes when it ends is a stretch of a history too, and leaves it no token. */
  lemma {:induction false} LeaveIsHistory(window: int, cleanup: int, s: System, base: nat, keys: seq<Bytes>, now: int)
    requires Holds(s, base, keys) && now >= s.clock
    ensures var ops := LeaveOps(base, |keys|, now);
      && IsRun(window, cleanup, s, ops)
      && Reached(window, cleanup, true, s, ops).table == FinishAll(s.table, keys, now)
      && |Reached(window, cleanup, true, s, ops).live| == |s.live| - |keys|
    decreases |keys|
  {
    if keys != [] {
      var k := |keys| - 1;
      var op, rest := Fin(base + k, now), LeaveOps(base, k, now);
      var t := Next(window, cleanup, true, s, op);
      LastLeaves(window, cleanup, s, base, keys, now);
      LeaveIsHistory(window, cleanup, t, base, keys[..k], now);
      Unroll(window, cleanup, true, s, op, rest);
      UnrollReached(window, cleanup, s, op, rest);
    }
  }

  // ------------------------------------------------------------------------------- the class

  class MemoryDedupStore {
    const requests: SM.Sharded<Record>
    const window: int

    ghost predicate Valid()
      reads requests.shards
    {
      requests.Valid()
    }

    ghost function Abs(): Table
      reads requests.shards
    {
      requests.Abs()
    }

    constructor (window: int)
      ensures Valid() && Abs() == map[] && this.window == window && fresh(requests) && fresh(requests.shards)
    {
      requests := new SM.Sharded<Record>();
      this.window := window;
    }

    method Register(hash: Bytes, now: int) returns (duplicate: bool, hasInFlight: bool)
      requires Valid()
      modifies requests.shards
      ensures Valid() && (Abs(), Answer(duplicate, hasInFlight)) == Registered(window, old(Abs()), hash, now)
    {
      var was := requests.Compute(hash, (cur: Option<Record>) =>
        if cur.Some? && now - cur.value.last <= window then cur
        else if cur.Some? then Some(Record(now, cur.value.inFlight + 1))
        else Some(Record(now, 1)));
      duplicate := was.Some? && now - was.value.last <= window;
      hasInFlight := duplicate && was.value.inFlight > 0;
      if duplicate { assert old(Abs())[hash := old(Abs())[hash]] == old(Abs()); }
    }

    method Finish(hash: Bytes, now: int)
      requires Valid()
      modifies requests.shards
      ensures Valid() && Abs() == Finished(old(Abs()), hash, now)
    {
      var _ := requests.Compute(hash, (cur: Option<Record>) =>
        if cur.None? then None else Some(Record(now, if cur.value.inFlight > 0 then cur.value.inFlight - 1 else 0)));
    }

    /** What the cleaner does when it runs. */
    method CleanUp(cleanup: int, now: int)
      requires Valid()
      modifies requests.shards
      ensures Valid() && Abs() == Cleaned(cleanup, old(Abs()), now)
    {
      requests.RangeDelete((_, r: Record) => Stale(cleanup, r, now));
    }

    method Len() returns (n: nat)
      requires Valid()
      ensures n == |Abs()|
    {
      n := requests.Len();
    }

    /** The registrations of `HandleMessages`. */
    method Admit(exact: Bytes, semantic: Option<Bytes>, t1: int, t2: int, t3: int) returns (registered: seq<Bytes>, rejected: Option<Answer>)
      requires Valid()
      modifies requests.shards
      ensures Valid() && (Abs(), registered, rejected) == Admitted(window, old(Abs()), exact, semantic, t1, t2, t3)
    {
      var dup, busy := Register(exact, t1);
      if dup { return [], Some(Answer(dup, busy)); }
      registered := [exact];
      if semantic.Some? {
        dup, busy := Register(semantic.value, t2);
        if dup {
          Finish(exact, t3);
          return [], Some(Answer(dup, busy));
        }
        registered := registered + [semantic.value];
        assert registered == [exact, semantic.value];
      }
      rejected := None;
    }

    /** The deferred finishes, last registered first. */
    method Leave(registered: seq<Bytes>, now: int)
      requires Valid()
      modifies requests.shards
      ensures Valid() && Abs() == FinishAll(old(Abs()), registered, now)
    {
      var i := |registered|;
      assert registered[..i] == registered;
      while i > 0
        invariant 0 <= i <= |registered| && Valid()
        invariant FinishAll(Abs(), registered[..i], now) == FinishAll(old(Abs()), registered, now)
      {
        i := i - 1;
        assert registered[..i + 1][..i] == registered[..i];
        Finish(registered[i], now);
      }
    }
  }

  function FinishAll(m: Table, hs: seq<Bytes>, now: int): Table
    decreases |hs|
  {
    if hs == [] then m else FinishAll(Finished(m, hs[|hs| - 1], now), hs[..|hs| - 1], now)
  }
}
