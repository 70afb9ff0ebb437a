/** The token-bucket rate limiter, with tokens and seconds as reals. */
module RateLimiter {
  import opened Bytes

  datatype Entry = Entry(tokens: real, last: real)

  type Table = map<Bytes, Entry>

  /** What the limiter is made with, and the tokens that flow in per second. */
  datatype Limits = Limits(maxAttempts: int, window: real, rate: real)

  predicate Proper(l: Limits) { l.window > 0.0 && l.rate * l.window == Max(l) }

  function Max(l: Limits): real { l.maxAttempts as real }

  /** `NewRateLimiter`. */
  function New(maxAttempts: int, window: real): (l: Limits)
    requires window > 0.0
    ensures Proper(l) && l.maxAttempts == maxAttempts && l.window == window
  {
    Limits(maxAttempts, window, maxAttempts as real / window)
  }

  // -------------------------------------------------------------------------- one operation

  /** What flows in from one time to another. */
  function Flow(l: Limits, a: real, b: real): real { (b - a) * l.rate }

  /** The tokens of an entry once it is replenished. */
  function Refilled(l: Limits, e: Entry, now: real): real
    requires Proper(l)
  {
    var t := e.tokens + Flow(l, e.last, now);
    if t > Max(l) then Max(l) else t
  }

  /** `Allow`. */
  function Allowed(l: Limits, m: Table, ip: Bytes, now: real): (Table, bool)
    requires Proper(l)
  {
    if ip !in m then (m[ip := Entry((l.maxAttempts - 1) as real, now)], true)
    else
      var t := Refilled(l, m[ip], now);
      if t >= 1.0 then (m[ip := Entry(t - 1.0, now)], true) else (m[ip := Entry(t, now)], false)
  }

  predicate Expired(l: Limits, e: Entry, now: real) { now - e.last > l.window * 2.0 }

  /** `cleanup`. */
  function Swept(l: Limits, m: Table, now: real): Table { map ip | ip in m && !Expired(l, m[ip], now) :: m[ip] }

  // ------------------------------------------------------------------------------ histories

  datatype Op = Try(ip: Bytes, now: real) | Sweep(now: real)

  datatype System = System(table: Table, clock: real)

  const START := System(map[], 0.0)

  function Next(l: Limits, sweeping: bool, s: System, op: Op): System
    requires Proper(l)
  {
    match op
    case Try(ip, now) => System(Allowed(l, s.table, ip, now).0, now)
    case Sweep(now) => System(if sweeping then Swept(l, s.table, now) else s.table, now)
  }

  function AnswerTo(l: Limits, s: System, op: Op): bool
    requires Proper(l)
  {
    op.Try? && Allowed(l, s.table, op.ip, op.now).1
  }

  /** The clock does not go back. */
  predicate Ordered(clock: real, ops: seq<Op>)
    decreases |ops|
  {
    ops == [] || (ops[0].now >= clock && Ordered(ops[0].now, ops[1..]))
  }

  function Reached(l: Limits, sweeping: bool, s: System, ops: seq<Op>): System
    requires Proper(l)
    decreases |ops|
  {
    if ops == [] then s else Reached(l, sweeping, Next(l, sweeping, s, ops[0]), ops[1..])
  }

  function Answers(l: Limits, sweeping: bool, s: System, ops: seq<Op>): seq<bool>
    requires Proper(l)
    decreases |ops|
  {
    if ops == [] then [] else [AnswerTo(l, s, ops[0])] + Answers(l, sweeping, Next(l, sweeping, s, ops[0]), ops[1..])
  }

  /** How many attempts of `ip` are allowed. */
  function Granted(l: Limits, s: System, ops: seq<Op>, ip: Bytes): nat
    requires Proper(l)
    decreases |ops|
  {
    if ops == [] then 0
    else (if AnswerTo(l, s, ops[0]) && ops[0].ip == ip then 1 else 0) + Granted(l, Next(l, true, s, ops[0]), ops[1..], ip)
  }

  // ------------------------------------------------------------------------------ the bucket

  lemma RateTimes(l: Limits, dt: real)
    requires Proper(l) && l.maxAttempts >= 1
    ensures dt >= 0.0 ==> dt * l.rate >= 0.0
    ensures dt > l.window * 2.0 ==> dt * l.rate >= Max(l)
  {
    if l.rate <= 0.0 { MulSign(l.rate, l.window); }
    if dt >= 0.0 { MulPos(dt, l.rate); }
    if dt > l.window * 2.0 {
      MulPos(dt - l.window * 2.0, l.rate);
      assert (dt - l.window * 2.0) * l.rate == dt * l.rate - 2.0 * (l.rate * l.window);
    }
  }

  lemma MulSign(r: real, w: real)
    requires r <= 0.0 && w > 0.0
    ensures r * w <= 0.0
  {
  }

  lemma MulPos(a: real, b: real)
    requires a >= 0.0 && b >= 0.0
    ensures a * b >= 0.0
  {
  }

  /** A bucket holds between none and all of its tokens. */
  predicate Bounded(l: Limits, e: Entry) { 0.0 <= e.tokens <= Max(l) }

  lemma RefilledBounds(l: Limits, e: Entry, now: real)
    requires Proper(l) && l.maxAttempts >= 1 && Bounded(l, e) && now >= e.last
    ensures e.tokens <= Refilled(l, e, now) <= Max(l)
    ensures Expired(l, e, now) ==> Refilled(l, e, now) == Max(l)
  {
    RateTimes(l, now - e.last);
  }

  lemma RefilledNow(l: Limits, t: real, now: real)
    requires Proper(l) && t <= Max(l)
    ensures Refilled(l, Entry(t, now), now) == t
  {
    assert (now - now) * l.rate == 0.0;
  }

  /** Waiting longer adds at most what flows in. */
  lemma RefilledGrows(l: Limits, e: Entry, a: real, b: real)
    requires Proper(l) && l.maxAttempts >= 1 && Bounded(l, e) && e.last <= a <= b
    ensures Refilled(l, e, b) <= Refilled(l, e, a) + Flow(l, a, b)
  {
    RateTimes(l, b - a);
    RateTimes(l, a - e.last);
    FlowAdds(l, e.last, a, b);
  }

  lemma FlowAdds(l: Limits, a: real, b: real, c: real)
    ensures Flow(l, a, b) + Flow(l, b, c) == Flow(l, a, c) && Flow(l, a, a) == 0.0
  {
    assert c - a == (b - a) + (c - b);
    assert ((b - a) + (c - b)) * l.rate == (b - a) * l.rate + (c - b) * l.rate;
    assert a - a == 0.0;
  }

  ghost predicate Inv(l: Limits, s: System) {
    forall ip :: ip in s.table ==> Bounded(l, s.table[ip]) && s.table[ip].last <= s.clock
  }

  /** An attempt finds `t` tokens and leaves one less when there is one. */
  function Spent(t: real, now: real): Entry { Entry(if t >= 1.0 then t - 1.0 else t, now) }

  lemma AllowedSpends(l: Limits, m: Table, ip: Bytes, now: real)
    requires Proper(l) && l.maxAttempts >= 1
    ensures var t := if ip in m then Refilled(l, m[ip], now) else Max(l);
      Allowed(l, m, ip, now) == (m[ip := Spent(t, now)], t >= 1.0)
  {
  }

  lemma NextKeeps(l: Limits, s: System, op: Op)
    requires Proper(l) && l.maxAttempts >= 1 && Inv(l, s) && op.now >= s.clock
    ensures Inv(l, Next(l, true, s, op)) && Next(l, true, s, op).clock == op.now
  {
    if op.Try? {
      AllowedSpends(l, s.table, op.ip, op.now);
      if op.ip in s.table { RefilledBounds(l, s.table[op.ip], op.now); }
    }
  }

  lemma {:induction false} RunKeeps(l: Limits, s: System, ops: seq<Op>)
    requires Proper(l) && l.maxAttempts >= 1 && Inv(l, s) && Ordered(s.clock, ops)
    ensures Inv(l, Reached(l, true, s, ops))
    decreases |ops|
  {
    if ops != [] {
      NextKeeps(l, s, ops[0]);
      RunKeeps(l, Next(l, true, s, ops[0]), ops[1..]);
    }
  }

  /** Every bucket of every history stays between empty and full. */
  ghost predicate BucketsBounded(l: Limits)
    requires Proper(l)
  {
    forall ops :: Ordered(0.0, ops) ==> Inv(l, Reached(l, true, START, ops))
  }

  lemma BucketsBoundedIff(l: Limits)
    requires Proper(l)
    ensures BucketsBounded(l) <==> l.maxAttempts >= 1
  {
    if l.maxAttempts >= 1 {
      forall ops | Ordered(0.0, ops) ensures Inv(l, Reached(l, true, START, ops)) { RunKeeps(l, START, ops); }
    } else {
      var op := Try("", 0.0);
      UnrollReached(l, op, []);
      var t := Reached(l, true, START, [op] + []);
      assert t.table[""].tokens < 0.0;
      assert Ordered(0.0, [op] + []);
    }
  }

  lemma UnrollReached(l: Limits, op: Op, ops: seq<Op>)
    requires Proper(l)
    ensures Reached(l, true, START, [op] + ops) == Reached(l, true, Next(l, true, START, op), ops)
  {
    assert ([op] + ops)[1..] == ops;
  }

  // ------------------------------------------------------------------- attempts in an interval

  /** The tokens an attempt of `ip` would find. */
  function Level(l: Limits, s: System, ip: Bytes, now: real): real
    requires Proper(l)
  {
    if ip in s.table then Refilled(l, s.table[ip], now) else Max(l)
  }

  lemma LevelGrows(l: Limits, s: System, ip: Bytes, now: real)
    requires Proper(l) && l.maxAttempts >= 1 && Inv(l, s) && now >= s.clock
    ensures 0.0 <= Level(l, s, ip, now) <= Max(l)
    ensures Level(l, s, ip, now) <= Level(l, s, ip, s.clock) + Flow(l, s.clock, now)
  {
    if ip in s.table {
      RefilledBounds(l, s.table[ip], now);
      RefilledGrows(l, s.table[ip], s.clock, now);
    } else {
      RateTimes(l, now - s.clock);
    }
  }

  /** A granted attempt takes one token; nothing else takes any, and sweeping an expired bucket leaves it full. */
  lemma LevelSpent(l: Limits, s: System, op: Op, ip: Bytes)
    requires Proper(l) && l.maxAttempts >= 1 && Inv(l, s) && op.now >= s.clock
    ensures Level(l, Next(l, true, s, op), ip, op.now)
      == Level(l, s, ip, op.now) - if AnswerTo(l, s, op) && op.ip == ip then 1.0 else 0.0
  {
    match op
    case Try(jp, now) =>
      AllowedSpends(l, s.table, jp, now);
      if jp == ip {
        LevelGrows(l, s, ip, now);
        RefilledNow(l, Spent(Level(l, s, ip, now), now).tokens, now);
      }
    case Sweep(now) =>
      if ip in s.table { RefilledBounds(l, s.table[ip], now); }
  }

  lemma {:induction false} GrantedBound(l: Limits, s: System, ops: seq<Op>, ip: Bytes, t: System)
    requires Proper(l) && l.maxAttempts >= 1 && Inv(l, s) && Ordered(s.clock, ops) && t == Reached(l, true, s, ops)
    ensures t.clock >= s.clock && Inv(l, t)
    ensures Granted(l, s, ops, ip) as real + Level(l, t, ip, t.clock) <= Level(l, s, ip, s.clock) + Flow(l, s.clock, t.clock)
    decreases |ops|
  {
    if ops == [] {
      FlowAdds(l, s.clock, s.clock, s.clock);
    } else {
      var n := Next(l, true, s, ops[0]);
      NextKeeps(l, s, ops[0]);
      LevelGrows(l, s, ip, ops[0].now);
      LevelSpent(l, s, ops[0], ip);
      GrantedBound(l, n, ops[1..], ip, t);
      FlowAdds(l, s.clock, n.clock, t.clock);
    }
  }

  /** When the stretch begins: with its first operation. */
  function Begins(s: System, ops: seq<Op>): real { if ops == [] then s.clock else ops[0].now }

  /** Nothing depends on the clock before the first operation. */
  lemma FromFirst(l: Limits, s: System, ops: seq<Op>, ip: Bytes)
    requires Proper(l) && ops != []
    ensures var t := s.(clock := ops[0].now);
      Granted(l, t, ops, ip) == Granted(l, s, ops, ip) && Reached(l, true, t, ops) == Reached(l, true, s, ops)
  {
    var t := s.(clock := ops[0].now);
    assert Next(l, true, t, ops[0]) == Next(l, true, s, ops[0]) && AnswerTo(l, t, ops[0]) == AnswerTo(l, s, ops[0]);
  }

  /** What flows in, in the limiter's own numbers: maxAttempts for every window that passes. */
  lemma FlowIs(l: Limits, a: real, b: real)
    requires Proper(l)
    ensures Flow(l, a, b) * l.window == (b - a) * Max(l)
  {
    assert ((b - a) * l.rate) * l.window == (b - a) * (l.rate * l.window);
  }

  lemma TimesWindow(l: Limits, g: real, a: real, b: real)
    requires Proper(l) && g <= Max(l) + Flow(l, a, b)
    ensures Within(l, g, b - a)
  {
    FlowIs(l, a, b);
    var d := Max(l) + Flow(l, a, b) - g;
    MulPos(d, l.window);
    assert d * l.window == Max(l) * l.window + Flow(l, a, b) * l.window - g * l.window;
    assert Max(l) * (l.window + (b - a)) == Max(l) * l.window + (b - a) * Max(l);
  }

  /** At most maxAttempts + (maxAttempts / window) * length. */
  predicate Within(l: Limits, granted: real, length: real) {
    granted * l.window <= l.maxAttempts as real * (l.window + length)
  }

  /** No more are granted to the address. */
  predicate WithinBound(l: Limits, s: System, ops: seq<Op>, ip: Bytes)
    requires Proper(l)
  {
    Within(l, Granted(l, s, ops, ip) as real, Reached(l, true, s, ops).clock - Begins(s, ops))
  }

  /** In any stretch of any history, from its first to its last operation, one address is granted at most
      maxAttempts + (maxAttempts / window) * length attempts. */
  lemma IntervalBound(l: Limits, before: seq<Op>, ops: seq<Op>, ip: Bytes)
    requires Proper(l) && l.maxAttempts >= 1 && Ordered(0.0, before)
    requires Ordered(Reached(l, true, START, before).clock, ops)
    ensures WithinBound(l, Reached(l, true, START, before), ops, ip)
  {
    var s := Reached(l, true, START, before);
    RunKeeps(l, START, before);
    GrantedFrom(l, s, ops, ip);
    TimesWindow(l, Granted(l, s, ops, ip) as real, Begins(s, ops), Reached(l, true, s, ops).clock);
  }

  /** What a stretch grants was in the bucket, at most full, or flowed in since its first operation. */
  lemma GrantedFrom(l: Limits, s: System, ops: seq<Op>, ip: Bytes)
    requires Proper(l) && l.maxAttempts >= 1 && Inv(l, s) && Ordered(s.clock, ops)
    ensures Granted(l, s, ops, ip) as real <= Max(l) + Flow(l, Begins(s, ops), Reached(l, true, s, ops).clock)
  {
    var t := Reached(l, true, s, ops);
    if ops == [] {
      FlowAdds(l, s.clock, s.clock, s.clock);
    } else {
      var r := s.(clock := ops[0].now);
      FromFirst(l, s, ops, ip);
      GrantedBound(l, r, ops, ip, t);
      LevelGrows(l, r, ip, r.clock);
      LevelGrows(l, t, ip, t.clock);
    }
  }

  /** The bound holds of every stretch. */
  ghost predicate Limited(l: Limits)
    requires Proper(l)
  {
    forall before, ops, ip ::
      Ordered(0.0, before) && Ordered(Reached(l, true, START, before).clock, ops) ==>
        WithinBound(l, Reached(l, true, START, before), ops, ip)
  }

  /** It does exactly when at least one attempt is allowed: with none allowed the first attempt is granted all the same. */
  lemma LimitedIff(l: Limits)
    requires Proper(l)
    ensures Limited(l) <==> l.maxAttempts >= 1
  {
    if l.maxAttempts >= 1 {
      forall before, ops, ip | Ordered(0.0, before) && Ordered(Reached(l, true, START, before).clock, ops)
        ensures WithinBound(l, Reached(l, true, START, before), ops, ip)
      {
        IntervalBound(l, before, ops, ip);
      }
    } else {
      var op := Try("", 0.0);
      var ops := [op] + [];
      UnrollReached(l, op, []);
      assert ops[1..] == [];
      assert Ordered(0.0, ops) && Ordered(0.0, []);
      assert Reached(l, true, START, []) == START;
      assert Granted(l, START, ops, "") == 1 + Granted(l, Next(l, true, START, op), [], "");
      MulSign(Max(l), l.window);
      assert !WithinBound(l, START, ops, "");
    }
  }

  // ------------------------------------------------------------------ who waits is let through

  /** The last operation of the address, if any, is at least window / maxAttempts old. */
  predicate Waited(l: Limits, before: seq<Op>, ip: Bytes, now: real) {
    forall k :: 0 <= k < |before| && before[k].Try? && before[k].ip == ip ==> (now - before[k].now) * Max(l) >= l.window
  }

  predicate VisitAt(before: seq<Op>, ip: Bytes, k: int) { 0 <= k < |before| && before[k].Try? && before[k].ip == ip }

  /** A bucket was last touched by an operation of its address. */
  lemma {:induction false} LastIsVisit(l: Limits, s: System, ops: seq<Op>, ip: Bytes)
    requires Proper(l)
    ensures var t := Reached(l, true, s, ops);
      ip in t.table ==> (ip in s.table && t.table[ip].last == s.table[ip].last) || exists k :: VisitAt(ops, ip, k) && ops[k].now == t.table[ip].last
    decreases |ops|
  {
    if ops != [] {
      var n, rest := Next(l, true, s, ops[0]), ops[1..];
      var t := Reached(l, true, s, ops);
      LastIsVisit(l, n, rest, ip);
      if ip in t.table {
        if k :| VisitAt(rest, ip, k) && rest[k].now == t.table[ip].last {
          assert VisitAt(ops, ip, k + 1) && ops[k + 1].now == t.table[ip].last;
        } else if ops[0].Try? && ops[0].ip == ip {
          assert VisitAt(ops, ip, 0) && n.table[ip].last == ops[0].now;
        }
      }
    }
  }

  /** One token flows in while an address waits for window / maxAttempts. */
  lemma WaitedHasToken(l: Limits, e: Entry, now: real)
    requires Proper(l) && l.maxAttempts >= 1 && Bounded(l, e) && (now - e.last) * Max(l) >= l.window
    ensures Refilled(l, e, now) >= 1.0
  {
    FlowsOne(l, e.last, now);
  }

  lemma FlowsOne(l: Limits, a: real, b: real)
    requires Proper(l) && (b - a) * Max(l) >= l.window
    ensures Flow(l, a, b) >= 1.0
  {
    FlowIs(l, a, b);
    if Flow(l, a, b) < 1.0 { MulLess(Flow(l, a, b), l.window); }
  }

  lemma MulLess(f: real, w: real)
    requires f < 1.0 && w > 0.0
    ensures f * w < w
  {
    assert (1.0 - f) * w > 0.0;
  }

  /** In every history, an attempt made at least window / maxAttempts after the last operation of its address is
      granted. */
  lemma WaitingPays(l: Limits, before: seq<Op>, ip: Bytes, now: real)
    requires Proper(l) && l.maxAttempts >= 1 && Ordered(0.0, before) && now >= Reached(l, true, START, before).clock
    requires Waited(l, before, ip, now)
    ensures AnswerTo(l, Reached(l, true, START, before), Try(ip, now))
  {
    var s := Reached(l, true, START, before);
    RunKeeps(l, START, before);
    LastIsVisit(l, START, before, ip);
    AllowedSpends(l, s.table, ip, now);
    if ip in s.table {
      var k :| VisitAt(before, ip, k) && before[k].now == s.table[ip].last;
      WaitedHasToken(l, s.table[ip], now);
    }
  }

  // --------------------------------------------------------------------- sweeping is not seen

  /** `s` sweeps, `z` does not: the buckets missing from `s` are full. */
  ghost predicate Shadows(l: Limits, s: System, z: System)
    requires Proper(l)
  {
    && s.clock == z.clock
    && (forall ip :: ip in s.table ==> ip in z.table && s.table[ip] == z.table[ip])
    && (forall ip :: ip in z.table && ip !in s.table ==> Expired(l, z.table[ip], s.clock))
  }

  lemma StepShadows(l: Limits, s: System, z: System, op: Op)
    requires Proper(l) && l.maxAttempts >= 1 && Shadows(l, s, z) && Inv(l, z) && op.now >= s.clock
    ensures AnswerTo(l, s, op) == AnswerTo(l, z, op)
    ensures Shadows(l, Next(l, true, s, op), Next(l, false, z, op)) && Inv(l, Next(l, false, z, op))
  {
    if op.Try? {
      AllowedSpends(l, s.table, op.ip, op.now);
      AllowedSpends(l, z.table, op.ip, op.now);
      if op.ip in z.table { RefilledBounds(l, z.table[op.ip], op.now); }
    }
  }

  lemma {:induction false} RunShadows(l: Limits, s: System, z: System, ops: seq<Op>)
    requires Proper(l) && l.maxAttempts >= 1 && Shadows(l, s, z) && Inv(l, z) && Ordered(s.clock, ops)
    ensures Answers(l, true, s, ops) == Answers(l, false, z, ops)
    decreases |ops|
  {
    if ops != [] {
      StepShadows(l, s, z, ops[0]);
      RunShadows(l, Next(l, true, s, ops[0]), Next(l, false, z, ops[0]), ops[1..]);
    }
  }

  /** No history can tell whether expired entries are swept. */
  ghost predicate SweepUnseen(l: Limits)
    requires Proper(l)
  {
    forall ops :: Ordered(0.0, ops) ==> Answers(l, true, START, ops) == Answers(l, false, START, ops)
  }

  lemma Unroll(l: Limits, sweeping: bool, s: System, op: Op, ops: seq<Op>)
    requires Proper(l)
    ensures Answers(l, sweeping, s, [op] + ops) == [AnswerTo(l, s, op)] + Answers(l, sweeping, Next(l, sweeping, s, op), ops)
  {
    assert ([op] + ops)[1..] == ops;
  }

  /** With no attempts allowed the first one is let through, and again after every sweep. */
  function Witness(l: Limits): seq<Op> {
    [Try("", 0.0)] + ([Sweep(l.window * 3.0)] + ([Try("", l.window * 3.0)] + []))
  }

  lemma WitnessAnswers(l: Limits, sweeping: bool)
    requires Proper(l) && l.maxAttempts <= 0
    ensures Answers(l, sweeping, START, Witness(l)) == [true] + ([false] + ([sweeping] + []))
    ensures Ordered(0.0, Witness(l))
  {
    var a, b, c := Try("", 0.0), Sweep(l.window * 3.0), Try("", l.window * 3.0);
    var s1 := Next(l, sweeping, START, a);
    var s2 := Next(l, sweeping, s1, b);
    Unroll(l, sweeping, START, a, [b] + ([c] + []));
    Unroll(l, sweeping, s1, b, [c] + []);
    Unroll(l, sweeping, s2, c, []);
    var e := Entry((l.maxAttempts - 1) as real, 0.0);
    assert s1.table == map["" := e];
    assert Expired(l, e, b.now);
    if !sweeping {
      var x := l.window * 3.0 * l.rate;
      assert x == 3.0 * (l.rate * l.window) == 3.0 * Max(l);
      assert Refilled(l, e, c.now) < 1.0;
      assert s2.table == s1.table;
    } else {
      assert s2.table == map[];
    }
    var l3, l2 := [c] + [], [b] + ([c] + []);
    assert l3[1..] == [] && l2[1..] == l3 && Witness(l)[1..] == l2;
    assert Ordered(b.now, l3) && Ordered(0.0, l2);
  }

  /** Sweeping changes no answer of any history exactly when at least one attempt is allowed. */
  lemma SweepUnseenIff(l: Limits)
    requires Proper(l)
    ensures SweepUnseen(l) <==> l.maxAttempts >= 1
  {
    if l.maxAttempts >= 1 {
      forall ops | Ordered(0.0, ops) ensures Answers(l, true, START, ops) == Answers(l, false, START, ops) {
        RunShadows(l, START, START, ops);
      }
    } else {
      WitnessAnswers(l, true);
      WitnessAnswers(l, false);
      assert Answers(l, true, START, Witness(l))[2] && !Answers(l, false, START, Witness(l))[2];
    }
  }

  // --------------------------------------------------------------- a sweep in its two steps

  /** `cleanup` looks at an entry, with the time the sweep began, and deletes it later without looking again. */
  predicate Looked(l: Limits, s: System, ip: Bytes, began: real) {
    ip in s.table && began <= s.clock && Expired(l, s.table[ip], began)
  }

  function At(s: System, now: real): System { s.(clock := now) }

  function Without(s: System, ip: Bytes): System { s.(table := s.table - {ip}) }

  predicate Visits(ops: seq<Op>, ip: Bytes) { exists k :: 0 <= k < |ops| && ops[k].Try? && ops[k].ip == ip }

  /** No later attempt of anybody can tell whether the entry was deleted. */
  ghost predicate Unseen(l: Limits, s: System, ip: Bytes)
    requires Proper(l)
  {
    forall ops :: Ordered(s.clock, ops) ==> Answers(l, true, Without(s, ip), ops) == Answers(l, true, s, ops)
  }

  predicate Full(l: Limits, s: System, ip: Bytes)
    requires Proper(l)
  {
    Level(l, s, ip, s.clock) == Max(l)
  }

  lemma FullStays(l: Limits, s: System, ip: Bytes, now: real)
    requires Proper(l) && l.maxAttempts >= 1 && Inv(l, s) && Full(l, s, ip) && now >= s.clock
    ensures Level(l, s, ip, now) == Max(l)
  {
    if ip in s.table {
      RateTimes(l, now - s.clock);
      FlowAdds(l, s.table[ip].last, s.clock, now);
    }
  }

  lemma ExpiredIsFull(l: Limits, s: System, ip: Bytes, began: real)
    requires Proper(l) && l.maxAttempts >= 1 && Inv(l, s) && Looked(l, s, ip, began)
    ensures Full(l, s, ip)
  {
    RefilledBounds(l, s.table[ip], s.clock);
  }

  /** Two systems in which everybody finds the same tokens at any time. */
  ghost predicate Alike(l: Limits, s: System, z: System)
    requires Proper(l)
  {
    s.clock == z.clock && forall ip, now :: now >= s.clock ==> Level(l, s, ip, now) == Level(l, z, ip, now)
  }

  /** What an operation leaves of the tokens of `ip` at a later time. */
  function LevelAfter(l: Limits, s: System, op: Op, ip: Bytes, now: real): real
    requires Proper(l)
  {
    if op.Try? && op.ip == ip then Refilled(l, Spent(Level(l, s, ip, op.now), op.now), now) else Level(l, s, ip, now)
  }

  lemma NextLevel(l: Limits, s: System, op: Op, ip: Bytes, now: real)
    requires Proper(l) && l.maxAttempts >= 1 && Inv(l, s) && s.clock <= op.now <= now
    ensures Level(l, Next(l, true, s, op), ip, now) == LevelAfter(l, s, op, ip, now)
  {
    match op
    case Try(jp, at) => AllowedSpends(l, s.table, jp, at);
    case Sweep(at) =>
      if ip in s.table && Expired(l, s.table[ip], at) { RefilledBounds(l, s.table[ip], now); }
  }

  lemma StepAlike(l: Limits, s: System, z: System, op: Op)
    requires Proper(l) && l.maxAttempts >= 1 && Inv(l, s) && Inv(l, z) && Alike(l, s, z) && op.now >= s.clock
    ensures AnswerTo(l, s, op) == AnswerTo(l, z, op) && Alike(l, Next(l, true, s, op), Next(l, true, z, op))
  {
    if op.Try? {
      AllowedSpends(l, s.table, op.ip, op.now);
      AllowedSpends(l, z.table, op.ip, op.now);
      assert Level(l, s, op.ip, op.now) == Level(l, z, op.ip, op.now);
    }
    NextKeeps(l, s, op);
    NextKeeps(l, z, op);
    forall ip, now | now >= op.now ensures Level(l, Next(l, true, s, op), ip, now) == Level(l, Next(l, true, z, op), ip, now) {
      NextLevel(l, s, op, ip, now);
      NextLevel(l, z, op, ip, now);
    }
  }

  lemma {:induction false} RunAlike(l: Limits, s: System, z: System, ops: seq<Op>)
    requires Proper(l) && l.maxAttempts >= 1 && Inv(l, s) && Inv(l, z) && Alike(l, s, z) && Ordered(s.clock, ops)
    ensures Answers(l, true, s, ops) == Answers(l, true, z, ops)
    decreases |ops|
  {
    if ops != [] {
      StepAlike(l, s, z, ops[0]);
      NextKeeps(l, s, ops[0]);
      NextKeeps(l, z, ops[0]);
      RunAlike(l, Next(l, true, s, ops[0]), Next(l, true, z, ops[0]), ops[1..]);
    }
  }

  /** `n` attempts at one instant. */
  function Tries(ip: Bytes, now: real, n: nat): seq<Op> { if n == 0 then [] else [Try(ip, now)] + Tries(ip, now, n - 1) }

  function AllYes(n: nat): seq<bool> { if n == 0 then [] else [true] + AllYes(n - 1) }

  lemma {:induction false} TriesOrdered(ip: Bytes, now: real, n: nat)
    ensures Ordered(now, Tries(ip, now, n))
  {
    if n > 0 {
      TriesOrdered(ip, now, n - 1);
      assert Tries(ip, now, n)[1..] == Tries(ip, now, n - 1);
    }
  }

  /** All of them are granted exactly when there is a token for each. */
  lemma {:induction false} TriesAnswers(l: Limits, s: System, ip: Bytes, n: nat)
    requires Proper(l) && l.maxAttempts >= 1 && Inv(l, s)
    ensures Answers(l, true, s, Tries(ip, s.clock, n)) == AllYes(n) <==> Level(l, s, ip, s.clock) >= n as real
    ensures Level(l, s, ip, s.clock) >= n as real ==> Granted(l, s, Tries(ip, s.clock, n), ip) == n
    decreases n
  {
    LevelGrows(l, s, ip, s.clock);
    if n > 0 {
      var op, rest := Try(ip, s.clock), Tries(ip, s.clock, n - 1);
      var t := Next(l, true, s, op);
      AllowedSpends(l, s.table, ip, s.clock);
      LevelSpent(l, s, op, ip);
      NextKeeps(l, s, op);
      TriesAnswers(l, t, ip, n - 1);
      assert ([op] + rest)[1..] == rest;
      var x, y := Answers(l, true, t, rest), AllYes(n - 1);
      assert Answers(l, true, s, [op] + rest) == [AnswerTo(l, s, op)] + x;
      assert ([AnswerTo(l, s, op)] + x)[1..] == x && ([true] + y)[1..] == y;
      assert ([AnswerTo(l, s, op)] + x)[0] == AnswerTo(l, s, op) && ([true] + y)[0];
    }
  }

  /** Deleting an entry changes no later answer exactly when its bucket is full. */
  lemma DeleteUnseenIff(l: Limits, s: System, ip: Bytes)
    requires Proper(l) && l.maxAttempts >= 1 && Inv(l, s)
    ensures Unseen(l, s, ip) <==> Full(l, s, ip)
  {
    var z := Without(s, ip);
    if Full(l, s, ip) {
      forall jp, now | now >= s.clock ensures Level(l, z, jp, now) == Level(l, s, jp, now) {
        if jp == ip { FullStays(l, s, ip, now); }
      }
      forall ops | Ordered(s.clock, ops) ensures Answers(l, true, z, ops) == Answers(l, true, s, ops) { RunAlike(l, z, s, ops); }
    } else {
      LevelGrows(l, s, ip, s.clock);
      TriesOrdered(ip, s.clock, l.maxAttempts);
      TriesAnswers(l, s, ip, l.maxAttempts);
      TriesAnswers(l, z, ip, l.maxAttempts);
    }
  }

  lemma VisitsCons(ops: seq<Op>, ip: Bytes)
    requires ops != []
    ensures Visits(ops, ip) <==> (ops[0].Try? && ops[0].ip == ip) || Visits(ops[1..], ip)
  {
    if Visits(ops[1..], ip) {
      var k :| 0 <= k < |ops| - 1 && ops[1..][k].Try? && ops[1..][k].ip == ip;
      assert ops[k + 1].Try?;
    }
    if Visits(ops, ip) {
      var k :| 0 <= k < |ops| && ops[k].Try? && ops[k].ip == ip;
      if k > 0 { assert ops[1..][k - 1].Try?; }
    }
  }

  /** A full bucket stays full until it is visited, and grants the first visit. */
  lemma {:induction false} FullUntilVisited(l: Limits, s: System, ops: seq<Op>, ip: Bytes)
    requires Proper(l) && l.maxAttempts >= 1 && Inv(l, s) && Ordered(s.clock, ops) && Full(l, s, ip)
    ensures !Visits(ops, ip) ==> Full(l, Reached(l, true, s, ops), ip)
    ensures Visits(ops, ip) ==> Granted(l, s, ops, ip) >= 1
    decreases |ops|
  {
    if ops != [] {
      VisitsCons(ops, ip);
      FullStays(l, s, ip, ops[0].now);
      if !(ops[0].Try? && ops[0].ip == ip) {
        NextKeeps(l, s, ops[0]);
        NextLevel(l, s, ops[0], ip, ops[0].now);
        FullUntilVisited(l, Next(l, true, s, ops[0]), ops[1..], ip);
      } else {
        AllowedSpends(l, s.table, ip, ops[0].now);
      }
    }
  }

  lemma LaterKeeps(l: Limits, s: System, now: real)
    requires Inv(l, s) && now >= s.clock
    ensures Inv(l, At(s, now))
  {
  }

  /** Between its look and its delete the sweep of one entry is overtaken by `mid`. It changes no later answer of
      anybody exactly when the bucket is full again when it is deleted: always when the address did not visit in
      between, and never when it did and less than one token has flowed in since the look. */
  lemma SplitSweepUnseenIff(l: Limits, before: seq<Op>, ip: Bytes, began: real, mid: seq<Op>, now: real)
    requires Proper(l) && l.maxAttempts >= 1 && Ordered(0.0, before)
    requires Looked(l, Reached(l, true, START, before), ip, began) && Ordered(Reached(l, true, START, before).clock, mid)
    requires now >= Reached(l, true, Reached(l, true, START, before), mid).clock
    ensures var s := Reached(l, true, START, before); var t := At(Reached(l, true, s, mid), now);
      && (Unseen(l, t, ip) <==> Full(l, t, ip))
      && (!Visits(mid, ip) ==> Unseen(l, t, ip))
      && (Flow(l, s.clock, now) < 1.0 ==> (Unseen(l, t, ip) <==> !Visits(mid, ip)))
  {
    var s := Reached(l, true, START, before);
    var r := Reached(l, true, s, mid);
    RunKeeps(l, START, before);
    RunKeeps(l, s, mid);
    LaterKeeps(l, r, now);
    DeleteUnseenIff(l, At(r, now), ip);
    ExpiredIsFull(l, s, ip, began);
    FullUntilVisited(l, s, mid, ip);
    if Full(l, r, ip) { FullStays(l, r, ip, now); }
    SoonNotFull(l, s, mid, ip, now);
  }

  lemma SoonNotFull(l: Limits, s: System, mid: seq<Op>, ip: Bytes, now: real)
    requires Proper(l) && l.maxAttempts >= 1 && Inv(l, s) && Ordered(s.clock, mid) && now >= Reached(l, true, s, mid).clock
    requires Visits(mid, ip) ==> Granted(l, s, mid, ip) >= 1
    ensures Visits(mid, ip) && Flow(l, s.clock, now) < 1.0 ==> !Full(l, At(Reached(l, true, s, mid), now), ip)
  {
    var r := Reached(l, true, s, mid);
    GrantedBound(l, s, mid, ip, r);
    LevelGrows(l, s, ip, s.clock);
    LevelGrows(l, r, ip, now);
    FlowAdds(l, s.clock, r.clock, now);
  }

  lemma {:induction false} TriesClock(l: Limits, s: System, ip: Bytes, n: nat)
    requires Proper(l)
    ensures Reached(l, true, s, Tries(ip, s.clock, n)).clock == s.clock
    decreases n
  {
    if n > 0 {
      assert ([Try(ip, s.clock)] + Tries(ip, s.clock, n - 1))[1..] == Tries(ip, s.clock, n - 1);
      TriesClock(l, Next(l, true, s, Try(ip, s.clock)), ip, n - 1);
    }
  }

  /** A history in which the bound is broken: an address is seen to have expired, visits until it is refused, is
      deleted, and visits as often again at the same instant. */
  lemma RacyDelete(l: Limits, ip: Bytes, other: Bytes)
    requires Proper(l) && l.maxAttempts >= 1 && ip != other
    ensures var before, n := [Try(ip, 0.0)] + ([Try(other, l.window * 3.0)] + []), l.maxAttempts;
      var s := Reached(l, true, START, before);
      var burst := Tries(ip, s.clock, n);
      var t := Reached(l, true, s, burst);
      && Ordered(0.0, before) && Ordered(s.clock, burst) && s.clock == t.clock == l.window * 3.0
      && Looked(l, s, ip, s.clock)
      && Granted(l, s, burst, ip) + Granted(l, Without(t, ip), burst, ip) == 2 * n
      && (2 * n) as real > Max(l) + Flow(l, s.clock, t.clock)
  {
    var a, b := Try(ip, 0.0), Try(other, l.window * 3.0);
    var before := [a] + ([b] + []);
    var s1 := Next(l, true, START, a);
    UnrollReached(l, a, [b] + []);
    var s := Next(l, true, s1, b);
    assert ([b] + [])[1..] == [];
    assert Reached(l, true, s1, [b] + []) == Reached(l, true, s, []);
    assert before[1..] == [b] + [] && Ordered(b.now, ([b] + [])[1..]);
    assert Ordered(a.now, [b] + []) && Ordered(0.0, before);
    RunKeeps(l, START, before);
    ExpiredIsFull(l, s, ip, s.clock);
    TriesOrdered(ip, s.clock, l.maxAttempts);
    TriesAnswers(l, s, ip, l.maxAttempts);
    RunKeeps(l, s, Tries(ip, s.clock, l.maxAttempts));
    var t := Reached(l, true, s, Tries(ip, s.clock, l.maxAttempts));
    TriesClock(l, s, ip, l.maxAttempts);
    TriesAnswers(l, Without(t, ip), ip, l.maxAttempts);
    FlowAdds(l, s.clock, s.clock, s.clock);
  }

  // ------------------------------------------------------------------------------- the class

  class Limiter {
    const limits: Limits
    var entries: Table

    constructor (maxAttempts: int, window: real)
      requires window > 0.0
      ensures limits == New(maxAttempts, window) && entries == map[]
    {
      limits, entries := New(maxAttempts, window), map[];
    }

    method Allow(ip: Bytes, now: real) returns (ok: bool)
      requires Proper(limits)
      modifies this
      ensures (entries, ok) == Allowed(limits, old(entries), ip, now)
    {
      if ip in entries {
        ok := ProcessExisting(ip, now);
      } else {
        entries := entries[ip := Entry((limits.maxAttempts - 1) as real, now)];
        ok := true;
      }
    }

    method Replenish(e: Entry, now: real) returns (tokens: real)
      requires Proper(limits)
      ensures tokens == Refilled(limits, e, now)
    {
      tokens := e.tokens + Flow(limits, e.last, now);
      if tokens > limits.maxAttempts as real { tokens := limits.maxAttempts as real; }
    }

    method ProcessExisting(ip: Bytes, now: real) returns (ok: bool)
      requires Proper(limits) && ip in entries
      modifies this
      ensures (entries, ok) == Allowed(limits, old(entries), ip, now)
    {
      var tokens := Replenish(entries[ip], now);
      ok := tokens >= 1.0;
      if ok { tokens := tokens - 1.0; }
      entries := entries[ip := Entry(tokens, now)];
    }

    /** The entries are walked in any order. */
    method Cleanup(now: real)
      modifies this
      ensures entries == Swept(limits, old(entries), now)
    {
      var ttl := limits.window * 2.0;
      var keys := entries.Keys;
      while keys != {}
        invariant keys <= old(entries).Keys
        invariant forall ip :: ip in entries <==> ip in old(entries) && (ip in keys || !Expired(limits, old(entries)[ip], now))
        invariant forall ip :: ip in entries ==> entries[ip] == old(entries)[ip]
        decreases keys
      {
        var ip :| ip in keys;
        if now - entries[ip].last > ttl { entries := entries - {ip}; }
        keys := keys - {ip};
      }
    }
  }
}
