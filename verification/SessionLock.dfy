/** Session creation by many processes over one Redis: the cache, the TTL lock, and what each process does step
    by step. */
module SessionLock {
  import opened Bytes

  // ----------------------------------------------------------------------------------- keys

  /** A token hash and a model. */
  datatype Key = Key(hash: Bytes, model: Bytes)

  function SessionKey(prefix: Bytes, k: Key): Bytes { prefix + (":session:" + (k.hash + (":" + k.model))) }

  function LockKey(prefix: Bytes, k: Key): Bytes { prefix + (":session_lock:" + (k.hash + (":" + k.model))) }

  lemma SplitAt(a: Bytes, b: Bytes, c: Bytes, d: Bytes)
    requires |a| == |c| && a + b == c + d
    ensures a == c && b == d
  {
    assert (a + b)[..|a|] == a && (c + d)[..|c|] == c;
    assert (a + b)[|a|..] == b && (c + d)[|c|..] == d;
  }

  lemma KindsDiffer(x: Bytes, y: Bytes)
    ensures ":session:" + x != ":session_lock:" + y
  {
    assert (":session:" + x)[8] == ':';
    assert (":session_lock:" + y)[8] == '_';
  }

  /** Hashes have one length, so distinct pairs have distinct cache keys and distinct lock keys, and no lock key is a
      cache key. */
  lemma KeysAreDistinct(prefix: Bytes, j: Key, k: Key)
    requires |j.hash| == |k.hash|
    ensures SessionKey(prefix, j) == SessionKey(prefix, k) <==> j == k
    ensures LockKey(prefix, j) == LockKey(prefix, k) <==> j == k
    ensures SessionKey(prefix, j) != LockKey(prefix, k)
  {
    var x, y := j.hash + (":" + j.model), k.hash + (":" + k.model);
    if SessionKey(prefix, j) == SessionKey(prefix, k) {
      Unprefix(prefix, ":session:" + x, ":session:" + y);
      Unprefix(":session:", x, y);
      SplitAt(j.hash, ":" + j.model, k.hash, ":" + k.model);
      Unprefix(":", j.model, k.model);
    }
    if LockKey(prefix, j) == LockKey(prefix, k) {
      Unprefix(prefix, ":session_lock:" + x, ":session_lock:" + y);
      Unprefix(":session_lock:", x, y);
      SplitAt(j.hash, ":" + j.model, k.hash, ":" + k.model);
      Unprefix(":", j.model, k.model);
    }
    if SessionKey(prefix, j) == LockKey(prefix, k) {
      Unprefix(prefix, ":session:" + x, ":session_lock:" + y);
      KindsDiffer(x, y);
    }
  }

  // ------------------------------------------------------------------------------- the state

  datatype Session = Session(instanceID: Bytes, model: Bytes, remainingMs: int)

  datatype Config = Config(lockTTL: nat, pollTimeout: nat, freshMs: int)

  const DAY := 86_400_000

  /** `IsFresh`. */
  predicate Fresh(c: Config, s: Session) { s.remainingMs == 0 || s.remainingMs > c.freshMs }

  /** `sessionFromData`: no session without an instance id; the model is the one asked for. */
  function FromData(instanceID: Bytes, model: Bytes, remainingMs: int): Option<Session> {
    if instanceID == "" then None else Some(Session(instanceID, model, remainingMs))
  }

  datatype Outcome = Reuse(session: Session) | Create(created: Option<Session>) | Failed

  datatype Pc =
    | Loading
    | Evicting
    | Locking
    | Polling(deadline: int)
    | Waking(deadline: int)
    | Creating(again: bool)
    | Clearing
    | Saving(session: Option<Session>)
    | Releasing(outcome: Outcome)
    | Done(outcome: Outcome)

  datatype Process = Process(key: Key, pc: Pc, acquired: int)

  /** A stored value with its expiry; the lock's owner is not stored, only remembered here. */
  datatype Cached = Cached(session: Session, expires: int)
  datatype Lock = Lock(owner: int, expires: int)

  datatype State = State(now: int, cache: map<Key, Cached>, locks: map<Key, Lock>, processes: map<int, Process>)

  const START := State(0, map[], map[], map[])

  /** What upstream answers to a create. */
  datatype Reply = Active(instanceID: Bytes, remainingMs: int) | ModelLocked | Refused

  /** A step of process `p`; `ok` is whether Redis answered. */
  datatype Step =
    | Tick(delta: nat)
    | Begin(p: int, key: Key)
    | Load(p: int, ok: bool)
    | EvictMismatch(p: int)
    | TryLock(p: int, ok: bool)
    | Sleep(p: int)
    | Poll(p: int, ok: bool)
    | Cancel(p: int)
    | CreateReply(p: int, reply: Reply)
    | Clear(p: int)
    | Save(p: int, ok: bool)
    | Release(p: int, ok: bool)
    | EvictSession(key: Key)

  function Lookup(s: State, k: Key): Option<Session> {
    if k in s.cache && s.now < s.cache[k].expires then Some(s.cache[k].session) else None
  }

  predicate LockFree(s: State, k: Key) { k !in s.locks || s.now >= s.locks[k].expires }

  predicate Hit(c: Config, s: State, k: Key) {
    var x := Lookup(s, k);
    x.Some? && Fresh(c, x.value) && x.value.model == k.model
  }

  /** The critical section: from the lock to its release. */
  predicate Critical(pc: Pc) { pc.Creating? || pc.Clearing? || pc.Saving? || pc.Releasing? }

  predicate PcMatches(pc: Pc, step: Step) {
    match step
    case Load(_, _) => pc.Loading?
    case EvictMismatch(_) => pc.Evicting?
    case TryLock(_, _) => pc.Locking?
    case Sleep(_) => pc.Polling?
    case Poll(_, _) => pc.Waking?
    case Cancel(_) => pc.Waking?
    case CreateReply(_, _) => pc.Creating?
    case Clear(_) => pc.Clearing?
    case Save(_, _) => pc.Saving?
    case Release(_, _) => pc.Releasing?
    case _ => false
  }

  predicate Enabled(s: State, step: Step) {
    match step
    case Tick(_) => true
    case EvictSession(_) => true
    case Begin(p, _) => p !in s.processes
    case _ => step.p in s.processes && PcMatches(s.processes[step.p].pc, step)
  }

  function Put(s: State, p: int, q: Process): State { s.(processes := s.processes[p := q]) }

  /** The first load: a fresh entry of the model is reused, a fresh one of another model evicted. */
  function AfterLoad(c: Config, s: State, q: Process, ok: bool): Process {
    var x := Lookup(s, q.key);
    if ok && x.Some? && Fresh(c, x.value) then
      q.(pc := if x.value.model == q.key.model then Done(Reuse(x.value)) else Evicting)
    else q.(pc := Locking)
  }

  /** SET NX with an expiry. */
  function AfterTryLock(c: Config, s: State, p: int, q: Process, ok: bool): State {
    if !ok then Put(s, p, q.(pc := Done(Failed)))
    else if LockFree(s, q.key) then
      Put(s, p, q.(pc := Creating(false), acquired := s.now)).(locks := s.locks[q.key := Lock(p, s.now + c.lockTTL)])
    else Put(s, p, q.(pc := Polling(s.now + c.pollTimeout)))
  }

  /** The polling loop looks at the deadline before it sleeps, and at the cache after. */
  function AfterSleep(s: State, q: Process): Process
    requires q.pc.Polling?
  {
    q.(pc := if s.now >= q.pc.deadline then Done(Failed) else Waking(q.pc.deadline))
  }

  function AfterPoll(c: Config, s: State, q: Process, ok: bool): Process
    requires q.pc.Waking?
  {
    q.(pc := if ok && Hit(c, s, q.key) then Done(Reuse(Lookup(s, q.key).value)) else Polling(q.pc.deadline))
  }

  /** A create, tried a second time after the session that locks the model is deleted. */
  function AfterReply(q: Process, reply: Reply): Process
    requires q.pc.Creating?
  {
    match reply
    case Active(i, ms) => q.(pc := Saving(FromData(i, q.key.model, ms)))
    case ModelLocked => if q.pc.again then q.(pc := Releasing(Failed)) else q.(pc := Clearing)
    case Refused => q.(pc := Releasing(Failed))
  }

  /** `saveSession`: no session removes the entry. */
  function Saved(s: State, k: Key, x: Option<Session>): State {
    match x
    case None => s.(cache := s.cache - {k})
    case Some(v) => s.(cache := s.cache[k := Cached(v, s.now + if v.remainingMs > 0 then v.remainingMs else DAY)])
  }

  function Next(c: Config, s: State, step: Step): State
    requires Enabled(s, step)
  {
    match step
    case Tick(d) => s.(now := s.now + d)
    case EvictSession(k) => s.(cache := s.cache - {k})
    case Begin(p, k) => Put(s, p, Process(k, Loading, 0))
    case Load(p, ok) => Put(s, p, AfterLoad(c, s, s.processes[p], ok))
    case EvictMismatch(p) => Put(s, p, s.processes[p].(pc := Locking)).(cache := s.cache - {s.processes[p].key})
    case TryLock(p, ok) => AfterTryLock(c, s, p, s.processes[p], ok)
    case Sleep(p) => Put(s, p, AfterSleep(s, s.processes[p]))
    case Poll(p, ok) => Put(s, p, AfterPoll(c, s, s.processes[p], ok))
    case Cancel(p) => Put(s, p, s.processes[p].(pc := Done(Failed)))
    case CreateReply(p, reply) => Put(s, p, AfterReply(s.processes[p], reply))
    case Clear(p) => Put(s, p, s.processes[p].(pc := Creating(true))).(cache := s.cache - {s.processes[p].key})
    case Save(p, ok) =>
      var q := s.processes[p];
      Put(if ok then Saved(s, q.key, q.pc.session) else s, p, q.(pc := Releasing(Create(q.pc.session))))
    case Release(p, ok) =>
      var q := s.processes[p];
      Put(if ok then s.(locks := s.locks - {q.key}) else s, p, q.(pc := Done(q.pc.outcome)))
  }

  // ----------------------------------------------------------------------- what is in the cache

  /** An outcome for the model: a reused session is fresh and of the model, a created one is of the model. */
  predicate OutcomeSound(c: Config, k: Key, o: Outcome) {
    match o
    case Reuse(x) => x.model == k.model && Fresh(c, x)
    case Create(x) => x.Some? ==> x.value.model == k.model
    case Failed => true
  }

  predicate ProcessSound(c: Config, q: Process) {
    match q.pc
    case Evicting => false
    case Saving(x) => x.Some? ==> x.value.model == q.key.model
    case Releasing(o) => OutcomeSound(c, q.key, o)
    case Done(o) => OutcomeSound(c, q.key, o)
    case _ => true
  }

  /** Every cached session is of the model in its key; no process has found another model. */
  ghost predicate CacheInv(c: Config, s: State) {
    && (forall k :: k in s.cache ==> s.cache[k].session.model == k.model)
    && (forall p :: p in s.processes ==> ProcessSound(c, s.processes[p]))
  }

  lemma CacheKept(c: Config, s: State, step: Step)
    requires CacheInv(c, s) && Enabled(s, step)
    ensures CacheInv(c, Next(c, s, step))
  {
  }

  // ------------------------------------------------------------------------- mutual exclusion

  /** No process has been in its critical section for longer than `bound`. */
  ghost predicate Held(bound: nat, s: State) {
    forall p :: p in s.processes && Critical(s.processes[p].pc) ==> s.now - s.processes[p].acquired <= bound
  }

  /** Whoever is in the critical section owns the lock of its key. */
  ghost predicate LockInv(c: Config, s: State) {
    forall p :: p in s.processes && Critical(s.processes[p].pc) ==>
      var q := s.processes[p]; q.key in s.locks && s.locks[q.key] == Lock(p, q.acquired + c.lockTTL)
  }

  /** A step of one process that does not enter the critical section, the locks left alone. */
  lemma LocalLockKept(c: Config, s: State, t: State, p: int, q: Process)
    requires LockInv(c, s) && p in s.processes && t.locks == s.locks && t.processes == s.processes[p := q]
    requires q.key == s.processes[p].key && q.acquired == s.processes[p].acquired && (Critical(q.pc) ==> Critical(s.processes[p].pc))
    ensures LockInv(c, t)
  {
  }

  lemma TryLockKept(c: Config, bound: nat, s: State, p: int, ok: bool)
    requires LockInv(c, s) && bound < c.lockTTL && Held(bound, s) && p in s.processes && s.processes[p].pc.Locking?
    ensures LockInv(c, AfterTryLock(c, s, p, s.processes[p], ok))
  {
  }

  lemma ReleaseKept(c: Config, s: State, p: int, ok: bool)
    requires LockInv(c, s) && Enabled(s, Release(p, ok))
    ensures LockInv(c, Next(c, s, Release(p, ok)))
  {
  }

  lemma LockKept(c: Config, bound: nat, s: State, step: Step)
    requires LockInv(c, s) && bound < c.lockTTL && Held(bound, s) && Enabled(s, step)
    ensures LockInv(c, Next(c, s, step))
  {
    match step
    case Tick(_) =>
    case EvictSession(_) =>
    case Begin(_, _) =>
    case TryLock(p, ok) => TryLockKept(c, bound, s, p, ok);
    case Release(p, ok) => ReleaseKept(c, s, p, ok);
    case _ => LocalLockKept(c, s, Next(c, s, step), step.p, Next(c, s, step).processes[step.p]);
  }

  /** A release removes the process's own lock. */
  predicate RemovesOwn(s: State, step: Step)
    requires Enabled(s, step)
  {
    step.Release? ==> s.processes[step.p].key in s.locks && s.locks[s.processes[step.p].key].owner == step.p
  }

  predicate Releases(s: State, step: Step, k: Key)
    requires Enabled(s, step)
  {
    step.Release? && s.processes[step.p].key == k
  }

  predicate InCritical(s: State, p: int, k: Key) {
    p in s.processes && Critical(s.processes[p].pc) && s.processes[p].key == k
  }

  /** At most one process is creating for the key. */
  ghost predicate Exclusive(k: Key, s: State) { forall p, q :: InCritical(s, p, k) && InCritical(s, q, k) ==> p == q }

  // -------------------------------------------------------------------------------- the runs

  predicate IsRun(c: Config, s: State, steps: seq<Step>)
    decreases |steps|
  {
    steps == [] || (Enabled(s, steps[0]) && IsRun(c, Next(c, s, steps[0]), steps[1..]))
  }

  function Reached(c: Config, s: State, steps: seq<Step>): State
    requires IsRun(c, s, steps)
    decreases |steps|
  {
    if steps == [] then s else Reached(c, Next(c, s, steps[0]), steps[1..])
  }

  /** No process holds its critical section for longer than `bound`, all along the run. */
  ghost predicate HeldAtMost(c: Config, bound: nat, s: State, steps: seq<Step>)
    requires IsRun(c, s, steps)
    decreases |steps|
  {
    Held(bound, s) && (steps != [] ==> HeldAtMost(c, bound, Next(c, s, steps[0]), steps[1..]))
  }

  /** At most one process is creating for the key, all along the run. */
  ghost predicate ExclusiveRun(c: Config, k: Key, s: State, steps: seq<Step>)
    requires IsRun(c, s, steps)
    decreases |steps|
  {
    Exclusive(k, s) && (steps != [] ==> ExclusiveRun(c, k, Next(c, s, steps[0]), steps[1..]))
  }

  /** Every release of the run by a process of the key removes its own lock. */
  ghost predicate OwnRun(c: Config, k: Key, s: State, steps: seq<Step>)
    requires IsRun(c, s, steps)
    decreases |steps|
  {
    steps != [] ==> (Releases(s, steps[0], k) ==> RemovesOwn(s, steps[0])) && OwnRun(c, k, Next(c, s, steps[0]), steps[1..])
  }

  lemma {:induction false} TimelyIsSafe(c: Config, bound: nat, k: Key, s: State, steps: seq<Step>)
    requires bound < c.lockTTL && LockInv(c, s) && IsRun(c, s, steps) && HeldAtMost(c, bound, s, steps)
    ensures ExclusiveRun(c, k, s, steps) && OwnRun(c, k, s, steps)
    decreases |steps|
  {
    if steps != [] {
      LockKept(c, bound, s, steps[0]);
      TimelyIsSafe(c, bound, k, Next(c, s, steps[0]), steps[1..]);
    }
  }

  predicate FromStart(c: Config, steps: seq<Step>) { IsRun(c, START, steps) }

  /** For every token and model, a bound on how long the critical section is held makes creation exclusive in every run
      if and only if it is shorter than the lock's lifetime. */
  lemma MutualExclusion(c: Config, bound: nat, k: Key)
    ensures (forall steps :: FromStart(c, steps) && HeldAtMost(c, bound, START, steps) ==> ExclusiveRun(c, k, START, steps))
      <==> bound < c.lockTTL
  {
    if bound < c.lockTTL {
      forall steps | FromStart(c, steps) && HeldAtMost(c, bound, START, steps) ensures ExclusiveRun(c, k, START, steps) {
        TimelyIsSafe(c, bound, k, START, steps);
      }
    } else {
      OverrunIs(c, bound, k);
      assert FromStart(c, Overrun(c, k));
    }
  }

  /** Likewise, every release of every run removes the releasing process's own lock if and only if it is. */
  lemma OwnRelease(c: Config, bound: nat, k: Key)
    ensures (forall steps :: FromStart(c, steps) && HeldAtMost(c, bound, START, steps) ==> OwnRun(c, k, START, steps))
      <==> bound < c.lockTTL
  {
    if bound < c.lockTTL {
      forall steps | FromStart(c, steps) && HeldAtMost(c, bound, START, steps) ensures OwnRun(c, k, START, steps) {
        TimelyIsSafe(c, bound, k, START, steps);
      }
    } else {
      OverrunIs(c, bound, k);
      assert FromStart(c, Overrun(c, k));
    }
  }

  lemma {:induction false} RunKeepsCache(c: Config, s: State, steps: seq<Step>)
    requires CacheInv(c, s) && IsRun(c, s, steps)
    ensures CacheInv(c, Reached(c, s, steps))
    decreases |steps|
  {
    if steps != [] {
      CacheKept(c, s, steps[0]);
      RunKeepsCache(c, Next(c, s, steps[0]), steps[1..]);
    }
  }

  /** In every run, timely or not: every cached session is of its key's model, the branch for another model is never
      taken, and a reused session is fresh and of the model asked for. */
  lemma ReuseIsSound(c: Config, steps: seq<Step>, p: int)
    requires IsRun(c, START, steps) && p in Reached(c, START, steps).processes
    ensures var q := Reached(c, START, steps).processes[p];
      && !q.pc.Evicting?
      && (q.pc.Done? && q.pc.outcome.Reuse? ==>
           q.pc.outcome.session.model == q.key.model &&
           (q.pc.outcome.session.remainingMs == 0 || q.pc.outcome.session.remainingMs > c.freshMs))
  {
    RunKeepsCache(c, START, steps);
  }

  // ----------------------------------------------------------------------- how long things last

  /** A saved session is found for exactly the time it has left, or a day when that is unknown, and no other entry
      changes. */
  lemma SavedIsFound(c: Config, s: State, p: int, v: Session, later: int)
    requires p in s.processes && s.processes[p].pc == Saving(Some(v)) && later >= s.now
    ensures var t, k := Next(c, s, Save(p, true)).(now := later), s.processes[p].key;
      && Lookup(t, k) == (if later - s.now < (if v.remainingMs > 0 then v.remainingMs else 86_400_000) then Some(v) else None)
      && forall j :: j != k ==> Lookup(t, j) == Lookup(s.(now := later), j)
  {
  }

  /** A process that finds the lock taken gives up in its loop exactly when it has waited for the poll timeout. */
  lemma WaiterGivesUp(c: Config, s: State, p: int, t: State)
    requires p in s.processes && s.processes[p].pc.Locking? && !LockFree(s, s.processes[p].key)
    requires p in t.processes && t.processes[p] == Next(c, s, TryLock(p, true)).processes[p]
    ensures Enabled(t, Sleep(p))
    ensures Next(c, t, Sleep(p)).processes[p].pc == Done(Failed) <==> t.now - s.now >= c.pollTimeout
    ensures Next(c, t, Sleep(p)).processes[p].pc != Done(Failed) ==> Enabled(Next(c, t, Sleep(p)), Poll(p, true))
  {
  }

  /** A step of the process itself, not one that starts it. */
  predicate StepOf(step: Step, p: int) { !step.Tick? && !step.EvictSession? && !step.Begin? && step.p == p }

  /** The steps that a process takes between taking the lock and giving it up. */
  function CriticalSteps(c: Config, p: int, s: State, steps: seq<Step>): nat
    requires IsRun(c, s, steps)
    decreases |steps|
  {
    if steps == [] then 0
    else
      (if StepOf(steps[0], p) && p in s.processes && Critical(s.processes[p].pc) then 1 else 0)
      + CriticalSteps(c, p, Next(c, s, steps[0]), steps[1..])
  }

  /** The creates that it sends. */
  function Creates(c: Config, p: int, s: State, steps: seq<Step>): nat
    requires IsRun(c, s, steps)
    decreases |steps|
  {
    if steps == [] then 0
    else (if steps[0].CreateReply? && steps[0].p == p then 1 else 0) + Creates(c, p, Next(c, s, steps[0]), steps[1..])
  }

  /** How many critical steps, and how many creates, a process has still before it. */
  function Left(s: State, p: int): (nat, nat) {
    if p !in s.processes then (5, 2)
    else
      match s.processes[p].pc
      case Creating(again) => if again then (3, 1) else (5, 2)
      case Clearing => (4, 1)
      case Saving(_) => (2, 0)
      case Releasing(_) => (1, 0)
      case Done(_) => (0, 0)
      case _ => (5, 2)
  }

  lemma StepsLeft(c: Config, p: int, s: State, step: Step)
    requires Enabled(s, step)
    ensures var a, b := Left(s, p), Left(Next(c, s, step), p);
      && b.0 + (if StepOf(step, p) && p in s.processes && Critical(s.processes[p].pc) then 1 else 0) <= a.0
      && b.1 + (if step.CreateReply? && step.p == p then 1 else 0) <= a.1
  {
  }

  lemma {:induction false} AtMostLeft(c: Config, p: int, s: State, steps: seq<Step>)
    requires IsRun(c, s, steps)
    ensures CriticalSteps(c, p, s, steps) <= Left(s, p).0 && Creates(c, p, s, steps) <= Left(s, p).1
    decreases |steps|
  {
    if steps != [] {
      StepsLeft(c, p, s, steps[0]);
      AtMostLeft(c, p, Next(c, s, steps[0]), steps[1..]);
    }
  }

  /** In every run a process sends at most two creates, and gives the lock up within five steps of its own. */
  lemma HoldersAreBrief(c: Config, p: int, steps: seq<Step>)
    requires IsRun(c, START, steps)
    ensures Creates(c, p, START, steps) <= 2 && CriticalSteps(c, p, START, steps) <= 5
  {
    AtMostLeft(c, p, START, steps);
  }

  // ------------------------------------------------------------------------ outstaying the lock

  /** A run that no bound of at least the lock's lifetime rules out, with two processes creating at once and one
      releasing the other's lock. */
  ghost predicate Overruns(c: Config, bound: nat, k: Key, s: State, steps: seq<Step>, twice: bool, other: bool) {
    && IsRun(c, s, steps) && HeldAtMost(c, bound, s, steps)
    && (twice ==> !ExclusiveRun(c, k, s, steps)) && (other ==> !OwnRun(c, k, s, steps))
  }

  lemma Before(c: Config, bound: nat, k: Key, s: State, step: Step, steps: seq<Step>, t: State, twice: bool, other: bool)
    requires Enabled(s, step) && Next(c, s, step) == t && Held(bound, s) && Overruns(c, bound, k, t, steps, twice, other)
    ensures Overruns(c, bound, k, s, [step] + steps, twice, other)
  {
    assert ([step] + steps)[1..] == steps;
  }

  /** A holder that outstays its lock: a second process gets in, and the first one, giving up, releases the second's
      lock. */
  function OverrunFrom(c: Config, k: Key, n: nat): seq<Step>
    decreases 9 - n
  {
    if n >= 9 then [] else [OverrunStep(c, k, n)] + OverrunFrom(c, k, n + 1)
  }

  function Overrun(c: Config, k: Key): seq<Step> { OverrunFrom(c, k, 0) }

  function OverrunStep(c: Config, k: Key, n: nat): Step {
    if n == 0 then Begin(1, k)
    else if n == 1 then Load(1, true)
    else if n == 2 then TryLock(1, true)
    else if n == 3 then Tick(c.lockTTL)
    else if n == 4 then Begin(2, k)
    else if n == 5 then Load(2, true)
    else if n == 6 then TryLock(2, true)
    else if n == 7 then CreateReply(1, Refused)
    else Release(1, true)
  }

  /** The state after the first `n` steps of the overrun. */
  function OverrunAt(c: Config, k: Key, n: nat): State {
    var loading, locking, creating := Process(k, Loading, 0), Process(k, Locking, 0), Process(k, Creating(false), 0);
    var first, second := map[k := Lock(1, c.lockTTL)], map[k := Lock(2, c.lockTTL + c.lockTTL)];
    var late := Process(k, Creating(false), c.lockTTL);
    if n == 0 then START
    else if n == 1 then State(0, map[], map[], map[1 := loading])
    else if n == 2 then State(0, map[], map[], map[1 := locking])
    else if n == 3 then State(0, map[], first, map[1 := creating])
    else if n == 4 then State(c.lockTTL, map[], first, map[1 := creating])
    else if n == 5 then State(c.lockTTL, map[], first, map[1 := creating, 2 := loading])
    else if n == 6 then State(c.lockTTL, map[], first, map[1 := creating, 2 := locking])
    else if n == 7 then State(c.lockTTL, map[], second, map[1 := creating, 2 := late])
    else if n == 8 then State(c.lockTTL, map[], second, map[1 := creating.(pc := Releasing(Failed)), 2 := late])
    else State(c.lockTTL, map[], map[], map[1 := creating.(pc := Done(Failed)), 2 := late])
  }

  lemma OverrunSteps(c: Config, k: Key, n: nat)
    requires n < 9
    ensures Enabled(OverrunAt(c, k, n), OverrunStep(c, k, n))
    ensures Next(c, OverrunAt(c, k, n), OverrunStep(c, k, n)) == OverrunAt(c, k, n + 1)
  {
  }

  lemma OverrunHeld(c: Config, bound: nat, k: Key, n: nat)
    requires bound >= c.lockTTL
    ensures Held(bound, OverrunAt(c, k, n))
  {
  }

  lemma {:induction false} OverrunEnds(c: Config, bound: nat, k: Key, n: nat)
    requires bound >= c.lockTTL && n <= 9
    ensures Overruns(c, bound, k, OverrunAt(c, k, n), OverrunFrom(c, k, n), n <= 7, n <= 8)
    decreases 9 - n
  {
    OverrunHeld(c, bound, k, n);
    if n < 9 {
      OverrunSteps(c, k, n);
      OverrunEnds(c, bound, k, n + 1);
      Before(c, bound, k, OverrunAt(c, k, n), OverrunStep(c, k, n), OverrunFrom(c, k, n + 1), OverrunAt(c, k, n + 1), n < 7, n < 8);
      if n == 7 {
        var s := OverrunAt(c, k, 7);
        assert InCritical(s, 1, k) && InCritical(s, 2, k);
      }
    }
  }

  /** The overrun breaks exclusion, and then the first process removes the second one's lock. */
  lemma OverrunIs(c: Config, bound: nat, k: Key)
    requires bound >= c.lockTTL
    ensures IsRun(c, START, Overrun(c, k)) && HeldAtMost(c, bound, START, Overrun(c, k))
    ensures !ExclusiveRun(c, k, START, Overrun(c, k)) && !OwnRun(c, k, START, Overrun(c, k))
  {
    OverrunEnds(c, bound, k, 0);
  }
}
